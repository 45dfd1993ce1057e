/** The Treasure Data JavaScript SDK client, seen from the outside: it is
    built from the credentials object, it records every `trackEvent` or
    `addRecord` call made on it, and each call ends in whatever the SDK
    reports through its callbacks, which the environment decides. */
module Backend {
  import opened Js

  /** `trackEvent` lets the SDK add its own td_* fields; `addRecord` stores
      the record as given. */
  datatype SdkMethod = TrackEvent | AddRecord

  /** One submission: which method, which table, which record. */
  datatype Submission = Submission(via: SdkMethod, table: Value, record: map<string, Value>)

  /** What the SDK reports: the success callback with its result, the error
      callback with its error, or neither. */
  datatype Reply = Success(result: Value) | Failure(error: Value) | Silent

  class TdClient {
    /** The `td` sub-object of the configuration, as given to `new TdJsSdk(...)`. */
    const credentials: Value
    /** Every submission made so far, oldest first. */
    var log: seq<Submission>

    constructor (credentials: Value)
      ensures this.credentials == credentials && log == []
    {
      this.credentials := credentials;
      log := [];
    }

    /** `td.trackEvent(table, record, ok, err)` or `td.addRecord(...)`. */
    method Submit(via: SdkMethod, table: Value, record: map<string, Value>, reply: Reply) returns (r: Reply)
      modifies this
      ensures log == old(log) + [Submission(via, table, record)]
      ensures r == reply
    {
      log := log + [Submission(via, table, record)];
      r := reply;
    }
  }
}

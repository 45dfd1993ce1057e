/** The default configuration that every Treasure instance merges the user's
    configuration over. */
module DefaultConfig {
  import opened Js

  /** Location formatting: no protocol or host override, query and hash shown.
      The host override key is spelled `dispalyHostname`, as the code reads it. */
  const DefaultUrlFormat: Value := Obj(map[
    "dispalyHostname" := Null,
    "displayProtocol" := Null,
    "showQuery" := Bool(true),
    "showHash" := Bool(true)
  ])

  /** Placeholder credentials for the Treasure Data client. */
  const DefaultCredentials: Value := Obj(map[
    "database" := Str("SET_YOUR_DATABASE_NAME"),
    "writeKey" := Str("SET_YOUR_WRITE_KEY")
  ])

  /** The defaults. There is deliberately no `trackTypeKey` entry. */
  const Defaults: map<string, Value> := map[
    "pageViewTable" := Str("pageview"),
    "eventTable" := Str("event"),
    "sendFalsyValues" := Bool(false),
    "sendTdValues" := Bool(false),
    "sendReferrer" := Bool(false),
    "sendLocation" := Bool(false),
    "referrerKey" := Str("referrer"),
    "locationKey" := Str("location"),
    "eventNameKey" := Str("event"),
    "dryRun" := Bool(false),
    "urlFormat" := DefaultUrlFormat,
    "td" := DefaultCredentials
  ]

  /** Falsy suppression on, raw `addRecord` path, no referrer or location
      fields, no dry run; the two table names are non-empty strings. */
  lemma DefaultSwitches()
    ensures Falsy(Defaults["sendFalsyValues"]) && Falsy(Defaults["sendTdValues"])
    ensures Falsy(Defaults["sendReferrer"]) && Falsy(Defaults["sendLocation"])
    ensures Falsy(Defaults["dryRun"])
    ensures Defaults["pageViewTable"] == Str("pageview") && Defaults["eventTable"] == Str("event")
    ensures Truthy(Defaults["pageViewTable"]) && Truthy(Defaults["eventTable"])
  {
  }

  /** The default location format is an object (so it is truthy), overrides
      neither protocol nor host, and shows both query and hash. */
  lemma DefaultUrlFormatShape()
    ensures Truthy(Defaults["urlFormat"]) && Defaults["urlFormat"].Obj?
    ensures Falsy(Prop(Defaults["urlFormat"], "displayProtocol"))
    ensures Falsy(Prop(Defaults["urlFormat"], "dispalyHostname"))
    ensures Truthy(Prop(Defaults["urlFormat"], "showQuery"))
    ensures Truthy(Prop(Defaults["urlFormat"], "showHash"))
  {
  }

  /** No type-tag key is defined by default. */
  lemma NoDefaultTrackTypeKey()
    ensures "trackTypeKey" !in Defaults
    ensures Field(Defaults, "trackTypeKey") == Undefined
  {
  }
}

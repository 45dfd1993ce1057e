/** The Treasure Data SDK wrapper (src/Treasure.js): configuration merge,
    first-page / page-changed navigation state, record composition and the
    dry-run / table / submission-method dispatch. */
module TreasureWrapper {
  import opened Js
  import opened Utils
  import opened Backend
  import opened DefaultConfig

  /** The configuration key of the SDK credentials sub-object. */
  const TdKey: string := "td"

  /** The two track types. Their strings come from a constants file that is
      not part of this model; all that matters is that they are distinct,
      non-empty strings. */
  const PageViewTag: Value := Str("pageview")
  const EventTag: Value := Str("event")

  /** The ambient browser values the wrapper reads: whether it runs in a
      browser, `window.location` and `document.referrer`. */
  datatype Env = Env(inBrowser: bool, window: WindowLocation, documentReferrer: string)

  // ---------------------------------------------------------------------
  // Configuration

  /** `{...defaults, ...config, td: {...defaults.td, ...config.td}}`: a shallow
      merge, plus one more level for the credentials. */
  function MergeConfig(defaults: map<string, Value>, config: map<string, Value>): (r: map<string, Value>)
    ensures r.Keys == defaults.Keys + config.Keys + {TdKey}
    ensures forall k :: k in config && k != TdKey ==> r[k] == config[k]
    ensures forall k :: k in defaults && k !in config && k != TdKey ==> r[k] == defaults[k]
    ensures r[TdKey].Obj?
    ensures r[TdKey].fields.Keys == Spread(Field(defaults, TdKey)).Keys + Spread(Field(config, TdKey)).Keys
    ensures forall c :: c in Spread(Field(config, TdKey)) ==> r[TdKey].fields[c] == Spread(Field(config, TdKey))[c]
    ensures forall c :: c in Spread(Field(defaults, TdKey)) && c !in Spread(Field(config, TdKey)) ==>
      r[TdKey].fields[c] == Spread(Field(defaults, TdKey))[c]
  {
    (defaults + config)[TdKey := Obj(Spread(Field(defaults, TdKey)) + Spread(Field(config, TdKey)))]
  }

  /** Merging an empty configuration gives back defaults whose credentials
      entry is an object, such as the shipped defaults. */
  lemma MergeEmptyIsIdentity(defaults: map<string, Value>)
    requires TdKey in defaults && defaults[TdKey].Obj?
    ensures MergeConfig(defaults, map[]) == defaults
  {
    var r := MergeConfig(defaults, map[]);
    assert r[TdKey] == defaults[TdKey] by {
      assert r[TdKey].fields == defaults[TdKey].fields;
    }
  }

  lemma MergeEmptyGivesDefaults()
    ensures MergeConfig(Defaults, map[]) == Defaults
  {
    MergeEmptyIsIdentity(Defaults);
  }

  /** A user `td` object that leaves out a credential keeps the placeholder
      default for it. */
  lemma DefaultCredentialsSurvive(user: map<string, Value>, c: string)
    requires c in Spread(DefaultCredentials) && c !in Spread(Field(user, TdKey))
    ensures MergeConfig(Defaults, user)[TdKey].fields[c] == Spread(DefaultCredentials)[c]
    ensures c == "database" ==> MergeConfig(Defaults, user)[TdKey].fields[c] == Str("SET_YOUR_DATABASE_NAME")
  {
  }

  // ---------------------------------------------------------------------
  // Navigation state

  /** `this.location = {current, referrer}`. */
  datatype Locations = Locations(current: Value, referrer: Value)

  /** `firstPage`: the given location becomes current and the document's
      referrer (only right on the first page) becomes the referrer. */
  function FirstPageLocations(location: Value, documentReferrer: string): (r: Locations)
    ensures r.current == location && r.referrer == Str(documentReferrer)
  {
    Locations(location, Str(documentReferrer))
  }

  /** `pageChanged`: the old current becomes the referrer; the new location
      replaces current only when it is truthy. */
  function PageChangedLocations(prev: Locations, location: Value): (r: Locations)
    ensures r.referrer == prev.current
    ensures Truthy(location) ==> r.current == location
    ensures Falsy(location) ==> r.current == prev.current
    ensures Truthy(prev.current) ==> Truthy(r.current)
  {
    Locations(if Truthy(location) then location else prev.current, prev.current)
  }

  /** The navigation state after one `sendPageView`: the first call (no state
      yet) takes `firstPage`, every other call `pageChanged`. */
  function NextLocations(locations: Option<Locations>, location: Value, documentReferrer: string): (r: Locations)
    ensures locations.None? ==> r.current == location && r.referrer == Str(documentReferrer)
    ensures locations.Some? ==> r.referrer == locations.value.current
    ensures locations.Some? ==> r.current == (if Truthy(location) then location else locations.value.current)
  {
    match locations
    case None => FirstPageLocations(location, documentReferrer)
    case Some(prev) => PageChangedLocations(prev, location)
  }

  /** The state after a run of page views, starting from `start`. */
  function PageViews(start: Option<Locations>, locs: seq<Value>, documentReferrer: string): Option<Locations>
    decreases |locs|
  {
    if locs == [] then start
    else PageViews(Some(NextLocations(start, locs[0], documentReferrer)), locs[1..], documentReferrer)
  }

  /** The state after a run of `pageChanged` calls. */
  function PageChanges(prev: Locations, locs: seq<Value>): Locations
    decreases |locs|
  {
    if locs == [] then prev else PageChanges(PageChangedLocations(prev, locs[0]), locs[1..])
  }

  /** Once a state exists, page views are page changes only. */
  lemma {:induction false} PageViewsAfterFirst(prev: Locations, locs: seq<Value>, documentReferrer: string)
    ensures PageViews(Some(prev), locs, documentReferrer) == Some(PageChanges(prev, locs))
    decreases |locs|
  {
    if locs != [] {
      PageViewsAfterFirst(PageChangedLocations(prev, locs[0]), locs[1..], documentReferrer);
    }
  }

  /** From the initial state, the first page view and only the first takes
      the `firstPage` path; all later ones take `pageChanged`. */
  lemma FirstPageExactlyOnce(locs: seq<Value>, documentReferrer: string)
    requires |locs| > 0
    ensures PageViews(None, locs, documentReferrer)
      == Some(PageChanges(FirstPageLocations(locs[0], documentReferrer), locs[1..]))
  {
    PageViewsAfterFirst(FirstPageLocations(locs[0], documentReferrer), locs[1..], documentReferrer);
  }

  /** After any run of page changes, the referrer is the current location as
      it was just before the last change. */
  lemma {:induction false} ReferrerIsPreviousCurrent(prev: Locations, locs: seq<Value>)
    requires |locs| > 0
    ensures PageChanges(prev, locs).referrer == PageChanges(prev, locs[..|locs| - 1]).current
    decreases |locs|
  {
    if |locs| > 1 {
      var next := PageChangedLocations(prev, locs[0]);
      ReferrerIsPreviousCurrent(next, locs[1..]);
      assert locs[1..][..|locs[1..]| - 1] == locs[..|locs| - 1][1..];
    }
  }

  /** Page changes without a location keep current fixed, and from the first
      of them on the referrer equals current. */
  lemma {:induction false} MissingLocationsKeepCurrent(prev: Locations, locs: seq<Value>)
    requires forall i :: 0 <= i < |locs| ==> Falsy(locs[i])
    ensures PageChanges(prev, locs).current == prev.current
    ensures |locs| > 0 ==> PageChanges(prev, locs).referrer == prev.current
    decreases |locs|
  {
    if locs != [] {
      MissingLocationsKeepCurrent(PageChangedLocations(prev, locs[0]), locs[1..]);
    }
  }

  // ---------------------------------------------------------------------
  // Record composition

  /** The property key named by configuration entry `name`; a missing entry
      converts to the key "undefined". */
  function KeyOf(cfg: map<string, Value>, name: string): string {
    ToStr(Field(cfg, name))
  }

  function TypeKey(cfg: map<string, Value>): string { KeyOf(cfg, "trackTypeKey") }
  function ReferrerKey(cfg: map<string, Value>): string { KeyOf(cfg, "referrerKey") }
  function LocationKey(cfg: map<string, Value>): string { KeyOf(cfg, "locationKey") }
  function EventNameKey(cfg: map<string, Value>): string { KeyOf(cfg, "eventNameKey") }

  predicate SendsReferrer(cfg: map<string, Value>, trackType: Value) {
    trackType == PageViewTag && Truthy(Field(cfg, "sendReferrer"))
  }

  predicate SendsLocation(cfg: map<string, Value>, trackType: Value) {
    trackType == PageViewTag && Truthy(Field(cfg, "sendLocation"))
  }

  /** The keys composition writes. */
  function InjectedKeys(cfg: map<string, Value>, eventName: Value, trackType: Value): set<string> {
    {TypeKey(cfg)}
    + (if SendsReferrer(cfg, trackType) then {ReferrerKey(cfg)} else {})
    + (if SendsLocation(cfg, trackType) then {LocationKey(cfg)} else {})
    + (if Truthy(eventName) then {EventNameKey(cfg)} else {})
  }

  /** The constructor's choice of `composeLocation`: the normaliser when
      `urlFormat` is truthy, the identity otherwise. */
  function ComposeLocation(cfg: map<string, Value>, win: WindowLocation, location: Value): (r: Value)
    ensures Truthy(Field(cfg, "urlFormat")) ==> r == ComposeLocationString(Field(cfg, "urlFormat"), win, location)
    ensures Falsy(Field(cfg, "urlFormat")) ==> r == location
    ensures Falsy(location) ==> Falsy(r)
    ensures Truthy(location) && location.Str? ==> r == location
  {
    var urlFormat := Field(cfg, "urlFormat");
    if Truthy(urlFormat) then ComposeLocationString(urlFormat, win, location) else location
  }

  /** Composition before falsy suppression: a copy of the variables with the
      type tag, then (page views only, when switched on) the referrer and the
      location, then (when truthy) the event name written into it; a later
      write wins when two configured keys coincide. */
  function Enrich(cfg: map<string, Value>, win: WindowLocation, locations: Option<Locations>,
                  variables: Value, eventName: Value, trackType: Value): (m: map<string, Value>)
    requires SendsReferrer(cfg, trackType) || SendsLocation(cfg, trackType) ==> locations.Some?
    ensures InjectedKeys(cfg, eventName, trackType) <= m.Keys
    ensures forall k :: k in m <==> k in Spread(variables) || k in InjectedKeys(cfg, eventName, trackType)
    ensures forall k :: k in Spread(variables) && k !in InjectedKeys(cfg, eventName, trackType) ==>
      m[k] == Spread(variables)[k]
    ensures Truthy(eventName) ==> m[EventNameKey(cfg)] == eventName
    ensures (SendsLocation(cfg, trackType)
             && !(Truthy(eventName) && EventNameKey(cfg) == LocationKey(cfg))) ==>
      m[LocationKey(cfg)] == ComposeLocation(cfg, win, locations.value.current)
    ensures (SendsReferrer(cfg, trackType)
             && !(SendsLocation(cfg, trackType) && LocationKey(cfg) == ReferrerKey(cfg))
             && !(Truthy(eventName) && EventNameKey(cfg) == ReferrerKey(cfg))) ==>
      m[ReferrerKey(cfg)] == ComposeLocation(cfg, win, locations.value.referrer)
    ensures (!(SendsReferrer(cfg, trackType) && ReferrerKey(cfg) == TypeKey(cfg))
             && !(SendsLocation(cfg, trackType) && LocationKey(cfg) == TypeKey(cfg))
             && !(Truthy(eventName) && EventNameKey(cfg) == TypeKey(cfg))) ==>
      m[TypeKey(cfg)] == trackType
  {
    var tagged := Spread(variables)[TypeKey(cfg) := trackType];
    var withReferrer :=
      if SendsReferrer(cfg, trackType)
      then tagged[ReferrerKey(cfg) := ComposeLocation(cfg, win, locations.value.referrer)]
      else tagged;
    var withLocation :=
      if SendsLocation(cfg, trackType)
      then withReferrer[LocationKey(cfg) := ComposeLocation(cfg, win, locations.value.current)]
      else withReferrer;
    if Truthy(eventName) then withLocation[EventNameKey(cfg) := eventName] else withLocation
  }

  /** `pickBy(Boolean)`: the truthy entries. */
  function DropFalsy(m: map<string, Value>): (r: map<string, Value>)
    ensures forall k :: k in r ==> k in m && r[k] == m[k] && Truthy(r[k])
    ensures forall k :: k in m && Truthy(m[k]) ==> k in r
  {
    PickBy(m, (k, v) => Truthy(v))
  }

  /** `composeVariables`: the enriched copy, with falsy values dropped unless
      `sendFalsyValues` is set. */
  function Compose(cfg: map<string, Value>, win: WindowLocation, locations: Option<Locations>,
                   variables: Value, eventName: Value, trackType: Value): (r: map<string, Value>)
    requires SendsReferrer(cfg, trackType) || SendsLocation(cfg, trackType) ==> locations.Some?
    ensures Truthy(Field(cfg, "sendFalsyValues")) ==> r == Enrich(cfg, win, locations, variables, eventName, trackType)
    ensures forall k :: k in r ==>
      k in Enrich(cfg, win, locations, variables, eventName, trackType)
      && r[k] == Enrich(cfg, win, locations, variables, eventName, trackType)[k]
    ensures Falsy(Field(cfg, "sendFalsyValues")) ==>
      (forall k :: k in r ==> Truthy(r[k]))
      && forall k :: (k in Enrich(cfg, win, locations, variables, eventName, trackType)
                       && Truthy(Enrich(cfg, win, locations, variables, eventName, trackType)[k])) ==> k in r
  {
    var composed := Enrich(cfg, win, locations, variables, eventName, trackType);
    if Truthy(Field(cfg, "sendFalsyValues")) then composed else DropFalsy(composed)
  }

  // ---------------------------------------------------------------------
  // Dispatch

  /** `getTableName`: only the two track types have a table. */
  function TableName(cfg: map<string, Value>, trackType: Value): (r: Value)
    ensures trackType == PageViewTag ==> r == Field(cfg, "pageViewTable")
    ensures trackType == EventTag ==> r == Field(cfg, "eventTable")
    ensures trackType != PageViewTag && trackType != EventTag ==> r == Null
    ensures Truthy(r) ==> trackType == PageViewTag || trackType == EventTag
  {
    if trackType == PageViewTag then Field(cfg, "pageViewTable")
    else if trackType == EventTag then Field(cfg, "eventTable")
    else Null
  }

  /** What `track` resolves with in dry-run mode: `{dry: true}`. */
  const DryRunMarker: Value := Obj(map["dry" := Bool(true)])

  /** Why a track fails: the "Table name must be supplied." rejection, an
      error reported by the SDK, or an exception. */
  datatype Rejection = MissingTable | BackendError(error: Value) | Thrown(exception: Exception)

  /** How a promise ends: resolved, rejected, or never settled (the SDK did
      not call back). */
  datatype Outcome = Resolved(value: Value) | Rejected(reason: Rejection) | Pending

  /** The promise around the SDK call follows its callbacks. */
  function Settle(reply: Reply): Outcome {
    match reply
    case Success(v) => Resolved(v)
    case Failure(e) => Rejected(BackendError(e))
    case Silent => Pending
  }

  /** The SDK call `track` makes, if any. */
  function Planned(cfg: map<string, Value>, trackType: Value, record: map<string, Value>): (s: Option<Submission>)
    ensures s.None? <==> Truthy(Field(cfg, "dryRun"))
    ensures s.Some? ==>
      s.value.table == TableName(cfg, trackType)
      && s.value.record == record
      && (s.value.via == TrackEvent <==> Truthy(Field(cfg, "sendTdValues")))
  {
    if Truthy(Field(cfg, "dryRun")) then None
    else
      var via := if Truthy(Field(cfg, "sendTdValues")) then TrackEvent else AddRecord;
      Some(Submission(via, TableName(cfg, trackType), record))
  }

  /** How the promise `track` returns settles. A missing table rejects it at
      once, so the SDK's later callbacks no longer matter. */
  function TrackOutcome(cfg: map<string, Value>, trackType: Value, reply: Reply): (o: Outcome)
    ensures Truthy(Field(cfg, "dryRun")) ==> o == Resolved(DryRunMarker)
    ensures Falsy(Field(cfg, "dryRun")) && Falsy(TableName(cfg, trackType)) ==> o == Rejected(MissingTable)
    ensures Falsy(Field(cfg, "dryRun")) && Truthy(TableName(cfg, trackType)) ==>
      && (reply.Success? ==> o == Resolved(reply.result))
      && (reply.Failure? ==> o == Rejected(BackendError(reply.error)))
      && (reply.Silent? ==> o == Pending)
  {
    if Truthy(Field(cfg, "dryRun")) then Resolved(DryRunMarker)
    else if Falsy(TableName(cfg, trackType)) then Rejected(MissingTable)
    else Settle(reply)
  }

  /** A missing table rejects the track, yet the SDK is still called (the
      rejection is not followed by a return). */
  lemma MissingTableStillSubmits(cfg: map<string, Value>, trackType: Value, record: map<string, Value>, reply: Reply)
    requires Falsy(Field(cfg, "dryRun")) && Falsy(TableName(cfg, trackType))
    ensures TrackOutcome(cfg, trackType, reply) == Rejected(MissingTable)
    ensures Planned(cfg, trackType, record).Some?
    ensures Falsy(Planned(cfg, trackType, record).value.table)
  {
  }

  /** `getTableName` knows only the two track types: a track of any other
      type has no table, so unless it is a dry run it is rejected, after the
      SDK has been called with a null table. */
  lemma UnknownTypeRejected(cfg: map<string, Value>, trackType: Value, record: map<string, Value>, reply: Reply)
    requires trackType != PageViewTag && trackType != EventTag
    requires Falsy(Field(cfg, "dryRun"))
    ensures TrackOutcome(cfg, trackType, reply) == Rejected(MissingTable)
    ensures Planned(cfg, trackType, record).Some? && Planned(cfg, trackType, record).value.table == Null
  {
  }

  /** `await this.track(...)` inside `sendPageView` / `sendEvent`: those
      promises resolve with undefined and reject with the same reason. */
  function Awaited(o: Outcome): (r: Outcome)
    ensures o.Resolved? ==> r == Resolved(Undefined)
    ensures o.Rejected? ==> r == o
    ensures o.Pending? ==> r == Pending
  {
    match o
    case Resolved(_) => Resolved(Undefined)
    case _ => o
  }

  function AsSeq(s: Option<Submission>): seq<Submission> {
    match s
    case None => []
    case Some(x) => [x]
  }

  // ---------------------------------------------------------------------
  // What the defaults imply once merged

  /** Unless the user overrides them, both table names resolve (to non-empty
      strings) and every other type gets no table. */
  lemma DefaultTablesResolve(user: map<string, Value>, other: Value)
    requires "pageViewTable" !in user && "eventTable" !in user
    requires other != PageViewTag && other != EventTag
    ensures TableName(MergeConfig(Defaults, user), PageViewTag) == Str("pageview")
    ensures TableName(MergeConfig(Defaults, user), EventTag) == Str("event")
    ensures TableName(MergeConfig(Defaults, user), other) == Null
  {
    DefaultSwitches();
    UnsetKeyKeepsDefault(user, "pageViewTable");
    UnsetKeyKeepsDefault(user, "eventTable");
  }

  /** Unless the user overrides the switches, a track is a real `addRecord`
      submission, and composition drops falsy values and adds neither
      referrer nor location. */
  lemma DefaultDispatch(user: map<string, Value>, trackType: Value, record: map<string, Value>)
    requires "dryRun" !in user && "sendTdValues" !in user
    requires "sendFalsyValues" !in user && "sendReferrer" !in user && "sendLocation" !in user
    ensures Planned(MergeConfig(Defaults, user), trackType, record)
      == Some(Submission(AddRecord, TableName(MergeConfig(Defaults, user), trackType), record))
    ensures Falsy(Field(MergeConfig(Defaults, user), "sendFalsyValues"))
    ensures !SendsReferrer(MergeConfig(Defaults, user), trackType)
    ensures !SendsLocation(MergeConfig(Defaults, user), trackType)
  {
    DefaultSwitches();
    UnsetKeyKeepsDefault(user, "dryRun");
    UnsetKeyKeepsDefault(user, "sendTdValues");
    UnsetKeyKeepsDefault(user, "sendFalsyValues");
    UnsetKeyKeepsDefault(user, "sendReferrer");
    UnsetKeyKeepsDefault(user, "sendLocation");
  }

  /** Unless the user replaces `urlFormat`, locations are normalised with the
      default format (query and hash shown, no overrides). */
  lemma DefaultLocationIsNormalised(user: map<string, Value>, win: WindowLocation, location: Value)
    requires "urlFormat" !in user
    ensures ComposeLocation(MergeConfig(Defaults, user), win, location)
      == ComposeLocationString(DefaultUrlFormat, win, location)
  {
  }

  /** The type tag's key comes only from the user's configuration; without
      one, the tag is written under the key "undefined". */
  lemma TypeKeyFromUserOnly(user: map<string, Value>)
    ensures TypeKey(MergeConfig(Defaults, user)) == ToStr(Field(user, "trackTypeKey"))
    ensures "trackTypeKey" !in user ==> TypeKey(MergeConfig(Defaults, user)) == "undefined"
  {
  }

  // ---------------------------------------------------------------------
  // Scenarios

  /** A configuration that sets none of `trackTypeKey`, `eventNameKey` and
      `sendFalsyValues` writes the type tag under "undefined" and the event
      name under "event", and drops falsy values. */
  lemma DefaultKeys(user: map<string, Value>)
    requires "trackTypeKey" !in user && "eventNameKey" !in user && "sendFalsyValues" !in user
    ensures TypeKey(MergeConfig(Defaults, user)) == "undefined"
    ensures EventNameKey(MergeConfig(Defaults, user)) == "event"
    ensures Falsy(Field(MergeConfig(Defaults, user), "sendFalsyValues"))
  {
    TypeKeyFromUserOnly(user);
    UnsetKeyKeepsDefault(user, "eventNameKey");
    UnsetKeyKeepsDefault(user, "sendFalsyValues");
    assert Defaults["eventNameKey"] == Str("event");
    assert Defaults["sendFalsyValues"] == Bool(false);
  }

  /** Falsy suppression on the event variables `{a: 0, b: "x", c: false}`
      keeps only `b`, for any configuration that leaves `trackTypeKey`,
      `eventNameKey` and `sendFalsyValues` at their defaults. */
  lemma FalsySuppressionScenario(user: map<string, Value>, win: WindowLocation)
    requires "trackTypeKey" !in user && "eventNameKey" !in user && "sendFalsyValues" !in user
    ensures var r := Compose(MergeConfig(Defaults, user), win, None,
                             Obj(map["a" := Num(0), "b" := Str("x"), "c" := Bool(false)]), Undefined, EventTag);
      "a" !in r && "c" !in r && "b" in r && r["b"] == Str("x")
  {
    DefaultKeys(user);
    FalsySuppressionExample(MergeConfig(Defaults, user), win);
  }

  /** The same example under any configuration that suppresses falsy values
      and whose type-tag key is none of the three variable names. */
  lemma FalsySuppressionExample(cfg: map<string, Value>, win: WindowLocation)
    requires Falsy(Field(cfg, "sendFalsyValues")) && TypeKey(cfg) !in {"a", "b", "c"}
    ensures var r := Compose(cfg, win, None,
                             Obj(map["a" := Num(0), "b" := Str("x"), "c" := Bool(false)]), Undefined, EventTag);
      "a" !in r && "c" !in r && "b" in r && r["b"] == Str("x")
  {
    var vars := map["a" := Num(0), "b" := Str("x"), "c" := Bool(false)];
    assert InjectedKeys(cfg, Undefined, EventTag) == {TypeKey(cfg)};
    UntouchedVariableKeptIffTruthy(cfg, win, None, vars, Undefined, EventTag, "a");
    UntouchedVariableKeptIffTruthy(cfg, win, None, vars, Undefined, EventTag, "b");
    UntouchedVariableKeptIffTruthy(cfg, win, None, vars, Undefined, EventTag, "c");
  }

  /** Under falsy suppression, a variable that composition does not overwrite
      reaches the record iff its value is truthy, and then unchanged. */
  lemma UntouchedVariableKeptIffTruthy(cfg: map<string, Value>, win: WindowLocation, locations: Option<Locations>,
                                       variables: map<string, Value>, eventName: Value, trackType: Value, k: string)
    requires SendsReferrer(cfg, trackType) || SendsLocation(cfg, trackType) ==> locations.Some?
    requires Falsy(Field(cfg, "sendFalsyValues"))
    requires k in variables && k !in InjectedKeys(cfg, eventName, trackType)
    ensures k in Compose(cfg, win, locations, Obj(variables), eventName, trackType) <==> Truthy(variables[k])
    ensures k in Compose(cfg, win, locations, Obj(variables), eventName, trackType) ==>
      Compose(cfg, win, locations, Obj(variables), eventName, trackType)[k] == variables[k]
  {
    var e := Enrich(cfg, win, locations, Obj(variables), eventName, trackType);
    assert k in e && e[k] == variables[k];
  }

  /** An event record carries its truthy name under the event-name key and
      the event tag under the type key, when the two keys differ. */
  lemma EventRecordFields(cfg: map<string, Value>, win: WindowLocation, locations: Option<Locations>,
                          variables: Value, eventName: Value)
    requires Truthy(eventName) && EventNameKey(cfg) != TypeKey(cfg)
    ensures var r := Compose(cfg, win, locations, variables, eventName, EventTag);
      EventNameKey(cfg) in r && r[EventNameKey(cfg)] == eventName
      && TypeKey(cfg) in r && r[TypeKey(cfg)] == EventTag
  {
    var e := Enrich(cfg, win, locations, variables, eventName, EventTag);
    assert e[EventNameKey(cfg)] == eventName;
    assert e[TypeKey(cfg)] == EventTag;
  }

  /** An event named "click" under the default configuration carries
      `event: "click"` and the type tag under "undefined". */
  lemma EventScenario(win: WindowLocation, variables: Value)
    ensures var r := Compose(MergeConfig(Defaults, map[]), win, None, variables, Str("click"), EventTag);
      "event" in r && r["event"] == Str("click") && "undefined" in r && r["undefined"] == EventTag
  {
    DefaultKeys(map[]);
    EventRecordFields(MergeConfig(Defaults, map[]), win, None, variables, Str("click"));
  }

  /** A direct visit has an empty `document.referrer`: on the first page view
      the referrer normalises to a falsy value, so falsy suppression drops the
      referrer key from the record (unless the location overwrites it). */
  lemma DirectVisitDropsReferrer(cfg: map<string, Value>, win: WindowLocation, location: Value, variables: Value)
    requires Falsy(Field(cfg, "sendFalsyValues")) && Truthy(Field(cfg, "sendReferrer"))
    requires !(Truthy(Field(cfg, "sendLocation")) && LocationKey(cfg) == ReferrerKey(cfg))
    ensures ReferrerKey(cfg) !in Compose(cfg, win, Some(NextLocations(None, location, "")), variables, Undefined, PageViewTag)
  {
    var locations := NextLocations(None, location, "");
    var e := Enrich(cfg, win, Some(locations), variables, Undefined, PageViewTag);
    assert Falsy(e[ReferrerKey(cfg)]);
  }

  /** A page-view record with referrer and location switched on and three
      distinct keys carries the normalised referrer and location and the
      page-view tag (when the normalised values are truthy, so that falsy
      suppression keeps them). */
  lemma PageViewRecordFields(cfg: map<string, Value>, win: WindowLocation, locations: Locations, variables: Value)
    requires Truthy(Field(cfg, "sendReferrer")) && Truthy(Field(cfg, "sendLocation"))
    requires TypeKey(cfg) != ReferrerKey(cfg) && TypeKey(cfg) != LocationKey(cfg) && ReferrerKey(cfg) != LocationKey(cfg)
    requires Truthy(ComposeLocation(cfg, win, locations.referrer)) && Truthy(ComposeLocation(cfg, win, locations.current))
    ensures var r := Compose(cfg, win, Some(locations), variables, Undefined, PageViewTag);
      && ReferrerKey(cfg) in r && r[ReferrerKey(cfg)] == ComposeLocation(cfg, win, locations.referrer)
      && LocationKey(cfg) in r && r[LocationKey(cfg)] == ComposeLocation(cfg, win, locations.current)
      && TypeKey(cfg) in r && r[TypeKey(cfg)] == PageViewTag
  {
    var e := Enrich(cfg, win, Some(locations), variables, Undefined, PageViewTag);
    assert e[ReferrerKey(cfg)] == ComposeLocation(cfg, win, locations.referrer);
    assert e[LocationKey(cfg)] == ComposeLocation(cfg, win, locations.current);
    assert e[TypeKey(cfg)] == PageViewTag;
  }

  /** The settings a user configuration that switches referrer and location
      on and names the type-tag key "type" leaves after the merge. */
  lemma SwitchedOnKeys(user: map<string, Value>)
    requires "sendReferrer" in user && Truthy(user["sendReferrer"])
    requires "sendLocation" in user && Truthy(user["sendLocation"])
    requires "trackTypeKey" in user && user["trackTypeKey"] == Str("type")
    requires "referrerKey" !in user && "locationKey" !in user
    ensures var cfg := MergeConfig(Defaults, user);
      && Truthy(Field(cfg, "sendReferrer")) && Truthy(Field(cfg, "sendLocation"))
      && TypeKey(cfg) == "type" && ReferrerKey(cfg) == "referrer" && LocationKey(cfg) == "location"
  {
    UserKeyWins(Defaults, user, "sendReferrer");
    UserKeyWins(Defaults, user, "sendLocation");
    UserKeyWins(Defaults, user, "trackTypeKey");
    UnsetKeyKeepsDefault(user, "referrerKey");
    UnsetKeyKeepsDefault(user, "locationKey");
  }

  /** A top-level key the user sets reads as the user's value after the merge. */
  lemma UserKeyWins(defaults: map<string, Value>, user: map<string, Value>, k: string)
    requires k in user && k != TdKey
    ensures Field(MergeConfig(defaults, user), k) == user[k]
  {
  }

  /** A key the user leaves out reads as its default after the merge. */
  lemma UnsetKeyKeepsDefault(user: map<string, Value>, k: string)
    requires k in Defaults && k !in user && k != TdKey
    ensures Field(MergeConfig(Defaults, user), k) == Defaults[k]
  {
  }

  /** Under the default location format, string locations pass unchanged. */
  lemma StringLocationsKept(user: map<string, Value>, win: WindowLocation, s: string)
    requires "urlFormat" !in user && s != ""
    ensures ComposeLocation(MergeConfig(Defaults, user), win, Str(s)) == Str(s)
  {
    DefaultLocationIsNormalised(user, win, Str(s));
  }

  /** First page view of "/home" under a configuration that switches referrer
      and location on and names the type-tag key "type", keeping the default
      key names and location format: the record carries the document
      referrer, the location and the page-view tag. */
  lemma FirstPageScenario(user: map<string, Value>, win: WindowLocation, documentReferrer: string, variables: Value)
    requires "sendReferrer" in user && Truthy(user["sendReferrer"])
    requires "sendLocation" in user && Truthy(user["sendLocation"])
    requires "trackTypeKey" in user && user["trackTypeKey"] == Str("type")
    requires "referrerKey" !in user && "locationKey" !in user && "urlFormat" !in user
    requires documentReferrer != ""
    ensures var cfg := MergeConfig(Defaults, user);
      var r := Compose(cfg, win, Some(NextLocations(None, Str("/home"), documentReferrer)),
                       variables, Undefined, PageViewTag);
      "referrer" in r && r["referrer"] == Str(documentReferrer)
      && "location" in r && r["location"] == Str("/home")
      && "type" in r && r["type"] == PageViewTag
  {
    SwitchedOnKeys(user);
    StringLocationsKept(user, win, "/home");
    StringLocationsKept(user, win, documentReferrer);
    var cfg := MergeConfig(Defaults, user);
    PageViewRecordFields(cfg, win, Locations(Str("/home"), Str(documentReferrer)), variables);
  }

  // ---------------------------------------------------------------------
  // The stateful wrapper

  class Treasure {
    /** False when constructed outside a browser: the constructor then
        returns before setting anything up, and the instance is inert. */
    const initialized: bool
    const config: map<string, Value>
    const env: Env
    /** The SDK client; absent on an inert instance. */
    const client: TdClient?
    var isFirstPageView: bool
    /** `this.location`, undefined until the first page view. */
    var location: Option<Locations>

    ghost predicate Valid()
      reads this
    {
      && (initialized <==> client != null)
      && (initialized ==> (isFirstPageView <==> location.None?))
      && (!initialized ==> !isFirstPageView && location.None?)
    }

    constructor (userConfig: map<string, Value>, env: Env)
      ensures Valid() && this.env == env && initialized == env.inBrowser
      ensures initialized ==> isFirstPageView && location.None?
      ensures initialized ==> config == MergeConfig(Defaults, userConfig)
      ensures initialized ==> fresh(client) && client.credentials == config[TdKey] && client.log == []
    {
      this.env := env;
      if !env.inBrowser {
        initialized := false;
        config := map[];
        client := null;
        isFirstPageView := false;
        location := None;
      } else {
        var merged := MergeConfig(Defaults, userConfig);
        initialized := true;
        isFirstPageView := true;
        location := None;
        config := merged;
        client := new TdClient(merged[TdKey]);
      }
    }

    /** `firstPage`: called once, on entering the site. */
    method FirstPage(loc: Value)
      requires Valid() && isFirstPageView
      modifies this`isFirstPageView, this`location
      ensures Valid() && !isFirstPageView
      ensures location == Some(Locations(loc, Str(env.documentReferrer)))
    {
      location := Some(FirstPageLocations(loc, env.documentReferrer));
      isFirstPageView := false;
    }

    /** `pageChanged`: called on every later (possibly virtual) page move. */
    method PageChanged(loc: Value)
      requires Valid() && location.Some?
      modifies this`location
      ensures Valid() && isFirstPageView == old(isFirstPageView)
      ensures location.Some? && location.value.referrer == old(location.value.current)
      ensures location.value.current == if Truthy(loc) then loc else old(location.value.current)
    {
      location := Some(PageChangedLocations(location.value, loc));
    }

    /** `composeVariables`, reading the configuration and navigation state. */
    function ComposeVariables(variables: Value, eventName: Value, trackType: Value): map<string, Value>
      reads this
      requires initialized
      requires SendsReferrer(config, trackType) || SendsLocation(config, trackType) ==> location.Some?
    {
      Compose(config, env.window, location, variables, eventName, trackType)
    }

    /** `track`: dry run, or one SDK call whose callbacks settle the result. */
    method Track(trackType: Value, variables: map<string, Value>, reply: Reply) returns (o: Outcome)
      requires Valid() && initialized
      modifies client
      ensures client.log == old(client.log) + AsSeq(Planned(config, trackType, variables))
      ensures o == TrackOutcome(config, trackType, reply)
    {
      if Truthy(Field(config, "dryRun")) {
        o := Resolved(DryRunMarker);
        return;
      }
      var table := TableName(config, trackType);
      var missing := Falsy(table);
      var r;
      if Truthy(Field(config, "sendTdValues")) {
        r := client.Submit(TrackEvent, table, variables, reply);
      } else {
        r := client.Submit(AddRecord, table, variables, reply);
      }
      o := if missing then Rejected(MissingTable) else Settle(r);
    }

    /** `sendPageView`: move the navigation state, then compose and track. */
    method SendPageView(loc: Value, variables: Value, reply: Reply) returns (o: Outcome)
      requires Valid()
      modifies this, client
      ensures Valid()
      ensures !initialized ==>
        o == Rejected(Thrown(TypeError)) && isFirstPageView == old(isFirstPageView) && location == old(location)
      ensures initialized ==>
        !isFirstPageView && location == Some(NextLocations(old(location), loc, env.documentReferrer))
      ensures initialized ==>
        client.log == old(client.log) + AsSeq(Planned(config, PageViewTag, ComposeVariables(variables, Undefined, PageViewTag)))
      ensures initialized ==> o == Awaited(TrackOutcome(config, PageViewTag, reply))
    {
      if isFirstPageView {
        FirstPage(loc);
      } else {
        if location.None? {
          // an inert instance: `this.location` is undefined
          o := Rejected(Thrown(TypeError));
          return;
        }
        PageChanged(loc);
      }
      var composed := ComposeVariables(variables, Undefined, PageViewTag);
      var t := Track(PageViewTag, composed, reply);
      o := Awaited(t);
    }

    /** `sendEvent`: compose and track; the navigation state is not touched. */
    method SendEvent(variables: Value, eventName: Value, reply: Reply) returns (o: Outcome)
      requires Valid()
      modifies client
      ensures Valid() && isFirstPageView == old(isFirstPageView) && location == old(location)
      ensures !initialized ==> o == Rejected(Thrown(TypeError))
      ensures initialized ==>
        client.log == old(client.log) + AsSeq(Planned(config, EventTag, ComposeVariables(variables, eventName, EventTag)))
      ensures initialized ==> o == Awaited(TrackOutcome(config, EventTag, reply))
    {
      if !initialized {
        // an inert instance: `this.config` is undefined
        o := Rejected(Thrown(TypeError));
        return;
      }
      var composed := ComposeVariables(variables, eventName, EventTag);
      var t := Track(EventTag, composed, reply);
      o := Awaited(t);
    }
  }
}

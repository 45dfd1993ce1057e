# react-redux-analytics-td, modelled in Dafny

This project models the core of a Redux middleware that sends analytics to
Treasure Data. An analytics action (a page view, a custom event or a fallback
page view) is routed by the middleware to a wrapper around the Treasure Data
JavaScript SDK. The wrapper keeps the navigation state (current location and
referrer), composes a record, and either skips the submission (dry run) or
submits the record to the page-view or event table through the SDK's
`trackEvent` or `addRecord`.

Files, one per source file plus two supporting modules:

- `js.dfy` (module `Js`): the JavaScript value semantics the code relies on.
  This covers truthiness, `String(v)` (also how a value becomes a property
  key), the `+` operator, property reads, object spread and lodash `pickBy`.
- `default_config.dfy` (module `DefaultConfig`): the default configuration.
- `utils.dfy` (module `Utils`): the location normaliser.
- `filters.dfy` (module `Filters`): the variables filter and the action filter.
- `backend.dfy` (module `Backend`): the SDK client. It is an outside
  collaborator that records each `(method, table, record)` call. What its
  callbacks report is a parameter.
- `treasure.dfy` (module `TreasureWrapper`): configuration merge, navigation
  state, record composition, dispatch, and the stateful `Treasure` class.
- `middleware.dfy` (module `Middleware`): the routing decision and the
  stateful middleware that owns the wrapper.

The ambient browser inputs are parameters of type `Env`: `isBrowser`,
`window.location.protocol/hostname` and `document.referrer`.

Behaviour the model keeps as the code has it:

- A configuration key that is missing is converted to the property key
  `"undefined"`. The defaults define no `trackTypeKey`, so by default the
  type tag is written under `"undefined"`.
- The host override key is spelled `dispalyHostname`.
- A missing table rejects the track, but the SDK is still called.
- The variables-filter diagnostic fires when the spec is absent or falsy. A
  truthy spec that is neither a function nor an array is silently treated as
  "no filter".
- A truthy payload filter makes `filterAction` call the unbound name
  `filter`. That throws a ReferenceError, so the handler throws before
  reaching `next`.
- A null or undefined payload makes the handler throw a TypeError when it
  reads the payload's fields: `payload.location` for page views and fallback
  page views, `payload.eventName` for events. For page views and events this
  happens only after the action filter lets the action through.
- `sendPageView` and `sendEvent` resolve with `undefined`. Only `track`
  itself resolves with the dry-run marker `{dry: true}`.

The code's own messages promise more than its guards check, and the model
follows the guards. The variables-filter diagnostic asks for "function or
array" (src/filters.js:11), but its guard fires only for an absent or falsy
spec (src/filters.js:10). A missing table rejects with "Table name must be
supplied." (src/Treasure.js:126), but nothing returns after the rejection, so
the SDK is still called (src/Treasure.js:134-138).

## Model

| member | source | states |
|---|---|---|
| `DefaultConfig.DefaultSwitches` | src/default.config.js:2-11 | By default falsy suppression is on, the raw `addRecord` path is used, referrer and location are not sent and dry run is off. The two table names are the non-empty `'pageview'` and `'event'`. |
| `DefaultConfig.DefaultUrlFormatShape` | src/default.config.js:12-17 | The default `urlFormat` is a truthy object. It has no protocol or host override and shows both query and hash. |
| `DefaultConfig.NoDefaultTrackTypeKey` | src/default.config.js:1-22 | The defaults define no `trackTypeKey`. |
| `Utils.ComposeLocationString` | src/utils.js:4-21 | A falsy location gives null and a string is returned unchanged. Any other location gives a string that starts with the chosen protocol, `//` and the chosen host. A truthy configured protocol or host takes precedence over the `window.location` value. |
| `Utils.UrlObjectFormat` | src/utils.js:14-20 | For a URL object the result is exactly the prefix, then `pathname`, then `search` iff `showQuery` is truthy, then `hash` iff `showHash` is truthy. |
| `Utils.Prefix` | src/utils.js:14-15 | The prefix is the string of the chosen protocol (a truthy `displayProtocol`, else `window.location.protocol`), then `//`, then the chosen host (a truthy `dispalyHostname`, else `window.location.hostname`). |
| `Utils.Suffix` | src/utils.js:17-19 | For a URL object the suffix is `pathname`, then `search` iff `showQuery` is truthy, then `hash` iff `showHash` is truthy. |
| `Utils.HiddenQueryAndHashIgnored` | src/utils.js:17-20 | With query and hash hidden, the result depends on `pathname` only and is exactly prefix plus path. |
| `Filters.FilterWarns` | src/filters.js:10-12 | The diagnostic fires exactly when the spec is a falsy non-function, non-array value. |
| `Filters.FilterVariables` | src/filters.js:8-24 | With no function or array spec, the input is returned as is. Otherwise the result is a new object. For an object input, an entry is kept iff the predicate or the allow-list accepts it. The result is always a sub-map of an object input: no new keys and no changed values. |
| `Filters.AllowListKeepsListedKeys` | src/filters.js:15-16 | An allow-list keeps exactly the listed keys that the input has, with their original values. |
| `Filters.PredicateKeepsAccepted` | src/filters.js:13-14 | A predicate keeps an entry iff `spec(key, value)` is truthy, with the key as first argument. |
| `Filters.FilterAction` | src/filters.js:26-36 | With no payload filter every action passes. With one, the call throws a ReferenceError (unbound `filter`). |
| `Filters.FilterActionIgnoresPayload` | src/filters.js:30-35 | The action filter never depends on the payload and never answers false. |
| `Backend.TdClient.constructor` | src/Treasure.js:36-38 | The client is built from the `td` credentials with no submissions yet. |
| `Backend.TdClient.Submit` | src/Treasure.js:134-138 | Each SDK call appends `(method, table, record)` to the log and returns what the SDK reports. |
| `TreasureWrapper.MergeConfig` | src/Treasure.js:48-57 | Every user key other than `td` overrides the default. Keys the user omits keep their default, and unknown keys pass through. `td` is always an object whose user fields win and whose unspecified default fields survive. |
| `TreasureWrapper.MergeEmptyIsIdentity` | src/Treasure.js:48-57 | Merging an empty configuration returns the defaults unchanged when their `td` entry is an object. |
| `TreasureWrapper.MergeEmptyGivesDefaults` | src/Treasure.js:32 | Merging the shipped defaults with `{}` gives exactly the defaults. |
| `TreasureWrapper.DefaultCredentialsSurvive` | src/Treasure.js:52-55 | A default credential that the user's `td` omits (such as the placeholder database name) survives the merge. |
| `TreasureWrapper.UnsetKeyKeepsDefault` | src/Treasure.js:49-51 | A top-level key the user omits reads as its default after the merge. |
| `TreasureWrapper.UserKeyWins` | src/Treasure.js:50-51 | A top-level key the user sets, other than `td`, reads as the user's value after the merge. |
| `TreasureWrapper.FirstPageLocations` | src/Treasure.js:60-67 | The first page's current location is the given one, and its referrer is the document referrer. |
| `TreasureWrapper.PageChangedLocations` | src/Treasure.js:70-74 | The referrer becomes the old current. Current becomes the location if it is truthy and stays otherwise, so a truthy current never turns falsy. |
| `TreasureWrapper.NextLocations` | src/Treasure.js:91-96 | With no navigation state yet, a page view takes the `firstPage` result. Otherwise it takes the `pageChanged` result. |
| `TreasureWrapper.PageViewsAfterFirst` | src/Treasure.js:91-96 | Once navigation state exists, every page view takes the `pageChanged` path. |
| `TreasureWrapper.FirstPageExactlyOnce` | src/Treasure.js:60-67 | From the initial state, the first page view takes `firstPage` (current = location, referrer = document referrer) and all later ones take `pageChanged`. |
| `TreasureWrapper.ReferrerIsPreviousCurrent` | src/Treasure.js:70-74 | After any run of page changes, the referrer equals the current location just before the last change. |
| `TreasureWrapper.MissingLocationsKeepCurrent` | src/Treasure.js:72-73 | Page changes without a location keep current fixed and make referrer equal to current. |
| `TreasureWrapper.ComposeLocation` | src/Treasure.js:43-44 | With a truthy `urlFormat`, locations go through the normaliser with that format. Otherwise they pass unchanged. Either way a falsy location stays falsy and a non-empty string passes unchanged. |
| `TreasureWrapper.Enrich` | src/Treasure.js:154-167 | The composed map has the input's keys plus the injected ones. These are the type tag, referrer and location (page views with the switch on, each normalised) and the event name (when truthy). A later write wins on a key collision. Input keys not overwritten keep their values. |
| `TreasureWrapper.DropFalsy` | src/Treasure.js:168 | Every remaining value is truthy and unchanged, and every truthy entry is kept. |
| `TreasureWrapper.Compose` | src/Treasure.js:154-169 | With `sendFalsyValues` set, the composed map is returned as is. Otherwise no value is falsy and every truthy composed entry is kept. The result is always a sub-map of the composed map. |
| `TreasureWrapper.TableName` | src/Treasure.js:143-151 | Page views read `pageViewTable`, events read `eventTable`, and every other type gets null. A truthy table therefore implies one of the two track types. |
| `TreasureWrapper.Planned` | src/Treasure.js:118-138 | Dry run makes no SDK call. Otherwise exactly one call is made, to the resolved table with the composed record, through `trackEvent` iff `sendTdValues`. |
| `TreasureWrapper.TrackOutcome` | src/Treasure.js:118-139 | Dry run resolves `{dry: true}`. A falsy table rejects. Otherwise the outcome follows the SDK. Success resolves with the SDK's result, an error rejects with the SDK's error, and no callback leaves it pending. |
| `TreasureWrapper.Awaited` | src/Treasure.js:98-104 | `sendPageView` and `sendEvent` resolve with `undefined` once `track` resolves. They rethrow exactly the rejection reason of `track`, and stay pending while it does. |
| `TreasureWrapper.MissingTableStillSubmits` | src/Treasure.js:124-138 | A falsy table rejects the track, yet the SDK is still called with that table. |
| `TreasureWrapper.UnknownTypeRejected` | src/Treasure.js:143-151 | A type other than page view or event gets a null table, so the track is rejected outside dry run. |
| `TreasureWrapper.DefaultTablesResolve` | src/Treasure.js:143-151 | Under the default table names, page views go to `'pageview'`, events to `'event'` and any other type to null. |
| `TreasureWrapper.DefaultDispatch` | src/default.config.js:4-11 | Under the default switches, a track is an `addRecord` submission, falsy values are dropped and neither referrer nor location is added. |
| `TreasureWrapper.DefaultLocationIsNormalised` | src/Treasure.js:43-44 | Under the default `urlFormat`, the chosen `composeLocation` is the normaliser with the default format, not the identity. |
| `TreasureWrapper.TypeKeyFromUserOnly` | src/Treasure.js:156 | The type-tag key comes only from the user's configuration. Without one it is `"undefined"`. |
| `TreasureWrapper.DefaultKeys` | src/default.config.js:1-22 | A configuration that sets none of `trackTypeKey`, `eventNameKey` and `sendFalsyValues` gets the type key `"undefined"`, the event-name key `"event"` and falsy suppression. |
| `TreasureWrapper.EventRecordFields` | src/Treasure.js:165-167 | When the event name is truthy and the event-name key differs from the type key, the event record carries the name under the event-name key and the event tag under the type key. |
| `TreasureWrapper.PageViewRecordFields` | src/Treasure.js:157-164 | Suppose both switches are on, the type, referrer and location keys are pairwise distinct, and both normalised locations are truthy. Then the page-view record carries the normalised referrer, the normalised location and the page-view tag. |
| `TreasureWrapper.DirectVisitDropsReferrer` | src/Treasure.js:158-160 | Take a first page view with an empty `document.referrer` (a direct visit) under falsy suppression with the referrer switched on. The record has no referrer key, unless the location key coincides with it. The empty referrer normalises to a falsy value (src/utils.js:5-7) and is dropped (src/Treasure.js:168). |
| `TreasureWrapper.UntouchedVariableKeptIffTruthy` | src/Treasure.js:155-168 | Under falsy suppression, a variable that composition does not overwrite reaches the record iff its value is truthy, and then unchanged. |
| `TreasureWrapper.FalsySuppressionExample` | src/Treasure.js:168 | Under any falsy-suppressing configuration whose type key is not `a`, `b` or `c`, the event variables `{a: 0, b: "x", c: false}` compose to a record without `a` and `c` and with `b: "x"`. |
| `TreasureWrapper.FalsySuppressionScenario` | src/Treasure.js:168 | The same holds for every user configuration that leaves the type key, event-name key and falsy switch at their defaults. |
| `TreasureWrapper.EventScenario` | src/Treasure.js:165-166 | An event `"click"` under the defaults carries `event: "click"` and the tag under `"undefined"`. |
| `TreasureWrapper.SwitchedOnKeys` | src/Treasure.js:48-57 | A configuration that switches referrer and location on and sets the type key to `"type"`, but keeps the default key names, merges to those switches and the keys `"type"`, `"referrer"` and `"location"`. |
| `TreasureWrapper.StringLocationsKept` | src/Treasure.js:43-44 | Under the default location format, a non-empty string location passes unchanged. |
| `TreasureWrapper.FirstPageScenario` | src/Treasure.js:158-163 | Under such a configuration (default location format), take a first page view of `"/home"` with a non-empty `document.referrer`. The record carries that referrer under `"referrer"`, `"/home"` under `"location"` and the page-view tag under `"type"`. With an empty referrer, see `DirectVisitDropsReferrer`. |
| `TreasureWrapper.Treasure.constructor` | src/Treasure.js:21-45 | Outside a browser the instance is inert. Otherwise it starts at the first page with the merged configuration and a fresh client built from the merged `td`. |
| `TreasureWrapper.Treasure.FirstPage` | src/Treasure.js:60-67 | Sets current to the location and referrer to the document referrer, then clears `isFirstPageView`. |
| `TreasureWrapper.Treasure.PageChanged` | src/Treasure.js:70-74 | The referrer becomes the old current. The location replaces current only when truthy. |
| `TreasureWrapper.Treasure.Track` | src/Treasure.js:118-140 | The client log grows by the planned call (none in dry run), and the outcome is `TrackOutcome`. |
| `TreasureWrapper.Treasure.SendPageView` | src/Treasure.js:91-105 | Navigation state moves before dispatch, even in dry run: `firstPage` the first time, `pageChanged` after. Then the composed page-view record is tracked and the outcome is awaited. An inert instance rejects with a TypeError. |
| `TreasureWrapper.Treasure.SendEvent` | src/Treasure.js:107-116 | Navigation state is never changed. The composed event record is tracked and the outcome is awaited. An inert instance rejects with a TypeError. |
| `Middleware.Route` | src/treasureMiddleware.js:35-57 | A page view or event calls the wrapper iff its own filter is absent and the payload is readable. The call carries the payload's location or event name and the filtered variables. A configured filter throws a ReferenceError. A fallback page view always calls `sendPageView` with no gate, and its variables are the filtered ones with `fallbackPageView: true` overriding. Other types call nothing. |
| `Middleware.RouteUsesOwnFilter` | src/treasureMiddleware.js:38-54 | Page views consult only the page-view filter, events only the event filter, and fallback page views neither. |
| `Middleware.AnalyticsMiddleware.constructor` | src/treasureMiddleware.js:12-33 | Outside a browser no wrapper is created. Otherwise one is created over the merged configuration. |
| `Middleware.AnalyticsMiddleware.Handle` | src/treasureMiddleware.js:20-59 | Outside a browser the action is only forwarded. Otherwise, when routing does not throw, the action is forwarded to `next` exactly once and unchanged, `next`'s result is returned, and the wrapper state moves as the routed call prescribes. When routing throws, nothing is forwarded and nothing changes. |

## Left out

- Logging: the `debug`/`error` calls, `debugLogConfig`, the payload-filter diagnostic and the catch-log-rethrow in `sendPageView`/`sendEvent`. These are diagnostics only. Whether the variables-filter diagnostic fires is modelled by `FilterWarns`.
- The td-js-sdk library and its network calls. They are a foreign library, modelled as a client that records each call. Its callback result is a parameter.
- Promise timing: outcomes are values (`Resolved`, `Rejected`, `Pending`). The middleware does not await the wrapper, so the order in which those promises settle is not modelled. Neither is an unhandled rejection.
- `window._treasure` debug exposure in the middleware, which is a debugging aid.
- The Redux currying `store => next => action`. Only the action handler is modelled, with `next` as a function parameter.
- The curried forms of `composeLocationString`, `filterVariables` and `filterAction` are modelled uncurried. The setup argument and the closure argument are given together.
- `window.location` is read when the wrapper is constructed and then treated as fixed. The source reads it on each call, but it does not change within a single-page application.
- JavaScript numbers are integers here: no fractions and no infinities. Arrays and functions are not modelled as data values (only as filter specifications). Object key order is not modelled (maps are unordered).
- Spreading or `pickBy`-ing a string would yield its characters under index keys. The model treats strings like the other primitives, as having no entries.
- Property reads do not see inherited prototype members such as `toString`.
- `mergeConfig` with a `null` user configuration throws when reading `null.td`. Here the user configuration is always a map, with `{}` standing for "none given".
- The action-type strings of react-redux-analytics and the track-type constants (src/const.js) are not part of this model. The action types are a datatype. The track types are distinct non-empty stand-in strings.
- wallaby.js is test-runner configuration with no logic.

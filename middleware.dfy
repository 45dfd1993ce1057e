/** The Redux middleware (src/treasureMiddleware.js): it routes the three
    analytics action types to the Treasure wrapper and forwards every action
    to the next middleware. The Redux currying `store => next => action` is
    reduced to the action handler, with `next` as a parameter. */
module Middleware {
  import opened Js
  import opened Filters
  import opened Backend
  import opened TreasureWrapper
  import DefaultConfig

  /** The action types of the analytics library: page view, event, fallback
      page view, and anything else. */
  datatype ActionType = SendPageView | SendEvent | FallbackPageView | OtherType(tag: Value)

  /** A Redux action `{type, payload}`. */
  datatype Action = Action(actionType: ActionType, payload: Value)

  /** The call the handler makes on the wrapper. */
  datatype TreasureCall =
    | PageViewCall(location: Value, variables: Value)
    | EventCall(eventName: Value, variables: Value)

  /** The key the fallback page view adds to its variables. */
  const FallbackKey: string := "fallbackPageView"

  /** The routing decision of the handler's switch: which wrapper call it
      makes, or the exception it throws before reaching `next`. */
  function Route(action: Action, variablesFilter: Spec, pageViewFilter: Spec, eventFilter: Spec)
    : (r: Result<Option<TreasureCall>>)
    ensures action.actionType.OtherType? ==> r == Ok(None)
    ensures action.actionType == SendPageView ==>
      (r.Ok? <==> !SpecTruthy(pageViewFilter) && !Nullish(action.payload))
      && (r.Ok? ==> r.value == Some(PageViewCall(Prop(action.payload, "location"),
                                                 FilterVariables(variablesFilter, Prop(action.payload, "variables")))))
      && (SpecTruthy(pageViewFilter) ==> r == Throw(ReferenceError))
    ensures action.actionType == SendEvent ==>
      (r.Ok? <==> !SpecTruthy(eventFilter) && !Nullish(action.payload))
      && (r.Ok? ==> r.value == Some(EventCall(Prop(action.payload, "eventName"),
                                              FilterVariables(variablesFilter, Prop(action.payload, "variables")))))
      && (SpecTruthy(eventFilter) ==> r == Throw(ReferenceError))
    ensures action.actionType == FallbackPageView ==>
      (r.Ok? <==> !Nullish(action.payload))
      && (r.Ok? ==>
            && r.value.Some? && r.value.value.PageViewCall?
            && r.value.value.location == Prop(action.payload, "location")
            && r.value.value.variables.Obj?
            && r.value.value.variables.fields.Keys
               == Spread(FilterVariables(variablesFilter, Prop(action.payload, "variables"))).Keys + {FallbackKey}
            && r.value.value.variables.fields[FallbackKey] == Bool(true)
            && forall k :: k in Spread(FilterVariables(variablesFilter, Prop(action.payload, "variables"))) && k != FallbackKey
                 ==> r.value.value.variables.fields[k]
                     == Spread(FilterVariables(variablesFilter, Prop(action.payload, "variables")))[k])
    ensures r.Throw? ==> r.error == (if Nullish(action.payload) && !(action.actionType == SendPageView && SpecTruthy(pageViewFilter))
                                        && !(action.actionType == SendEvent && SpecTruthy(eventFilter))
                                     then TypeError else ReferenceError)
  {
    match action.actionType
    case SendPageView =>
      (match FilterAction(pageViewFilter, action.payload)
       case Throw(e) => Throw(e)
       case Ok(pass) =>
         if !pass then Ok(None)
         else if Nullish(action.payload) then Throw(TypeError)
         else Ok(Some(PageViewCall(Prop(action.payload, "location"),
                                  FilterVariables(variablesFilter, Prop(action.payload, "variables"))))))
    case SendEvent =>
      (match FilterAction(eventFilter, action.payload)
       case Throw(e) => Throw(e)
       case Ok(pass) =>
         if !pass then Ok(None)
         else if Nullish(action.payload) then Throw(TypeError)
         else Ok(Some(EventCall(Prop(action.payload, "eventName"),
                               FilterVariables(variablesFilter, Prop(action.payload, "variables"))))))
    case FallbackPageView =>
      if Nullish(action.payload) then Throw(TypeError)
      else
        var filtered := FilterVariables(variablesFilter, Prop(action.payload, "variables"));
        Ok(Some(PageViewCall(Prop(action.payload, "location"), Obj(Spread(filtered)[FallbackKey := Bool(true)]))))
    case OtherType(_) => Ok(None)
  }

  /** Each kind of action consults only its own filter: page views never look
      at the event filter, events never at the page-view filter, and fallback
      page views at neither. */
  lemma RouteUsesOwnFilter(action: Action, variablesFilter: Spec, pv1: Spec, pv2: Spec, ev1: Spec, ev2: Spec)
    ensures action.actionType == SendPageView ==>
      Route(action, variablesFilter, pv1, ev1) == Route(action, variablesFilter, pv1, ev2)
    ensures action.actionType == SendEvent ==>
      Route(action, variablesFilter, pv1, ev1) == Route(action, variablesFilter, pv2, ev1)
    ensures action.actionType == FallbackPageView || action.actionType.OtherType? ==>
      Route(action, variablesFilter, pv1, ev1) == Route(action, variablesFilter, pv2, ev2)
  {
  }

  class AnalyticsMiddleware {
    /** The wrapper instance; none outside a browser. */
    const td: Treasure?
    const variablesFilter: Spec
    const pageViewFilter: Spec
    const eventFilter: Spec
    /** The actions handed to `next`, oldest first. */
    var forwarded: seq<Action>

    ghost predicate Valid()
      reads this, td
    {
      td != null ==> td.Valid() && td.initialized
    }

    /** The middleware factory: outside a browser no wrapper is created. */
    constructor (config: map<string, Value>, variablesFilter: Spec, pageViewFilter: Spec, eventFilter: Spec, env: Env)
      ensures Valid() && forwarded == []
      ensures this.variablesFilter == variablesFilter && this.pageViewFilter == pageViewFilter
      ensures this.eventFilter == eventFilter
      ensures td != null <==> env.inBrowser
      ensures td != null ==>
        fresh(td) && fresh(td.client) && td.env == env && td.isFirstPageView
        && td.config == MergeConfig(DefaultConfig.Defaults, config) && td.client.log == []
    {
      if env.inBrowser {
        td := new Treasure(config, env);
      } else {
        td := null;
      }
      this.variablesFilter := variablesFilter;
      this.pageViewFilter := pageViewFilter;
      this.eventFilter := eventFilter;
      forwarded := [];
    }

    /** The routing this middleware applies. */
    function Routing(action: Action): Result<Option<TreasureCall>> {
      Route(action, variablesFilter, pageViewFilter, eventFilter)
    }

    /** The action handler. The wrapper's promise is not awaited, so its
        outcome never reaches the caller; `reply` is what the SDK reports. */
    method Handle(action: Action, next: Action -> Value, reply: Reply) returns (r: Result<Value>)
      requires Valid()
      modifies this, td, (if td != null then {td.client} else {})
      ensures Valid()
      ensures td == null ==> r == Ok(next(action)) && forwarded == old(forwarded) + [action]
      ensures td != null && Routing(action).Throw? ==>
        r == Throw(Routing(action).error) && forwarded == old(forwarded)
      ensures td != null && Routing(action).Ok? ==>
        r == Ok(next(action)) && forwarded == old(forwarded) + [action]
      ensures td != null && (Routing(action).Throw? || Routing(action) == Ok(None)) ==>
        td.isFirstPageView == old(td.isFirstPageView) && td.location == old(td.location)
        && td.client.log == old(td.client.log)
      ensures td != null && Routing(action).Ok? && Routing(action).value.Some?
              && Routing(action).value.value.PageViewCall? ==>
        var call := Routing(action).value.value;
        && !td.isFirstPageView
        && td.location == Some(NextLocations(old(td.location), call.location, td.env.documentReferrer))
        && td.client.log == old(td.client.log)
             + AsSeq(Planned(td.config, PageViewTag, td.ComposeVariables(call.variables, Undefined, PageViewTag)))
      ensures td != null && Routing(action).Ok? && Routing(action).value.Some?
              && Routing(action).value.value.EventCall? ==>
        var call := Routing(action).value.value;
        && td.isFirstPageView == old(td.isFirstPageView) && td.location == old(td.location)
        && td.client.log == old(td.client.log)
             + AsSeq(Planned(td.config, EventTag, td.ComposeVariables(call.variables, call.eventName, EventTag)))
    {
      if td == null {
        // outside a browser the handler only forwards (after logging an error)
        forwarded := forwarded + [action];
        r := Ok(next(action));
        return;
      }
      var payload := action.payload;
      match action.actionType {
        case SendPageView =>
          var pass := FilterAction(pageViewFilter, payload);
          if pass.Throw? {
            r := Throw(pass.error);
            return;
          }
          if pass.value {
            if Nullish(payload) {
              r := Throw(TypeError);
              return;
            }
            var variables := FilterVariables(variablesFilter, Prop(payload, "variables"));
            var _ := td.SendPageView(Prop(payload, "location"), variables, reply);
          }
        case SendEvent =>
          var pass := FilterAction(eventFilter, payload);
          if pass.Throw? {
            r := Throw(pass.error);
            return;
          }
          if pass.value {
            if Nullish(payload) {
              r := Throw(TypeError);
              return;
            }
            var variables := FilterVariables(variablesFilter, Prop(payload, "variables"));
            var _ := td.SendEvent(variables, Prop(payload, "eventName"), reply);
          }
        case FallbackPageView =>
          if Nullish(payload) {
            r := Throw(TypeError);
            return;
          }
          var filtered := FilterVariables(variablesFilter, Prop(payload, "variables"));
          var _ := td.SendPageView(Prop(payload, "location"), Obj(Spread(filtered)[FallbackKey := Bool(true)]), reply);
        case OtherType(_) =>
      }
      forwarded := forwarded + [action];
      r := Ok(next(action));
    }
  }
}

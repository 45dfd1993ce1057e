/** The location normaliser `composeLocationString` (src/utils.js). The source
    is curried, `composeLocationString(urlFormat)(location)`; here both
    arguments are given at once, and the ambient `window.location` values it
    falls back on are a parameter. */
module Utils {
  import opened Js

  /** `window.location.protocol` and `window.location.hostname`. */
  datatype WindowLocation = WindowLocation(protocol: string, hostname: string)

  /** The protocol written in front of "//": the configured override when it
      is truthy, else the page's own protocol. */
  function ChosenProtocol(urlFormat: Value, win: WindowLocation): string {
    var p := Prop(urlFormat, "displayProtocol");
    ToStr(if Truthy(p) then p else Str(win.protocol))
  }

  /** The host written after "//" (override key spelled `dispalyHostname`). */
  function ChosenHostname(urlFormat: Value, win: WindowLocation): string {
    var h := Prop(urlFormat, "dispalyHostname");
    ToStr(if Truthy(h) then h else Str(win.hostname))
  }

  /** A location object whose path, query and hash are strings, as the
      history library produces them. */
  predicate IsUrlObject(location: Value) {
    location.Obj?
    && Prop(location, "pathname").Str?
    && Prop(location, "search").Str?
    && Prop(location, "hash").Str?
  }

  /** The string form of a location: falsy gives null, a string is kept, and
      any other value is read as an object with `pathname`, `search` and `hash`.
      `urlFormat` may be undefined (it then defaults to `{}`) but not null,
      whose destructuring throws. */
  function ComposeLocationString(urlFormat: Value, win: WindowLocation, location: Value): (r: Value)
    requires urlFormat != Null
    ensures Falsy(location) ==> r == Null
    ensures Truthy(location) && location.Str? ==> r == location
    ensures Truthy(location) && !location.Str? ==>
      r.Str? && ChosenProtocol(urlFormat, win) + "//" + ChosenHostname(urlFormat, win) <= r.s
  {
    if Falsy(location) then
      Null
    else if location.Str? then
      location
    else
      Plus(Prefix(urlFormat, win), Suffix(urlFormat, location))
  }

  /** `(displayProtocol || protocol) + '//' + (dispalyHostname || hostname)`. */
  function Prefix(urlFormat: Value, win: WindowLocation): (r: Value)
    ensures r == Str(ChosenProtocol(urlFormat, win) + "//" + ChosenHostname(urlFormat, win))
  {
    var displayProtocol := Prop(urlFormat, "displayProtocol");
    var displayHostname := Prop(urlFormat, "dispalyHostname");
    Plus(Plus(if Truthy(displayProtocol) then displayProtocol else Str(win.protocol), Str("//")),
         if Truthy(displayHostname) then displayHostname else Str(win.hostname))
  }

  /** `pathname`, then `+= search` when shown, then `+= hash` when shown. */
  function Suffix(urlFormat: Value, location: Value): (r: Value)
    ensures IsUrlObject(location) ==>
      r == Str(Prop(location, "pathname").s
               + (if Truthy(Prop(urlFormat, "showQuery")) then Prop(location, "search").s else "")
               + (if Truthy(Prop(urlFormat, "showHash")) then Prop(location, "hash").s else ""))
  {
    var suffix := Prop(location, "pathname");
    var suffix := Plus(suffix, if Truthy(Prop(urlFormat, "showQuery")) then Prop(location, "search") else Str(""));
    Plus(suffix, if Truthy(Prop(urlFormat, "showHash")) then Prop(location, "hash") else Str(""))
  }

  /** For a location object the result is exactly the prefix, the path, the
      query when `showQuery` is truthy and the hash when `showHash` is truthy. */
  lemma UrlObjectFormat(urlFormat: Value, win: WindowLocation, location: Value)
    requires urlFormat != Null && IsUrlObject(location)
    ensures ComposeLocationString(urlFormat, win, location)
      == Str(ChosenProtocol(urlFormat, win) + "//" + ChosenHostname(urlFormat, win)
             + Prop(location, "pathname").s
             + (if Truthy(Prop(urlFormat, "showQuery")) then Prop(location, "search").s else "")
             + (if Truthy(Prop(urlFormat, "showHash")) then Prop(location, "hash").s else ""))
  {
    var prefix := ChosenProtocol(urlFormat, win) + "//" + ChosenHostname(urlFormat, win);
    var suffix := Suffix(urlFormat, location);
    assert suffix.Str?;
    JoinedString(prefix, suffix.s);
    ConcatAssociates(prefix, Prop(location, "pathname").s,
      if Truthy(Prop(urlFormat, "showQuery")) then Prop(location, "search").s else "",
      if Truthy(Prop(urlFormat, "showHash")) then Prop(location, "hash").s else "");
  }

  /** With query and hash both hidden, only the path matters: two location
      objects with the same `pathname` give the same string, whatever their
      `search` and `hash`. */
  lemma HiddenQueryAndHashIgnored(urlFormat: Value, win: WindowLocation, a: Value, b: Value)
    requires urlFormat != Null
    requires Falsy(Prop(urlFormat, "showQuery")) && Falsy(Prop(urlFormat, "showHash"))
    requires a.Obj? && b.Obj? && Prop(a, "pathname") == Prop(b, "pathname")
    ensures ComposeLocationString(urlFormat, win, a) == ComposeLocationString(urlFormat, win, b)
    ensures IsUrlObject(a) ==>
      ComposeLocationString(urlFormat, win, a)
        == Str(ChosenProtocol(urlFormat, win) + "//" + ChosenHostname(urlFormat, win) + Prop(a, "pathname").s)
  {
    if IsUrlObject(a) {
      UrlObjectFormat(urlFormat, win, a);
    }
  }

  /** Regrouping the concatenation of four strings. */
  lemma ConcatAssociates(a: string, b: string, c: string, d: string)
    ensures a + (b + c + d) == a + b + c + d
  {
  }

  /** `+` on two strings concatenates them. */
  lemma JoinedString(a: string, b: string)
    ensures Plus(Str(a), Str(b)) == Str(a + b)
  {
  }
}

/** The marker factory `_getMarker` and the redraw loop `_redraw`: one
    marker per record that survives the theme and the user's
    `markerOptions`, styled by the theme with the user's options on top,
    with a popup and a tooltip bound when their content is non-empty. */
module Markers {
  import opened Wrappers
  import opened JsValues
  import opened DeepMerge
  import opened Records
  import opened Themes

  type Options = map<string, JsValue>

  /** What the browser and the user's callbacks supply. `call(name, p)` is
      the result of the user function `Fn(name)` applied to a record's
      properties; the two default-content functions are the text of the
      built-in popup and tooltip templates where these do not throw (when
      they throw is `PopupDescriptions` and `TooltipThrows` below). */
  datatype Host = Host(
    mobile: bool,
    defaultPopup: Record -> string,
    defaultTooltip: Record -> string,
    call: (string, Record) -> JsValue)

  /** `a || b` and `a && b` on JavaScript values. */
  function Or(a: JsValue, b: JsValue): (r: JsValue)
    ensures Truthy(r) <==> Truthy(a) || Truthy(b)
  {
    if Truthy(a) then a else b
  }

  function And(a: JsValue, b: JsValue): (r: JsValue)
    ensures Truthy(r) <==> Truthy(a) && Truthy(b)
  {
    if Truthy(a) then b else a
  }

  /** The theme step of `_getMarker`. */
  datatype Themed =
    | Unthemed                        // `type` or `theme` is falsy
    | ThemeStyle(style: Options)
    | ThemeFilteredOut                // the theme returned `false`
    | ThemeInvalid                    // the theme lookup threw

  /** The themed style: the theme's colours plus the type's shape and the
      fixed radius, weight and fill opacity. */
  function StyleOf(c: Colors, shape: string): (r: Options)
    ensures r.Keys == {"color", "fillColor", "shape", "radius", "weight", "fillOpacity"}
    ensures r["color"].Str? && r["fillColor"].Str? && Colors(r["color"].s, r["fillColor"].s) == c
    ensures r["shape"] == Str(shape) && InitialRadius(r) == Num(6.0)
  {
    map["color" := Str(c.color), "fillColor" := Str(c.fillColor), "shape" := Str(shape),
        "radius" := Num(6.0), "weight" := Num(2.0), "fillOpacity" := Num(1.0)]
  }

  /** `_themeColors[type][theme](properties)` under the `try` of
      `_getMarker`. A type or theme that is not a string names no entry and
      throws. */
  function Theme(typ: JsValue, theme: JsValue, p: Record): (t: Themed)
    ensures t.Unthemed? <==> !(Truthy(typ) && Truthy(theme))
    ensures t.ThemeInvalid? <==>
      Truthy(typ) && Truthy(theme) && !(typ.Str? && theme.Str? && !Resolve(typ.s, theme.s, p).Throws?)
    ensures t.ThemeStyle? ==>
      && typ.Str? && Resolve(typ.s, theme.s, p).Styled? && typ.s in ThemeShapes
      && t.style == StyleOf(Resolve(typ.s, theme.s, p).colors, ThemeShapes[typ.s])
  {
    if !(Truthy(typ) && Truthy(theme)) then Unthemed
    else if typ.Str? && theme.Str? then
      match Resolve(typ.s, theme.s, p)
      case Filtered => ThemeFilteredOut
      case Throws => ThemeInvalid
      case Styled(c) =>
        assert IsTheme(typ.s, theme.s);
        EveryThemedTypeHasAShape(typ.s, theme.s);
        ThemeStyle(StyleOf(c, ThemeShapes[typ.s]))
    else ThemeInvalid
  }

  /** The user's marker options for a record: `options.markerOptions || {}`,
      called on the record when it is a function. Only a function can
      filter a record out, and without one the properties merged over the
      theme are those of `markerOptions` itself. */
  function UserMarkerOptions(opts: Options, p: Record, host: Host): (r: JsValue)
    ensures var m := Get(opts, "markerOptions");
      && (!Truthy(m) ==> r == Obj(map[]))
      && (Truthy(m) && !m.Fn? ==> r == m)
      && (m.Fn? ==> r == host.call(m.name, p))
    ensures var m := Get(opts, "markerOptions");
      && (!Truthy(r) <==> m.Fn? && !Truthy(host.call(m.name, p)))
      && (!m.Fn? ==> OwnProps(r) == OwnProps(m))
  {
    var given := if Truthy(Get(opts, "markerOptions")) then Get(opts, "markerOptions") else Obj(map[]);
    if given.Fn? then host.call(given.name, p) else given
  }

  /** The options a marker is created with: the user's options merged over
      the themed style, then `interactive` set. */
  function MarkerStyle(themed: Options, user: JsValue, interactive: JsValue): (s: Options)
    ensures s.Keys == themed.Keys + OwnProps(user).Keys + {"interactive"}
    ensures forall k :: k in OwnProps(user) && k != "interactive" && !OwnProps(user)[k].Obj? ==> s[k] == OwnProps(user)[k]
    ensures forall k :: k in themed && k !in OwnProps(user) && k != "interactive" ==> s[k] == themed[k]
    ensures s["interactive"] == interactive
  {
    MergeOntoObject(themed, user);
    Merge([Obj(themed), user])["interactive" := interactive]
  }

  datatype Binding = Binding(content: JsValue, options: JsValue)

  /** A popup or tooltip: none when the setting is falsy; otherwise the
      custom or built-in content, bound only when it is truthy. */
  function Bind(setting: JsValue, builtIn: Record -> string, p: Record, host: Host, bindOptions: JsValue): (b: Option<Binding>)
    ensures b.Some? ==> Truthy(setting) && Truthy(b.value.content) && b.value.options == bindOptions
    ensures !setting.Fn? && Truthy(setting) ==> (b.Some? <==> builtIn(p) != "")
  {
    if !Truthy(setting) then None
    else
      var content := if setting.Fn? then host.call(setting.name, p) else Str(builtIn(p));
      if Truthy(content) then Some(Binding(content, bindOptions)) else None
  }

  /** A marker: position, Leaflet path options, radius in pixels and the
      bound popup and tooltip. */
  datatype Marker = Marker(
    latitude: real,
    longitude: real,
    style: Options,
    radius: JsValue,
    popup: Option<Binding>,
    tooltip: Option<Binding>)

  /** `L.cwis.Marker` takes its radius from its options, 10 by default. */
  function InitialRadius(style: Options): JsValue {
    if "radius" in style then style["radius"] else Num(10.0)
  }

  //--------------------------------------------------------------------
  // Built-in popup and tooltip templates
  //--------------------------------------------------------------------

  /** Well-level parameter codes, whose statistic status the popup leaves
      out. */
  const WellParameterCodes: set<string> := {"62610", "62611", "72019", "72150", "72229"}

  /** The popup describes the statistic status of a record that has a code,
      unless the record is a well level. */
  predicate DescribesStatus(p: Record) {
    p.statisticStatusCode.Some? && p.parameterCode !in WellParameterCodes
  }

  /** The popup describes the flood stage when its code starts with `>`. */
  predicate DescribesFlood(p: Record) {
    p.floodStageStatusCode.Some? && |p.floodStageStatusCode.value| > 0 && p.floodStageStatusCode.value[0] == '>'
  }

  /** The `description` strings `_getPopupContent` shows, the statistic
      status before the flood stage; `None` when a code it looks up has no
      table entry, where reading `description` of `undefined` throws. */
  function PopupDescriptions(p: Record): (r: Option<seq<string>>)
    ensures r.None? <==>
      || (DescribesStatus(p) && p.statisticStatusCode.value !in StatusInfo)
      || (DescribesFlood(p) && p.floodStageStatusCode.value !in FloodInfo)
    ensures r.Some? ==> |r.value| == (if DescribesStatus(p) then 1 else 0) + (if DescribesFlood(p) then 1 else 0)
    ensures r.Some? && DescribesStatus(p) ==> r.value[0] == StatusInfo[p.statisticStatusCode.value].description
    ensures r.Some? && DescribesFlood(p) ==> r.value[|r.value| - 1] == FloodInfo[p.floodStageStatusCode.value].description
  {
    if DescribesStatus(p) && p.statisticStatusCode.value !in StatusInfo then None
    else if DescribesFlood(p) && p.floodStageStatusCode.value !in FloodInfo then None
    else
      Some((if DescribesStatus(p) then [StatusInfo[p.statisticStatusCode.value].description] else [])
         + (if DescribesFlood(p) then [FloodInfo[p.floodStageStatusCode.value].description] else []))
  }

  /** `_getTooltipContent` calls `Value.toLocaleString()`, which throws on a
      null value. */
  predicate TooltipThrows(p: Record) {
    p.value.None?
  }

  /** A popup or tooltip setting that selects the built-in template. */
  predicate BuiltIn(setting: JsValue) {
    Truthy(setting) && !setting.Fn?
  }

  //--------------------------------------------------------------------
  // The marker factory
  //--------------------------------------------------------------------

  datatype Skip = ThemeRejected | InvalidTypeOrTheme | UserRejected

  /** Why `_getMarker` threw once the record had passed the theme and the
      user's marker options. */
  datatype Crash =
    | NoTooltipOptions   // writing `interactive` into a null or undefined `tooltipOptions`
    | PopupTemplate      // the built-in popup read `description` of a missing table entry
    | TooltipTemplate    // the built-in tooltip read a method of a null `Value`

  datatype MarkerOutcome =
    | Placed(marker: Marker, tooltipOptions: JsValue)
    | Skipped(reason: Skip)
    | Crashed(cause: Crash, tooltipOptions: JsValue)

  /** The throws of `_getMarker` after the filters, in the order the
      factory meets them: the `tooltipOptions` write, the built-in popup,
      then the built-in tooltip (not on mobile devices). */
  predicate FactoryThrows(opts: Options, p: Record, host: Host) {
    var tip := Get(opts, "tooltipOptions");
    || tip.Null? || tip.Undefined?
    || (BuiltIn(Get(opts, "popup")) && PopupDescriptions(p).None?)
    || (BuiltIn(Get(opts, "tooltip")) && !host.mobile && TooltipThrows(p))
  }

  /** `_getMarker(options, properties)`. A placed marker, and a factory
      that threw after the `interactive` write, also report the value of
      `options.tooltipOptions` after that write. */
  function GetMarker(opts: Options, p: Record, host: Host): (r: MarkerOutcome)
    ensures r.Skipped? && r.reason == ThemeRejected <==> Theme(Get(opts, "type"), Get(opts, "theme"), p).ThemeFilteredOut?
    ensures r.Skipped? && r.reason == InvalidTypeOrTheme <==> Theme(Get(opts, "type"), Get(opts, "theme"), p).ThemeInvalid?
    ensures r.Skipped? && r.reason == UserRejected <==>
      var t := Theme(Get(opts, "type"), Get(opts, "theme"), p);
      !t.ThemeFilteredOut? && !t.ThemeInvalid? && !Truthy(UserMarkerOptions(opts, p, host))
    ensures r.Crashed? <==> !r.Skipped? && FactoryThrows(opts, p, host)
    ensures r.Crashed? ==> (r.cause == NoTooltipOptions <==> Get(opts, "tooltipOptions").Null? || Get(opts, "tooltipOptions").Undefined?)
    ensures r.Crashed? && r.cause != NoTooltipOptions ==>
      (r.cause == PopupTemplate <==> BuiltIn(Get(opts, "popup")) && PopupDescriptions(p).None?)
  {
    var t := Theme(Get(opts, "type"), Get(opts, "theme"), p);
    if t.ThemeFilteredOut? then Skipped(ThemeRejected)
    else if t.ThemeInvalid? then Skipped(InvalidTypeOrTheme)
    else
      var themed := if t.ThemeStyle? then t.style else map[];
      var user := UserMarkerOptions(opts, p, host);
      if !Truthy(user) then Skipped(UserRejected)
      else
        var popup := Get(opts, "popup");
        var tooltip := Get(opts, "tooltip");
        var tipOptions := Get(opts, "tooltipOptions");
        if tipOptions.Null? || tipOptions.Undefined? then Crashed(NoTooltipOptions, tipOptions)
        else
          var tipOptions' := if tipOptions.Obj? then Obj(tipOptions.fields["interactive" := And(popup, tooltip)]) else tipOptions;
          if BuiltIn(popup) && PopupDescriptions(p).None? then Crashed(PopupTemplate, tipOptions')
          else if BuiltIn(tooltip) && !host.mobile && TooltipThrows(p) then Crashed(TooltipTemplate, tipOptions')
          else
            var style := MarkerStyle(themed, user, Or(popup, tooltip));
            var marker := Marker(
              p.latitude, p.longitude, style, InitialRadius(style),
              Bind(popup, host.defaultPopup, p, host, Get(opts, "popupOptions")),
              if host.mobile then None else Bind(tooltip, host.defaultTooltip, p, host, tipOptions'));
            Placed(marker, tipOptions')
  }

  /** The outcome of `_redraw`: the markers added, one invalid-type/theme
      warning per record that hit one, the options as the factory left them,
      and whether an exception ended the loop early. */
  datatype Drawn = Drawn(markers: seq<Marker>, invalidThemeWarnings: nat, options: Options, threw: bool)

  /** `_redraw`'s loop over the records, in order. A throw of the factory
      leaves the loop: the markers added before it stay, the rest of the
      records get none. */
  function Redraw(opts: Options, records: seq<Record>, host: Host): (d: Drawn)
    ensures |d.markers| <= |records|
    ensures d.threw ==> |d.markers| < |records|
    ensures d.invalidThemeWarnings <= |records|
    ensures d.options - {"tooltipOptions"} == opts - {"tooltipOptions"}
    decreases |records|
  {
    if records == [] then Drawn([], 0, opts, false)
    else
      match GetMarker(opts, records[0], host)
      case Crashed(cause, tip) =>
        if cause == NoTooltipOptions then Drawn([], 0, opts, true)
        else
          SetTipKeepsRest(opts, tip);
          Drawn([], 0, opts["tooltipOptions" := tip], true)
      case Skipped(reason) =>
        var rest := Redraw(opts, records[1..], host);
        rest.(invalidThemeWarnings := rest.invalidThemeWarnings + if reason == InvalidTypeOrTheme then 1 else 0)
      case Placed(m, tip) =>
        var rest := Redraw(opts["tooltipOptions" := tip], records[1..], host);
        SetTipKeepsRest(opts, tip);
        rest.(markers := [m] + rest.markers)
  }

  /** Setting `tooltipOptions` leaves every other option alone. */
  lemma SetTipKeepsRest(opts: Options, tip: JsValue)
    ensures opts["tooltipOptions" := tip] - {"tooltipOptions"} == opts - {"tooltipOptions"}
  {
  }

  //--------------------------------------------------------------------
  // Properties
  //--------------------------------------------------------------------

  /** No marker is made in exactly three cases: the theme rejects the
      record, the theme lookup throws, or the user's marker options (or
      their function's result) are falsy. */
  lemma NoMarkerCases(opts: Options, p: Record, host: Host)
    ensures GetMarker(opts, p, host).Skipped? <==>
      var typ := Get(opts, "type");
      var theme := Get(opts, "theme");
      || (Truthy(typ) && Truthy(theme) && typ.Str? && theme.Str? && Resolve(typ.s, theme.s, p).Filtered?)
      || (Truthy(typ) && Truthy(theme) && !(typ.Str? && theme.Str? && !Resolve(typ.s, theme.s, p).Throws?))
      || !Truthy(UserMarkerOptions(opts, p, host))
  {
  }

  /** The style of a placed marker: the user's non-object options override
      the themed keys, the themed keys the user leaves alone are kept, and
      `interactive` is `popup || tooltip`. */
  lemma PlacedStyle(opts: Options, p: Record, host: Host)
    requires GetMarker(opts, p, host).Placed?
    ensures var m := GetMarker(opts, p, host).marker;
      var user := OwnProps(UserMarkerOptions(opts, p, host));
      var t := Theme(Get(opts, "type"), Get(opts, "theme"), p);
      var themed := if t.ThemeStyle? then t.style else map[];
      && m.style.Keys == themed.Keys + user.Keys + {"interactive"}
      && (forall k :: k in user && k != "interactive" && !user[k].Obj? ==> m.style[k] == user[k])
      && (forall k :: k in themed && k !in user && k != "interactive" ==> m.style[k] == themed[k])
      && m.style["interactive"] == Or(Get(opts, "popup"), Get(opts, "tooltip"))
      && m.latitude == p.latitude && m.longitude == p.longitude
  {
  }

  /** The `flow`/`cfs` theme step: no marker without a value, otherwise a
      circle of radius 6 in the colours of the flow bin, gray for a unit
      other than ft3/s. */
  lemma FlowCfsTheme(p: Record)
    ensures Theme(Str("flow"), Str("cfs"), p) ==
      if p.value.None? then ThemeFilteredOut
      else ThemeStyle(StyleOf(if p.parameterUnit == "ft3/s" then CfsPalette[Bin(Abs(p.value.value), CfsBounds)] else Gray, "circle"))
  {
    FlowCfsBins(p);
    FlowThresholdThemes(p);
  }

  /** Without user marker options a marker keeps the whole themed style,
      with only `interactive` added. */
  lemma NoUserOptionsKeepTheme(themed: Options, interactive: JsValue)
    ensures MarkerStyle(themed, Obj(map[]), interactive) == themed["interactive" := interactive]
  {
    MergeOntoObject(themed, Obj(map[]));
    assert MergeProps(true, themed, map[]) == themed;
  }

  /** The themed style under the user's marker options: the theme's
      colours, shape and radius 6 hold wherever the user's options do not
      name them, and a non-object value the user gives wins. */
  lemma ThemedStyleUnderUser(c: Colors, shape: string, user: JsValue, interactive: JsValue)
    ensures var s := MarkerStyle(StyleOf(c, shape), user, interactive);
      var u := OwnProps(user);
      && ("color" !in u ==> s["color"] == Str(c.color))
      && ("fillColor" !in u ==> s["fillColor"] == Str(c.fillColor))
      && ("shape" !in u ==> s["shape"] == Str(shape))
      && ("radius" !in u ==> InitialRadius(s) == Num(6.0))
      && ("radius" in u && !u["radius"].Obj? ==> InitialRadius(s) == u["radius"])
      && (forall k :: k in u && k != "interactive" && !u[k].Obj? ==> s[k] == u[k])
  {
  }

  /** Tooltips are never bound on mobile devices; a popup is bound exactly
      when `popup` is set and its content is non-empty. */
  lemma Bindings(opts: Options, p: Record, host: Host)
    requires GetMarker(opts, p, host).Placed?
    ensures host.mobile ==> GetMarker(opts, p, host).marker.tooltip.None?
    ensures var m := GetMarker(opts, p, host).marker;
      var popup := Get(opts, "popup");
      m.popup.Some? <==> Truthy(popup) && Truthy(if popup.Fn? then host.call(popup.name, p) else Str(host.defaultPopup(p)))
  {
  }

  /** The records that get a marker, in order, up to the first record on
      which the factory throws. */
  function PlacedRecords(opts: Options, records: seq<Record>, host: Host): seq<Record>
    decreases |records|
  {
    if records == [] then []
    else
      var g := GetMarker(opts, records[0], host);
      var rest := PlacedRecords(opts, records[1..], host);
      if g.Crashed? then [] else if g.Placed? then [records[0]] + rest else rest
  }

  /** Some record makes the factory throw. */
  predicate CrashesOn(opts: Options, records: seq<Record>, host: Host) {
    exists i :: 0 <= i < |records| && GetMarker(opts, records[i], host).Crashed?
  }

  lemma CrashesOnCons(opts: Options, records: seq<Record>, host: Host)
    requires records != []
    ensures CrashesOn(opts, records, host) <==>
      GetMarker(opts, records[0], host).Crashed? || CrashesOn(opts, records[1..], host)
  {
    if CrashesOn(opts, records[1..], host) {
      var i :| 0 <= i < |records[1..]| && GetMarker(opts, records[1..][i], host).Crashed?;
      assert records[1..][i] == records[i + 1];
    }
    if CrashesOn(opts, records, host) && !GetMarker(opts, records[0], host).Crashed? {
      var i :| 0 <= i < |records| && GetMarker(opts, records[i], host).Crashed?;
      assert records[1..][i - 1] == records[i];
    }
  }

  lemma CrashesOnIgnoresTooltipInteractive(opts: Options, records: seq<Record>, host: Host, tip: map<string, JsValue>)
    requires Get(opts, "tooltipOptions").Obj?
    ensures CrashesOn(opts["tooltipOptions" := Obj(tip)], records, host) <==> CrashesOn(opts, records, host)
  {
    forall i | 0 <= i < |records|
      ensures GetMarker(opts["tooltipOptions" := Obj(tip)], records[i], host).Crashed? <==> GetMarker(opts, records[i], host).Crashed?
    {
      GetMarkerIgnoresTooltipInteractive(opts, records[i], host, tip);
    }
  }

  /** Only `tooltipOptions` decides whether the factory crashes, and only
      the `interactive` key of it changes; so replacing that object by
      another object changes no decision of the factory. */
  lemma GetMarkerIgnoresTooltipInteractive(opts: Options, p: Record, host: Host, tip: map<string, JsValue>)
    requires Get(opts, "tooltipOptions").Obj?
    ensures GetMarker(opts["tooltipOptions" := Obj(tip)], p, host).Placed? <==> GetMarker(opts, p, host).Placed?
    ensures GetMarker(opts["tooltipOptions" := Obj(tip)], p, host).Crashed? <==> GetMarker(opts, p, host).Crashed?
  {
    var o2 := opts["tooltipOptions" := Obj(tip)];
    assert Get(o2, "type") == Get(opts, "type") && Get(o2, "theme") == Get(opts, "theme");
    assert Get(o2, "markerOptions") == Get(opts, "markerOptions");
    assert UserMarkerOptions(o2, p, host) == UserMarkerOptions(opts, p, host);
  }

  /** A placed marker sits at its record's position, and an object
      `tooltipOptions` stays an object. */
  lemma PlacedAt(opts: Options, p: Record, host: Host)
    requires GetMarker(opts, p, host).Placed?
    ensures GetMarker(opts, p, host).marker.latitude == p.latitude
    ensures GetMarker(opts, p, host).marker.longitude == p.longitude
    ensures Get(opts, "tooltipOptions").Obj? ==> GetMarker(opts, p, host).tooltipOptions.Obj?
    ensures !Get(opts, "tooltipOptions").Obj? ==>
      "tooltipOptions" in opts && GetMarker(opts, p, host).tooltipOptions == opts["tooltipOptions"]
  {
  }

  function MarkerPositions(ms: seq<Marker>): seq<(real, real)> {
    if ms == [] then [] else [(ms[0].latitude, ms[0].longitude)] + MarkerPositions(ms[1..])
  }

  function RecordPositions(rs: seq<Record>): seq<(real, real)> {
    if rs == [] then [] else [(rs[0].latitude, rs[0].longitude)] + RecordPositions(rs[1..])
  }

  /** The loop throws exactly when the factory throws on some record; it
      draws one marker per record the factory accepts before that record,
      at the accepted record's position, in record order. Rewriting
      `tooltipOptions` on the way changes neither. */
  lemma {:induction false} RedrawMarksAcceptedRecords(opts: Options, records: seq<Record>, host: Host)
    ensures Redraw(opts, records, host).threw <==> CrashesOn(opts, records, host)
    ensures MarkerPositions(Redraw(opts, records, host).markers) == RecordPositions(PlacedRecords(opts, records, host))
    decreases |records|, 1
  {
    if records == [] {
      assert !CrashesOn(opts, records, host);
    } else {
      var p := records[0];
      CrashesOnCons(opts, records, host);
      match GetMarker(opts, p, host)
      case Crashed(_, _) =>
      case Skipped(_) =>
        RedrawMarksAcceptedRecords(opts, records[1..], host);
      case Placed(m, tip) =>
        RedrawMarksPlaced(opts, records, host);
    }
  }

  /** The step of `RedrawMarksAcceptedRecords` for a first record that
      gets a marker. */
  lemma {:induction false} RedrawMarksPlaced(opts: Options, records: seq<Record>, host: Host)
    requires records != [] && GetMarker(opts, records[0], host).Placed?
    ensures Redraw(opts, records, host).threw <==> CrashesOn(opts, records[1..], host)
    ensures MarkerPositions(Redraw(opts, records, host).markers) == RecordPositions(PlacedRecords(opts, records, host))
    decreases |records|, 0
  {
    var p := records[0];
    var m := GetMarker(opts, p, host).marker;
    var tip := GetMarker(opts, p, host).tooltipOptions;
    PlacedAt(opts, p, host);
    var o2 := opts["tooltipOptions" := tip];
    if Get(opts, "tooltipOptions").Obj? {
      PlacedRecordsIgnoreTooltipInteractive(opts, records[1..], host, tip.fields);
      CrashesOnIgnoresTooltipInteractive(opts, records[1..], host, tip.fields);
    } else {
      assert o2 == opts;
    }
    RedrawMarksAcceptedRecords(o2, records[1..], host);
    var ms := Redraw(o2, records[1..], host).markers;
    assert ([m] + ms)[1..] == ms;
    var ps := PlacedRecords(opts, records[1..], host);
    assert ([p] + ps)[1..] == ps;
  }

  /** A status code the popup cannot describe stops the redraw: a flow
      record with code `NR_NOMEAS`, shown under the `cfs` theme with the
      built-in popup, makes the factory throw, although the theme itself
      never looks the code up. */
  lemma UndocumentedStatusStopsRedraw(opts: Options, p: Record, rest: seq<Record>, host: Host)
    requires Get(opts, "type") == Str("flow") && Get(opts, "theme") == Str("cfs")
    requires Get(opts, "popup") == Bool(true) && Get(opts, "markerOptions") == Obj(map[])
    requires Get(opts, "tooltipOptions").Obj?
    requires p.value.Some? && p.parameterCode == "00060" && p.statisticStatusCode == Some("NR_NOMEAS")
    ensures GetMarker(opts, p, host).Crashed? && GetMarker(opts, p, host).cause == PopupTemplate
    ensures Redraw(opts, [p] + rest, host).threw && Redraw(opts, [p] + rest, host).markers == []
  {
    var t := Theme(Get(opts, "type"), Get(opts, "theme"), p);
    assert t.ThemeStyle? by { CfsStylesValuedRecords(p); }
    assert "NR_NOMEAS" !in StatusInfo by { DocumentedStatisticCodes("NR_NOMEAS"); }
    assert DescribesStatus(p) by { DischargeIsNotAWellLevel(); }
    PopupLookupStopsFactory(opts, p, host);
    CrashOnFirstStops(opts, p, rest, host);
  }

  /** Discharge (parameter `00060`) is not a well level. */
  lemma DischargeIsNotAWellLevel()
    ensures "00060" !in WellParameterCodes
  {
    assert "00060"[0] == '0';
    assert forall c | c in WellParameterCodes :: c[0] != '0';
  }

  lemma CfsStylesValuedRecords(p: Record)
    requires p.value.Some?
    ensures Theme(Str("flow"), Str("cfs"), p).ThemeStyle?
  {
    FlowThresholdThemes(p);
  }

  lemma CrashOnFirstStops(opts: Options, p: Record, rest: seq<Record>, host: Host)
    requires GetMarker(opts, p, host).Crashed?
    ensures Redraw(opts, [p] + rest, host).threw && Redraw(opts, [p] + rest, host).markers == []
  {
    assert ([p] + rest)[0] == p;
  }

  /** When the built-in popup is on and the record passes the theme and
      the user's (non-function) marker options, a statistic status code it
      must describe but cannot find makes the factory throw. */
  lemma PopupLookupStopsFactory(opts: Options, p: Record, host: Host)
    requires !Theme(Get(opts, "type"), Get(opts, "theme"), p).ThemeFilteredOut?
    requires !Theme(Get(opts, "type"), Get(opts, "theme"), p).ThemeInvalid?
    requires !Get(opts, "markerOptions").Fn? && Get(opts, "tooltipOptions").Obj? && BuiltIn(Get(opts, "popup"))
    requires DescribesStatus(p) && p.statisticStatusCode.value !in StatusInfo
    ensures GetMarker(opts, p, host).Crashed? && GetMarker(opts, p, host).cause == PopupTemplate
  {
    assert Truthy(UserMarkerOptions(opts, p, host));
  }

  lemma {:induction false} PlacedRecordsIgnoreTooltipInteractive(opts: Options, records: seq<Record>, host: Host, tip: map<string, JsValue>)
    requires Get(opts, "tooltipOptions").Obj?
    ensures PlacedRecords(opts["tooltipOptions" := Obj(tip)], records, host) == PlacedRecords(opts, records, host)
    decreases |records|
  {
    if records != [] {
      GetMarkerIgnoresTooltipInteractive(opts, records[0], host, tip);
      PlacedRecordsIgnoreTooltipInteractive(opts, records[1..], host, tip);
    }
  }
}

/** The CWIS layer object `L.cwis(options)`: its options, the data service
    request it has in flight, the records of the last good response, its
    markers and its refresh timer, driven by the events the page and the
    browser deliver (refresh, response, option and radius changes, timer
    ticks, adding to and removing from a map, zoom changes).

    Each event handler is a function from the layer to an `Outcome`: the
    new layer, the observable effects in order, and whether the handler
    ended by throwing (changes made before the throw are kept, as in the
    source). Two places where the code does not do what it evidently means
    to are modelled both ways, selected by `Semantics`. */
module Layer {
  import opened Wrappers
  import opened Text
  import opened JsValues
  import opened DeepMerge
  import opened Distinct
  import opened Records
  import opened Query
  import opened Markers

  //--------------------------------------------------------------------
  // State
  //--------------------------------------------------------------------

  /** The `defaults` object of `L.cwis`; its keys are the valid options. */
  const Defaults: Options := map[
    "filter" := Undefined, "type" := Undefined, "theme" := Undefined,
    "markerOptions" := Obj(map[]),
    "popup" := Bool(true), "popupOptions" := Obj(map[]),
    "tooltip" := Bool(true), "tooltipOptions" := Obj(map[]),
    "autoRefresh" := Bool(true), "autoSize" := Num(1.0),
    "onSuccess" := Undefined, "onRefresh" := Undefined, "onError" := Undefined]

  /** An outstanding data service request. `version` identifies the options
      object `_refresh` captured; `captured` is that object's contents once
      it is no longer the layer's own (while it is, it is `layer.options`). */
  datatype Request = Request(id: nat, version: nat, captured: Options)

  datatype Layer = Layer(
    options: Options,
    version: nat,                   // bumped whenever `layer.options` is replaced
    pending: Option<Request>,       // the XHR not yet done
    nextId: nat,
    data: Option<seq<Record>>,      // `layer._json.value`
    markers: seq<Marker>,
    timerArmed: bool,               // the refresh interval is still set
    zoom: Option<real>,             // the map's zoom while the layer is on a map
    zoomListening: bool)            // the `zoomend` handler is registered

  /** What the browser supplies: the marker host, `toISOString`,
      `encodeURIComponent`, a user `autoSize` function applied to a zoom,
      and the message `JSON.parse` gives for an empty body. */
  datatype Env = Env(
    host: Host,
    toIso: int -> string,
    encode: string -> string,
    sizeFor: (string, real) -> JsValue,
    emptyBodyError: string)

  datatype Effect =
    | UnrecognizedOptions(names: set<string>)   // one console warning per name
    | ServiceError(err: JsValue)                // `[L.cwis] service error: ...`
    | ErrorCallback(err: JsValue)               // `options.onError(layer, err)`
    | CapWarning                                // the site cap was reached
    | InvalidThemeWarnings(count: nat)          // from the marker factory
    | SuccessCallback                           // `options.onSuccess(layer)`
    | RefreshCallback                           // `options.onRefresh(layer)`
    | RequestSent(id: nat, url: string)
    | RequestAborted(id: nat)

  datatype Outcome = Outcome(layer: Layer, effects: seq<Effect>, threw: bool)

  /** The outstanding request is the latest one sent, under the current or
      an earlier options object. */
  predicate Valid(l: Layer) {
    l.pending.Some? ==> l.pending.value.id + 1 == l.nextId && l.pending.value.version <= l.version
  }

  /** The code as written, or with the two corrections described in the
      findings: an aborted request does not run its error handler, and
      `onSuccess` is removed from the layer's own options. */
  datatype Semantics = AsWritten | Corrected

  /** `L.cwis(options)`: the defaults merged with the user's options, and a
      warning for every key that is not a valid option. */
  function Create(user: Options): (r: (Layer, seq<Effect>))
    ensures r.0.options.Keys == Defaults.Keys + user.Keys
    ensures r.0.timerArmed && r.0.pending.None? && r.0.data.None? && r.0.zoom.None?
    ensures r.1 == Unrecognized(user)
  {
    MergeTwoObjects(Defaults, user);
    (Layer(Merge([Obj(Defaults), Obj(user)]), 0, None, 0, None, [], true, None, false), Unrecognized(user))
  }

  function Unrecognized(opts: Options): (r: seq<Effect>)
    ensures r == [] <==> opts.Keys <= Defaults.Keys
    ensures forall i :: 0 <= i < |r| ==> r[i].UnrecognizedOptions?
  {
    if opts.Keys <= Defaults.Keys then [] else [UnrecognizedOptions(opts.Keys - Defaults.Keys)]
  }

  //--------------------------------------------------------------------
  // Refresh
  //--------------------------------------------------------------------

  /** `options.filter && options.filter.trim() !== ''`: a truthy value that
      is not a string has no `trim` and throws. */
  datatype FilterRead = NoFilter | FilterText(text: string) | FilterThrows

  function ReadFilter(f: JsValue): (r: FilterRead)
    ensures r.NoFilter? <==> !Truthy(f)
    ensures r.FilterText? <==> Truthy(f) && f.Str?
  {
    if !Truthy(f) then NoFilter else if f.Str? then FilterText(f.s) else FilterThrows
  }

  /** The key `config.typeFilters[options.type]` looks up. */
  function TypeName(t: JsValue): Option<string> {
    if t.Str? then Some(t.s) else None
  }

  /** The request's handler options: the captured object, which is the
      layer's own options while it has not been replaced. */
  function HandlerOptions(l: Layer, req: Request): Options {
    if req.version == l.version then l.options else req.captured
  }

  /** The `error` closure of `_refresh`: warn, call `onError` when it is a
      function, and clear the refresh interval. Nothing else changes. */
  function Fail(l: Layer, handler: Options, err: JsValue): (o: Outcome)
    ensures o.layer == l.(timerArmed := false) && !o.threw
    ensures SuccessCallback !in o.effects && RefreshCallback !in o.effects
    ensures |o.effects| > 0 && o.effects[0] == ServiceError(err)
    ensures ErrorCallback(err) in o.effects <==> Get(handler, "onError").Fn?
  {
    Outcome(l.(timerArmed := false),
            [ServiceError(err)] + (if Get(handler, "onError").Fn? then [ErrorCallback(err)] else []),
            false)
  }

  const NotJsonPrefix := "response not json ("
  const NoValueError := "response does not contain \"value\" array"

  /** Aborting the outstanding request. As written, `abort()` dispatches
      `readystatechange` synchronously while `layer._xhr` is still the old
      request in state DONE with an empty body, so the old handler's
      `JSON.parse('')` fails and its error path runs. */
  function Abort(sem: Semantics, l: Layer, env: Env): (o: Outcome)
    requires l.pending.Some?
    ensures o.layer.pending == l.pending && o.layer.options == l.options && o.layer.data == l.data
    ensures sem == Corrected ==> o.layer == l && o.effects == [RequestAborted(l.pending.value.id)]
    ensures !o.threw && SuccessCallback !in o.effects && RefreshCallback !in o.effects
  {
    var req := l.pending.value;
    if sem == Corrected then Outcome(l, [RequestAborted(req.id)], false)
    else
      var f := Fail(l, HandlerOptions(l, req), Str(NotJsonPrefix + env.emptyBodyError + ")"));
      f.(effects := [RequestAborted(req.id)] + f.effects)
  }

  /** Sending a request to `url`: any outstanding one is aborted first, and
      the new one captures the current options object. */
  function Send(sem: Semantics, l: Layer, url: string, env: Env): (o: Outcome)
    ensures o.layer.options == l.options && o.layer.version == l.version && o.layer.data == l.data
    ensures o.layer.markers == l.markers && o.layer.zoom == l.zoom && !o.threw
    ensures o.layer.timerArmed ==> l.timerArmed
    ensures o.layer.pending == Some(Request(l.nextId, l.version, l.options)) && o.layer.nextId == l.nextId + 1
    ensures |o.effects| > 0 && o.effects[|o.effects| - 1] == RequestSent(l.nextId, url)
    ensures SuccessCallback !in o.effects && RefreshCallback !in o.effects
  {
    var aborted := if l.pending.Some? then Abort(sem, l, env) else Outcome(l, [], false);
    var l1 := aborted.layer;
    Outcome(l1.(pending := Some(Request(l1.nextId, l1.version, l1.options)), nextId := l1.nextId + 1),
            aborted.effects + [RequestSent(l1.nextId, url)], false)
  }

  /** `L.cwis._refresh(layer)`: check the filter, build the URL, abort any
      outstanding request and send a new one. */
  function Refresh(sem: Semantics, l: Layer, nowMs: nat, env: Env): (o: Outcome)
    ensures o.layer.options == l.options && o.layer.version == l.version && o.layer.data == l.data
    ensures o.layer.markers == l.markers && o.layer.zoom == l.zoom
    ensures o.threw <==> ReadFilter(Get(l.options, "filter")).FilterThrows?
    ensures o.layer.timerArmed ==> l.timerArmed
    ensures o.layer.pending == if UsableFilter(l.options) then Some(Request(l.nextId, l.version, l.options)) else l.pending
    ensures o.layer.nextId == if UsableFilter(l.options) then l.nextId + 1 else l.nextId
    ensures SuccessCallback !in o.effects && RefreshCallback !in o.effects
  {
    match ReadFilter(Get(l.options, "filter"))
    case FilterThrows => Outcome(l, [], true)
    case NoFilter => Fail(l, l.options, Str(FilterError))
    case FilterText(text) =>
      match BuildUrl(TypeName(Get(l.options, "type")), Some(text), nowMs, env.toIso, env.encode)
      case Failure(e) => Fail(l, l.options, Str(e))
      case Success(url) => Send(sem, l, url, env)
  }

  //--------------------------------------------------------------------
  // Responses
  //--------------------------------------------------------------------

  /** The body of a finished request as `JSON.parse` sees it: not JSON (with
      the parser's message), the literal `null` (reading `.error` of it
      throws), or a value with its `error` property and its `value`
      property when that is an array of site records. */
  datatype Response =
    | NotJson(reason: string)
    | NullJson
    | Json(error: JsValue, value: Option<seq<Record>>)

  /** `json.error.message`. */
  function ErrorMessage(err: JsValue): JsValue {
    if err.Obj? then Get(err.fields, "message") else Undefined
  }

  /** `L.cwis._redraw(layer)`: clear the markers and add one per record;
      without data `layer._json.value` throws after the markers are
      cleared. */
  function RedrawLayer(l: Layer, env: Env): (o: Outcome)
    ensures o.layer.data == l.data && o.layer.pending == l.pending && o.layer.timerArmed == l.timerArmed
    ensures o.layer.version == l.version && o.layer.zoom == l.zoom && o.layer.nextId == l.nextId
    ensures l.data.None? ==> o.threw && o.layer.markers == []
    ensures l.data.Some? ==> |o.layer.markers| <= |l.data.value|
    ensures forall e :: e in o.effects ==> e.InvalidThemeWarnings?
  {
    match l.data
    case None => Outcome(l.(markers := []), [], true)
    case Some(records) =>
      var d := Redraw(l.options, records, env.host);
      Outcome(l.(markers := d.markers, options := d.options),
              if d.invalidThemeWarnings > 0 then [InvalidThemeWarnings(d.invalidThemeWarnings)] else [],
              d.threw)
  }

  /** The success tail of the handler: `onSuccess` is called and deleted,
      then `onRefresh` is called. As written both are read from the
      captured object and `onSuccess` is deleted from it; corrected,
      `onSuccess` is read from and deleted from the layer's own options. */
  function Succeed(sem: Semantics, l: Layer, req: Request): (o: Outcome)
    ensures !o.threw && o.layer.data == l.data && o.layer.markers == l.markers
    ensures o.layer.timerArmed == l.timerArmed && o.layer.pending == l.pending
    ensures o.layer.options.Keys <= l.options.Keys
    ensures forall k :: k in o.layer.options && k != "onSuccess" ==> o.layer.options[k] == l.options[k]
  {
    var handler := HandlerOptions(l, req);
    var successFrom := if sem == AsWritten then handler else l.options;
    var fire := Get(successFrom, "onSuccess").Fn?;
    var ownObject := sem == Corrected || req.version == l.version;
    var options := if fire && ownObject then l.options - {"onSuccess"} else l.options;
    Outcome(l.(options := options),
            (if fire then [SuccessCallback] else []) + (if Get(handler, "onRefresh").Fn? then [RefreshCallback] else []),
            false)
  }

  /** The `onreadystatechange` handler for the request `id` reaching DONE. */
  function Respond(sem: Semantics, l: Layer, id: nat, response: Response, env: Env): (o: Outcome)
    ensures o.layer.version == l.version && o.layer.zoom == l.zoom && o.layer.nextId == l.nextId
    ensures o.layer.timerArmed ==> l.timerArmed
    ensures o.layer.pending.None? || o.layer.pending == l.pending
  {
    if l.pending.None? || l.pending.value.id != id then Outcome(l, [], false)
    else
      var req := l.pending.value;
      var l0 := l.(pending := None);
      var handler := HandlerOptions(l, req);
      match response
      case NotJson(reason) => Fail(l0, handler, Str(NotJsonPrefix + reason + ")"))
      case NullJson => Outcome(l0, [], true)
      case Json(err, value) =>
        if Truthy(err) && Truthy(ErrorMessage(err)) then Fail(l0, handler, ErrorMessage(err))
        else if value.None? then Fail(l0, handler, Str(NoValueError))
        else
          Accept(sem, l0, req, value.value, env)
  }

  /** The handler's tail for a valid response: warn at the site cap, store
      the records without duplicate sites, redraw, then the callbacks. */
  function Accept(sem: Semantics, l: Layer, req: Request, records: seq<Record>, env: Env): (o: Outcome)
    ensures o.layer.version == l.version && o.layer.zoom == l.zoom && o.layer.nextId == l.nextId
    ensures o.layer.timerArmed == l.timerArmed && o.layer.pending == l.pending
  {
    Settle(sem, req, |records| >= NSitesMax, RedrawLayer(l.(data := Some(FilterFirst(records, SiteKey))), env))
  }

  /** After the redraw: the cap warning comes first, and the callbacks run
      only when the redraw did not throw. */
  function Settle(sem: Semantics, req: Request, capped: bool, drawn: Outcome): (o: Outcome)
    ensures o.layer.version == drawn.layer.version && o.layer.zoom == drawn.layer.zoom && o.layer.nextId == drawn.layer.nextId
    ensures o.layer.timerArmed == drawn.layer.timerArmed && o.layer.pending == drawn.layer.pending
  {
    var cap := if capped then [CapWarning] else [];
    if drawn.threw then Outcome(drawn.layer, cap + drawn.effects, true)
    else
      var done := Succeed(sem, drawn.layer, req);
      Outcome(done.layer, cap + drawn.effects + done.effects, false)
  }

  //--------------------------------------------------------------------
  // Options and radius
  //--------------------------------------------------------------------

  /** The `needRefresh` test of `setOptions`: a new truthy filter or type
      that differs from the current one. */
  function NeedRefresh(current: Options, changes: Options): (b: bool)
    ensures b ==> "filter" in changes || "type" in changes
    ensures (forall k :: k in changes ==> k in current && changes[k] == current[k]) ==> !b
  {
    || (Truthy(Get(changes, "filter")) && Get(changes, "filter") != Get(current, "filter"))
    || (Truthy(Get(changes, "type")) && Get(changes, "type") != Get(current, "type"))
  }

  /** `layer.setOptions(newOptions)`: warn about unknown keys, merge, then
      refresh or redraw. */
  function SetOptions(sem: Semantics, l: Layer, changes: Options, nowMs: nat, env: Env): (o: Outcome)
    ensures o.layer.version == l.version + 1
    ensures o.layer.timerArmed ==> l.timerArmed
    ensures Valid(l) ==> Valid(o.layer)
    ensures !NeedRefresh(l.options, changes) ==>
      o.layer.nextId == l.nextId && o.layer.timerArmed == l.timerArmed && o.layer.data == l.data
  {
    var o := Reload(sem, Replace(l, changes), NeedRefresh(l.options, changes), nowMs, env);
    o.(effects := Unrecognized(changes) + o.effects)
  }

  /** `layer.options = L.cwis.merge(layer.options, newOptions)`: a new
      options object, so a request in flight keeps the old one. */
  function Replace(l: Layer, changes: Options): (r: Layer)
    ensures r.version == l.version + 1
    ensures r.nextId == l.nextId && r.timerArmed == l.timerArmed && r.data == l.data && r.zoom == l.zoom
    ensures r.pending.Some? <==> l.pending.Some?
    ensures r.pending.Some? ==> r.pending.value.id == l.pending.value.id && r.pending.value.version == l.pending.value.version
    ensures l.pending.Some? && l.pending.value.version == l.version ==> r.pending == Some(l.pending.value.(captured := l.options))
  {
    var pending := match l.pending
      case Some(req) => Some(if req.version == l.version then req.(captured := l.options) else req)
      case None => None;
    l.(options := Merge([Obj(l.options), Obj(changes)]), version := l.version + 1, pending := pending)
  }

  /** The end of `setOptions`: `_refresh` when needed, `_redraw` otherwise. */
  function Reload(sem: Semantics, l: Layer, refresh: bool, nowMs: nat, env: Env): (o: Outcome)
    ensures o.layer.version == l.version
    ensures o.layer.timerArmed ==> l.timerArmed
    ensures Valid(l) ==> Valid(o.layer)
    ensures !refresh ==> o.layer.nextId == l.nextId && o.layer.timerArmed == l.timerArmed && o.layer.data == l.data
    ensures SuccessCallback !in o.effects && RefreshCallback !in o.effects
    ensures !refresh ==> forall e :: e in o.effects ==> e.InvalidThemeWarnings?
  {
    if refresh then Refresh(sem, l, nowMs, env) else RedrawLayer(l, env)
  }

  /** `Math.min(Math.max(x, 3), 8)`. */
  function Clamp(x: real): (r: real)
    ensures 3.0 <= r <= 8.0
    ensures 3.0 <= x <= 8.0 ==> r == x
  {
    if x < 3.0 then 3.0 else if x > 8.0 then 8.0 else x
  }

  /** `autoSize * Math.min(Math.max(zoom - 2, 3), 8)`. */
  function AutoRadius(k: real, zoom: real): real {
    k * Clamp(zoom - 2.0)
  }

  /** `marker.setStyle({radius})`: a falsy radius keeps the current one,
      a truthy one becomes every marker's radius, and nothing else about a
      marker changes. */
  function Resize(markers: seq<Marker>, radius: JsValue): (r: seq<Marker>)
    ensures |r| == |markers|
    ensures forall i :: 0 <= i < |r| ==>
      r[i] == markers[i].(radius := if Truthy(radius) then radius else markers[i].radius)
    ensures !Truthy(radius) ==> r == markers
    ensures Truthy(radius) ==> forall i :: 0 <= i < |r| ==> r[i].radius == radius
    ensures forall i :: 0 <= i < |r| ==> r[i].(radius := markers[i].radius) == markers[i]
  {
    seq(|markers|, i requires 0 <= i < |markers| =>
      markers[i].(radius := if Truthy(radius) then radius else markers[i].radius))
  }

  /** `layer.setRadius(radius)`. With `autoSize` false and no argument it
      does nothing; a numeric `autoSize` scales the clamped `zoom - 2`; a
      function `autoSize` is applied to the zoom; otherwise the argument is
      used. The radius is stored in `markerOptions` and applied to the
      markers. Reading the zoom off the map throws when the layer is on no
      map; writing into a null or undefined `markerOptions` throws. */
  function SetRadius(l: Layer, radius: JsValue, env: Env): (o: Outcome)
    ensures o.effects == []
    ensures o.layer.data == l.data && o.layer.pending == l.pending && o.layer.timerArmed == l.timerArmed
    ensures o.layer.version == l.version && o.layer.zoom == l.zoom && o.layer.nextId == l.nextId
    ensures o.layer.options.Keys == l.options.Keys
    ensures forall k :: k in l.options && k != "markerOptions" ==> o.layer.options[k] == l.options[k]
  {
    var auto := Get(l.options, "autoSize");
    if auto == Bool(false) && radius.Undefined? then Outcome(l, [], false)
    else if (auto.Num? || auto.Fn?) && l.zoom.None? then Outcome(l, [], true)
    else
      var r :=
        if auto.Num? then Num(AutoRadius(auto.x, l.zoom.value))
        else if auto.Fn? then env.sizeFor(auto.name, l.zoom.value)
        else radius;
      StoreRadius(l, r)
  }

  /** `layer.options.markerOptions.radius = radius` followed by the resize
      of every marker; a null or undefined `markerOptions` throws. */
  function StoreRadius(l: Layer, r: JsValue): (o: Outcome)
    ensures o.effects == []
    ensures o.layer.data == l.data && o.layer.pending == l.pending && o.layer.timerArmed == l.timerArmed
    ensures o.layer.version == l.version && o.layer.zoom == l.zoom && o.layer.nextId == l.nextId
    ensures o.layer.options.Keys == l.options.Keys
    ensures forall k :: k in l.options && k != "markerOptions" ==> o.layer.options[k] == l.options[k]
    ensures Get(l.options, "markerOptions").Obj? ==>
      && !o.threw && o.layer.markers == Resize(l.markers, r)
      && Get(o.layer.options, "markerOptions").Obj?
      && Get(Get(o.layer.options, "markerOptions").fields, "radius") == r
  {
    var given := Get(l.options, "markerOptions");
    if given.Null? || given.Undefined? then Outcome(l, [], true)
    else
      var options := if given.Obj? then l.options["markerOptions" := Obj(given.fields["radius" := r])] else l.options;
      Outcome(l.(options := options, markers := Resize(l.markers, r)), [], false)
  }

  //--------------------------------------------------------------------
  // Events
  //--------------------------------------------------------------------

  datatype Event =
    | RefreshCall(nowMs: nat)                      // `layer.refresh()`
    | Response(id: nat, response: Response)        // the request `id` is DONE
    | SetOptionsCall(changes: Options, nowMs: nat) // `layer.setOptions(changes)`
    | SetRadiusCall(radius: JsValue)               // `layer.setRadius(radius)`
    | Tick(popupOpen: bool, nowMs: nat)            // the refresh interval fires
    | Add(zoom: real, nowMs: nat)                  // the layer is added to a map
    | Remove                                       // the layer is removed from its map
    | ZoomEnd(zoom: real)                          // the map's zoom changed

  /** The guard of the refresh interval: auto refresh on, the layer on a
      map, and no popup open. */
  predicate TickRefreshes(l: Layer, popupOpen: bool) {
    l.timerArmed && Truthy(Get(l.options, "autoRefresh")) && l.zoom.Some? && !popupOpen
  }

  /** The `add` handler: refresh when there is no data yet, size the
      markers, and listen to zoom changes. */
  function AddToMap(sem: Semantics, l: Layer, zoom: real, nowMs: nat, env: Env): (o: Outcome)
    ensures o.layer.timerArmed ==> l.timerArmed
    ensures Valid(l) ==> Valid(o.layer)
  {
    var l1 := l.(zoom := Some(zoom));
    var refreshed := if l1.data.None? then Refresh(sem, l1, nowMs, env) else Outcome(l1, [], false);
    if refreshed.threw then refreshed
    else
      var sized := SetRadius(refreshed.layer, Undefined, env);
      if sized.threw then Outcome(sized.layer, refreshed.effects, true)
      else Outcome(sized.layer.(zoomListening := true), refreshed.effects, false)
  }

  function StepWith(sem: Semantics, l: Layer, e: Event, env: Env): (o: Outcome)
    ensures o.layer.timerArmed ==> l.timerArmed
    ensures Valid(l) ==> Valid(o.layer)
  {
    match e
    case RefreshCall(nowMs) => Refresh(sem, l, nowMs, env)
    case Response(id, response) => Respond(sem, l, id, response, env)
    case SetOptionsCall(changes, nowMs) => SetOptions(sem, l, changes, nowMs, env)
    case SetRadiusCall(radius) => SetRadius(l, radius, env)
    case Tick(popupOpen, nowMs) =>
      if TickRefreshes(l, popupOpen) then Refresh(sem, l, nowMs, env) else Outcome(l, [], false)
    case Add(zoom, nowMs) => AddToMap(sem, l, zoom, nowMs, env)
    case Remove => Outcome(l.(zoom := None, zoomListening := false), [], false)
    case ZoomEnd(zoom) =>
      if l.zoom.None? then Outcome(l, [], false)
      else if l.zoomListening then SetRadius(l.(zoom := Some(zoom)), Undefined, env)
      else Outcome(l.(zoom := Some(zoom)), [], false)
  }

  /** A sequence of events; a handler that throws does not stop later ones. */
  function Run(sem: Semantics, l: Layer, events: seq<Event>, env: Env): (r: (Layer, seq<Effect>))
    decreases |events|
  {
    if events == [] then (l, [])
    else
      var o := StepWith(sem, l, events[0], env);
      var rest := Run(sem, o.layer, events[1..], env);
      (rest.0, o.effects + rest.1)
  }

  //--------------------------------------------------------------------
  // Properties: refreshing
  //--------------------------------------------------------------------

  /** The filter `_refresh` accepts: a non-blank string. */
  predicate UsableFilter(options: Options) {
    var f := ReadFilter(Get(options, "filter"));
    f.FilterText? && !Blank(f.text)
  }

  /** A missing or blank filter is reported through the error path before
      any request is touched: the outstanding request stays, the data stays,
      only the timer is cleared. */
  lemma RefreshWithoutFilter(sem: Semantics, l: Layer, nowMs: nat, env: Env)
    requires !Truthy(Get(l.options, "filter")) || (Get(l.options, "filter").Str? && Blank(Get(l.options, "filter").s))
    ensures Refresh(sem, l, nowMs, env).layer == l.(timerArmed := false)
    ensures Refresh(sem, l, nowMs, env).effects ==
      [ServiceError(Str(FilterError))] + (if Get(l.options, "onError").Fn? then [ErrorCallback(Str(FilterError))] else [])
    ensures !Refresh(sem, l, nowMs, env).threw
  {
    var f := ReadFilter(Get(l.options, "filter"));
    if f.FilterText? {
      var r := BuildUrl(TypeName(Get(l.options, "type")), Some(f.text), nowMs, env.toIso, env.encode);
      assert r.Failure? && r.error == FilterError;
    }
  }

  /** With a usable filter, `_refresh` is sending to the URL `BuildUrl` makes. */
  lemma RefreshIsSend(sem: Semantics, l: Layer, nowMs: nat, env: Env) returns (url: string)
    requires UsableFilter(l.options)
    ensures BuildUrl(TypeName(Get(l.options, "type")), Some(Get(l.options, "filter").s), nowMs, env.toIso, env.encode) == Success(url)
    ensures Refresh(sem, l, nowMs, env) == Send(sem, l, url, env)
  {
    var r := BuildUrl(TypeName(Get(l.options, "type")), Some(Get(l.options, "filter").s), nowMs, env.toIso, env.encode);
    url := r.value;
  }

  /** With a usable filter a request for the URL `BuildUrl` makes is sent
      and becomes the outstanding one, with a fresh id. */
  lemma RefreshSends(sem: Semantics, l: Layer, nowMs: nat, env: Env)
    requires UsableFilter(l.options)
    ensures var o := Refresh(sem, l, nowMs, env);
      var url := BuildUrl(TypeName(Get(l.options, "type")), Some(Get(l.options, "filter").s), nowMs, env.toIso, env.encode);
      && url.Success?
      && o.effects[|o.effects| - 1] == RequestSent(l.nextId, url.value)
      && o.layer.pending == Some(Request(l.nextId, l.version, l.options))
      && o.layer.nextId == l.nextId + 1
      && !o.threw
  {
    var url := RefreshIsSend(sem, l, nowMs, env);
  }

  lemma SendCorrected(l: Layer, url: string, env: Env)
    ensures Send(Corrected, l, url, env).layer.timerArmed == l.timerArmed
    ensures Send(Corrected, l, url, env).effects ==
      (if l.pending.Some? then [RequestAborted(l.pending.value.id)] else []) + [RequestSent(l.nextId, url)]
  {}

  /** Corrected: a refresh with a usable filter keeps the timer, and its
      only effects are aborting the outstanding request and sending. */
  lemma RefreshKeepsTimer(l: Layer, nowMs: nat, env: Env)
    requires UsableFilter(l.options)
    ensures var o := Refresh(Corrected, l, nowMs, env);
      && o.layer.timerArmed == l.timerArmed
      && o.effects[..|o.effects| - 1] == if l.pending.Some? then [RequestAborted(l.pending.value.id)] else []
  {
    var url := RefreshIsSend(Corrected, l, nowMs, env);
    SendCorrected(l, url, env);
  }

  lemma SendAsWritten(l: Layer, url: string, env: Env)
    requires l.pending.Some?
    ensures var o := Send(AsWritten, l, url, env);
      var err := Str(NotJsonPrefix + env.emptyBodyError + ")");
      && !o.layer.timerArmed
      && o.effects[..2] == [RequestAborted(l.pending.value.id), ServiceError(err)]
      && (ErrorCallback(err) in o.effects <==> Get(HandlerOptions(l, l.pending.value), "onError").Fn?)
  {
    var err := Str(NotJsonPrefix + env.emptyBodyError + ")");
    var f := Fail(l, HandlerOptions(l, l.pending.value), err);
    var a := Abort(AsWritten, l, env);
    assert a.effects == [RequestAborted(l.pending.value.id)] + f.effects;
    assert Send(AsWritten, l, url, env).effects == a.effects + [RequestSent(l.nextId, url)];
  }

  /** As written: refreshing while a request is outstanding aborts it, and
      the abort runs that request's error path: a "response not json"
      warning, its `onError`, and the timer cleared for good. */
  lemma RefreshDuringRequestStopsTimer(l: Layer, nowMs: nat, env: Env)
    requires UsableFilter(l.options) && l.pending.Some?
    ensures var o := Refresh(AsWritten, l, nowMs, env);
      var err := Str(NotJsonPrefix + env.emptyBodyError + ")");
      && !o.layer.timerArmed
      && o.effects[..2] == [RequestAborted(l.pending.value.id), ServiceError(err)]
      && (ErrorCallback(err) in o.effects <==> Get(HandlerOptions(l, l.pending.value), "onError").Fn?)
  {
    var url := RefreshIsSend(AsWritten, l, nowMs, env);
    SendAsWritten(l, url, env);
  }

  //--------------------------------------------------------------------
  // Properties: responses
  //--------------------------------------------------------------------

  /** A response for anything but the outstanding request changes nothing. */
  lemma StaleResponseIgnored(sem: Semantics, l: Layer, id: nat, response: Response, env: Env)
    requires l.pending.None? || l.pending.value.id != id
    ensures Respond(sem, l, id, response, env) == Outcome(l, [], false)
  {}

  /** The message a response is rejected with, checked in the source's
      order: not JSON, then the service's own error message, then a missing
      `value` array. */
  function Rejection(response: Response): (r: Option<JsValue>)
    ensures response.Json? && response.value.Some? && !(Truthy(response.error) && Truthy(ErrorMessage(response.error))) ==> r.None?
    ensures r.Some? ==> Truthy(r.value)
  {
    match response
    case NotJson(reason) => Some(Str(NotJsonPrefix + reason + ")"))
    case NullJson => None
    case Json(err, value) =>
      if Truthy(err) && Truthy(ErrorMessage(err)) then Some(ErrorMessage(err))
      else if value.None? then Some(Str(NoValueError))
      else None
  }

  /** A rejected response leaves the data, markers and options untouched,
      reports the rejection, calls `onError` when the request's options have
      one, and clears the timer. */
  lemma RejectedResponse(sem: Semantics, l: Layer, response: Response, env: Env)
    requires l.pending.Some? && Rejection(response).Some?
    ensures var o := Respond(sem, l, l.pending.value.id, response, env);
      var err := Rejection(response).value;
      && o.layer == l.(pending := None, timerArmed := false)
      && o.effects[0] == ServiceError(err)
      && (ErrorCallback(err) in o.effects <==> Get(HandlerOptions(l, l.pending.value), "onError").Fn?)
      && !o.threw
  {}

  /** A `null` body makes the handler throw: the request is done but nothing
      else changes. */
  lemma NullResponseThrows(sem: Semantics, l: Layer, env: Env)
    requires l.pending.Some?
    ensures Respond(sem, l, l.pending.value.id, NullJson, env) == Outcome(l.(pending := None), [], true)
  {}

  lemma GetOutside(a: Options, b: Options, k: string, x: string)
    requires a - {x} == b - {x} && k != x
    ensures Get(a, k) == Get(b, k)
  {
    assert k in a <==> k in a - {x};
    assert k in b <==> k in b - {x};
    if k in a { assert (a - {x})[k] == a[k]; assert (b - {x})[k] == b[k]; }
  }

  /** `_redraw` with data: the markers and options the marker loop leaves,
      and no option but `tooltipOptions` changed. */
  lemma RedrawLayerDraws(l: Layer, env: Env)
    requires l.data.Some?
    ensures var o := RedrawLayer(l, env);
      var d := Redraw(l.options, l.data.value, env.host);
      && o.layer == l.(markers := d.markers, options := d.options)
      && o.threw == d.threw
      && CapWarning !in o.effects && SuccessCallback !in o.effects && RefreshCallback !in o.effects
      && o.layer.options - {"tooltipOptions"} == l.options - {"tooltipOptions"}
  {
  }

  /** The redraw only writes `tooltipOptions`, so the callbacks that run
      after it are the ones the layer had before. */
  lemma RedrawKeepsCallbacks(l: Layer, req: Request, env: Env)
    requires l.data.Some?
    ensures var drawn := RedrawLayer(l, env);
      && CapWarning !in drawn.effects && SuccessCallback !in drawn.effects && RefreshCallback !in drawn.effects
      && Get(HandlerOptions(drawn.layer, req), "onRefresh") == Get(HandlerOptions(l, req), "onRefresh")
      && Get(HandlerOptions(drawn.layer, req), "onSuccess") == Get(HandlerOptions(l, req), "onSuccess")
      && Get(drawn.layer.options, "onSuccess") == Get(l.options, "onSuccess")
  {
    var drawn := RedrawLayer(l, env);
    RedrawLayerDraws(l, env);
    GetOutside(drawn.layer.options, l.options, "onRefresh", "tooltipOptions");
    GetOutside(drawn.layer.options, l.options, "onSuccess", "tooltipOptions");
  }

  /** After the redraw the cap warning comes out either way; `onRefresh`
      is called when the redraw finished and the request's options have
      one, and no callback runs when the redraw threw. */
  lemma SettleCallbacks(sem: Semantics, req: Request, capped: bool, drawn: Outcome)
    requires CapWarning !in drawn.effects && RefreshCallback !in drawn.effects && SuccessCallback !in drawn.effects
    ensures var o := Settle(sem, req, capped, drawn);
      && o.layer.data == drawn.layer.data && o.layer.markers == drawn.layer.markers && o.threw == drawn.threw
      && (CapWarning in o.effects <==> capped)
      && (!o.threw ==> (RefreshCallback in o.effects <==> Get(HandlerOptions(drawn.layer, req), "onRefresh").Fn?))
      && (!o.threw ==> (SuccessCallback in o.effects <==>
            Get(if sem == AsWritten then HandlerOptions(drawn.layer, req) else drawn.layer.options, "onSuccess").Fn?))
      && (o.threw ==> RefreshCallback !in o.effects && SuccessCallback !in o.effects)
  {
    if !drawn.threw {
      var done := Succeed(sem, drawn.layer, req);
      assert CapWarning !in done.effects;
      assert (if capped then [CapWarning] else []) + drawn.effects + done.effects
          == (if capped then [CapWarning] else []) + (drawn.effects + done.effects);
    }
  }

  lemma RespondAccepts(sem: Semantics, l: Layer, records: seq<Record>, err: JsValue, env: Env)
    requires l.pending.Some? && !(Truthy(err) && Truthy(ErrorMessage(err)))
    ensures Respond(sem, l, l.pending.value.id, Json(err, Some(records)), env)
      == Accept(sem, l.(pending := None), l.pending.value, records, env)
  {
    AcceptsRequest(sem, l, l.pending.value, records, err, env);
  }

  /** An accepted response is the redraw of the stored records followed by
      the callbacks of the request. */
  lemma AcceptedSettles(sem: Semantics, l: Layer, records: seq<Record>, err: JsValue, env: Env)
    requires l.pending.Some? && !(Truthy(err) && Truthy(ErrorMessage(err)))
    ensures Respond(sem, l, l.pending.value.id, Json(err, Some(records)), env)
      == Settle(sem, l.pending.value, |records| >= NSitesMax,
                RedrawLayer(l.(pending := None).(data := Some(FilterFirst(records, SiteKey))), env))
  {
    RespondAccepts(sem, l, records, err, env);
  }

  lemma AcceptsRequest(sem: Semantics, l: Layer, req: Request, records: seq<Record>, err: JsValue, env: Env)
    requires l.pending == Some(req) && !(Truthy(err) && Truthy(ErrorMessage(err)))
    ensures Respond(sem, l, req.id, Json(err, Some(records)), env) == Accept(sem, l.(pending := None), req, records, env)
  {
  }

  /** An accepted response stores its records with duplicate sites dropped
      (the first record of each site kept, see `Distinct.FilterFirst`) and
      redraws from them; the request is done and the timer untouched. */
  lemma AcceptedResponseStores(sem: Semantics, l: Layer, records: seq<Record>, err: JsValue, env: Env)
    requires l.pending.Some? && !(Truthy(err) && Truthy(ErrorMessage(err)))
    ensures var o := Respond(sem, l, l.pending.value.id, Json(err, Some(records)), env);
      var d := Redraw(l.options, FilterFirst(records, SiteKey), env.host);
      && o.layer.data == Some(FilterFirst(records, SiteKey))
      && o.layer.markers == d.markers && o.threw == d.threw
      && o.layer.pending.None? && o.layer.timerArmed == l.timerArmed
  {
    var req := l.pending.value;
    var l0 := l.(pending := None).(data := Some(FilterFirst(records, SiteKey)));
    var drawn := RedrawLayer(l0, env);
    RespondAccepts(sem, l, records, err, env);
    assert Accept(sem, l.(pending := None), req, records, env) == Settle(sem, req, |records| >= NSitesMax, drawn);
    RedrawLayerDraws(l0, env);
    SettleCallbacks(sem, req, |records| >= NSitesMax, drawn);
  }

  /** An accepted response warns once when the site cap is reached. When
      the redraw finishes it calls `onRefresh` if the request's options have
      one; when the redraw throws, neither `onRefresh` nor `onSuccess` runs
      (see `AcceptedResponseThrows` for when that happens). */
  lemma AcceptedResponseCallbacks(sem: Semantics, l: Layer, records: seq<Record>, err: JsValue, env: Env)
    requires l.pending.Some? && !(Truthy(err) && Truthy(ErrorMessage(err)))
    ensures var o := Respond(sem, l, l.pending.value.id, Json(err, Some(records)), env);
      && (CapWarning in o.effects <==> |records| >= NSitesMax)
      && (!o.threw ==> (RefreshCallback in o.effects <==> Get(HandlerOptions(l, l.pending.value), "onRefresh").Fn?))
      && (!o.threw ==> (SuccessCallback in o.effects <==>
            Get(if sem == AsWritten then HandlerOptions(l, l.pending.value) else l.options, "onSuccess").Fn?))
      && (o.threw ==> RefreshCallback !in o.effects && SuccessCallback !in o.effects)
  {
    var req := l.pending.value;
    var l0 := l.(pending := None).(data := Some(FilterFirst(records, SiteKey)));
    var drawn := RedrawLayer(l0, env);
    AcceptedSettles(sem, l, records, err, env);
    RedrawKeepsCallbacks(l0, req, env);
    SettleCallbacks(sem, req, |records| >= NSitesMax, drawn);
  }

  /** The handler of an accepted response throws exactly when the marker
      factory throws on one of the stored records: the markers of the
      records before it stay, and the callbacks after the redraw are
      skipped. */
  lemma AcceptedResponseThrows(sem: Semantics, l: Layer, records: seq<Record>, err: JsValue, env: Env)
    requires l.pending.Some? && !(Truthy(err) && Truthy(ErrorMessage(err)))
    ensures var o := Respond(sem, l, l.pending.value.id, Json(err, Some(records)), env);
      var kept := FilterFirst(records, SiteKey);
      && (o.threw <==> CrashesOn(l.options, kept, env.host))
      && MarkerPositions(o.layer.markers) == RecordPositions(PlacedRecords(l.options, kept, env.host))
  {
    AcceptedResponseStores(sem, l, records, err, env);
    RedrawMarksAcceptedRecords(l.options, FilterFirst(records, SiteKey), env.host);
  }

  //--------------------------------------------------------------------
  // Properties: options
  //--------------------------------------------------------------------

  /** Creating a layer: every default the user does not override is kept,
      and a user value that is not a plain object is taken as given. */
  lemma CreateMergesDefaults(user: Options)
    ensures var options := Create(user).0.options;
      && (forall k :: k in Defaults && k !in user ==> options[k] == Defaults[k])
      && (forall k :: k in user && !user[k].Obj? ==> options[k] == user[k])
  {
    MergeTwoObjects(Defaults, user);
  }

  /** Options after `setOptions`, outside `tooltipOptions` (which a redraw
      rewrites): the merge of the current options and the changes. */
  lemma ReplaceMerges(l: Layer, changes: Options)
    ensures var options := Replace(l, changes).options;
      && options.Keys == l.options.Keys + changes.Keys
      && (forall k :: k in l.options && k !in changes ==> options[k] == l.options[k])
      && (forall k :: k in changes && !changes[k].Obj? ==> options[k] == changes[k])
  {
    MergeTwoObjects(l.options, changes);
  }

  /** A request's handler keeps seeing the options object it captured
      when `setOptions` replaces `layer.options` before the response. */
  lemma ReplaceKeepsHandlerOptions(l: Layer, changes: Options)
    requires l.pending.Some? && l.pending.value.version <= l.version
    ensures var r := Replace(l, changes);
      r.pending.Some? && HandlerOptions(r, r.pending.value) == HandlerOptions(l, l.pending.value)
  {}

  /** `setOptions` itself calls neither `onSuccess` nor `onRefresh` (those
      wait for the response of the refresh it may start): it warns first
      about the keys that are not options, and without a refresh the
      redraw adds only theme warnings, so no error handler runs either. */
  lemma SetOptionsCallbacks(sem: Semantics, l: Layer, changes: Options, nowMs: nat, env: Env)
    ensures var o := SetOptions(sem, l, changes, nowMs, env);
      && (!(changes.Keys <= Defaults.Keys) ==> 0 < |o.effects| && o.effects[0] == UnrecognizedOptions(changes.Keys - Defaults.Keys))
      && SuccessCallback !in o.effects && RefreshCallback !in o.effects
      && (!NeedRefresh(l.options, changes) ==>
            forall e :: e in o.effects ==> e.UnrecognizedOptions? || e.InvalidThemeWarnings?)
  {
    var r := Reload(sem, Replace(l, changes), NeedRefresh(l.options, changes), nowMs, env);
    assert SetOptions(sem, l, changes, nowMs, env).effects == Unrecognized(changes) + r.effects;
  }

  /** `setOptions` refreshes exactly when a new truthy filter or type
      differs from the current one: a request goes out then (when the merged
      filter is usable), and otherwise no request is sent, the data and the
      timer stay, and the layer is only redrawn. It merges in both cases. */
  lemma SetOptionsRefreshesIff(sem: Semantics, l: Layer, changes: Options, nowMs: nat, env: Env)
    ensures var o := SetOptions(sem, l, changes, nowMs, env);
      var merged := Replace(l, changes);
      && (o.layer.nextId == l.nextId + 1 <==> NeedRefresh(l.options, changes) && UsableFilter(merged.options))
      && (NeedRefresh(l.options, changes) ==> o.layer.options == merged.options && o.layer.markers == l.markers)
      && (!NeedRefresh(l.options, changes) ==>
            o.layer.timerArmed == l.timerArmed && o.layer.data == l.data && o.layer.nextId == l.nextId
            && o.layer.pending == merged.pending)
  {
    var merged := Replace(l, changes);
    if !NeedRefresh(l.options, changes) {
      assert SetOptions(sem, l, changes, nowMs, env).layer == RedrawLayer(merged, env).layer;
    } else {
      assert SetOptions(sem, l, changes, nowMs, env).layer == Refresh(sem, merged, nowMs, env).layer;
    }
  }

  //--------------------------------------------------------------------
  // Properties: radius
  //--------------------------------------------------------------------

  /** With a numeric `autoSize` of `k >= 0` on a map, the radius stored in
      `markerOptions` and given to every marker is `k` times the zoom less
      two, clamped to between `3k` and `8k`. */
  lemma AutoSizeRadius(l: Layer, radius: JsValue, env: Env)
    requires Get(l.options, "autoSize").Num? && Get(l.options, "autoSize").x >= 0.0
    requires l.zoom.Some? && Get(l.options, "markerOptions").Obj?
    ensures var o := SetRadius(l, radius, env);
      var k := Get(l.options, "autoSize").x;
      var z := l.zoom.value;
      var r := Get(Get(o.layer.options, "markerOptions").fields, "radius");
      && !o.threw
      && r.Num? && 3.0 * k <= r.x <= 8.0 * k
      && (5.0 <= z <= 10.0 ==> r.x == k * (z - 2.0))
      && |o.layer.markers| == |l.markers|
      && (k > 0.0 ==> forall i :: 0 <= i < |o.layer.markers| ==> o.layer.markers[i].radius == r)
  {
    var k := Get(l.options, "autoSize").x;
    var c := Clamp(l.zoom.value - 2.0);
    AutoSizeOutcome(l, radius, env, k, l.zoom.value);
    var o := SetRadius(l, radius, env);
    var r := Get(Get(o.layer.options, "markerOptions").fields, "radius");
    var x := k * c;
    assert AutoRadius(k, l.zoom.value) == x;
    assert r == Num(x);
    ScaledBetween(k, c, x);
    assert 3.0 * k <= r.x <= 8.0 * k;
    assert k > 0.0 ==> Truthy(r);
  }

  /** Under a numeric `autoSize` on a map, `setRadius` stores the scaled
      clamped zoom. */
  lemma AutoSizeOutcome(l: Layer, radius: JsValue, env: Env, k: real, z: real)
    requires Get(l.options, "autoSize") == Num(k) && l.zoom == Some(z)
    ensures SetRadius(l, radius, env) == StoreRadius(l, Num(AutoRadius(k, z)))
  {
    var auto := Get(l.options, "autoSize");
    assert !(auto == Bool(false) && radius.Undefined?);
    assert !((auto.Num? || auto.Fn?) && l.zoom.None?);
  }

  lemma ScaledBetween(k: real, c: real, x: real)
    requires k >= 0.0 && 3.0 <= c <= 8.0 && x == k * c
    ensures 3.0 * k <= x <= 8.0 * k
    ensures k > 0.0 ==> x != 0.0
  {
    assert k * (c - 3.0) >= 0.0;
    assert k * (8.0 - c) >= 0.0;
  }

  /** The other cases of `setRadius`: with `autoSize` false and no argument
      nothing happens; an `autoSize` that needs the zoom throws off a map;
      otherwise a function `autoSize` decides the radius and any other
      `autoSize` passes the argument through; a null or undefined
      `markerOptions` throws. */
  lemma SetRadiusCases(l: Layer, radius: JsValue, env: Env)
    ensures var auto := Get(l.options, "autoSize");
      var o := SetRadius(l, radius, env);
      var given := Get(l.options, "markerOptions");
      var stored := Get(OwnProps(Get(o.layer.options, "markerOptions")), "radius");
      && (auto == Bool(false) && radius.Undefined? ==> o == Outcome(l, [], false))
      && ((auto.Num? || auto.Fn?) && l.zoom.None? ==> o.threw && o.layer == l)
      && (!(auto == Bool(false) && radius.Undefined?) && !(auto.Num? || auto.Fn?) && given.Obj? ==> !o.threw && stored == radius)
      && (auto.Fn? && l.zoom.Some? && given.Obj? ==> !o.threw && stored == env.sizeFor(auto.name, l.zoom.value))
      && ((!(auto == Bool(false) && radius.Undefined?) && (auto.Num? || auto.Fn? ==> l.zoom.Some?)
           && (given.Null? || given.Undefined?)) ==> o.threw && o.layer == l)
  {}

  //--------------------------------------------------------------------
  // Properties: timer and map
  //--------------------------------------------------------------------

  /** A timer tick refreshes exactly when the timer is still set, auto
      refresh is on, the layer is on a map and no popup is open; otherwise
      it changes nothing. */
  lemma TickGuard(sem: Semantics, l: Layer, popupOpen: bool, nowMs: nat, env: Env)
    ensures var o := StepWith(sem, l, Tick(popupOpen, nowMs), env);
      && (!TickRefreshes(l, popupOpen) ==> o == Outcome(l, [], false))
      && (o.layer.nextId == l.nextId + 1 <==> TickRefreshes(l, popupOpen) && UsableFilter(l.options))
  {}

  /** A layer on no map (never added, or removed) ignores ticks and zoom
      changes. */
  lemma DetachedLayerIsIdle(sem: Semantics, l: Layer, popupOpen: bool, nowMs: nat, zoom: real, env: Env)
    requires l.zoom.None?
    ensures StepWith(sem, l, Tick(popupOpen, nowMs), env) == Outcome(l, [], false)
    ensures StepWith(sem, l, ZoomEnd(zoom), env) == Outcome(l, [], false)
  {}

  /** The map's zoom is read afresh: once the layer is on a map, a zoom
      change is recorded whether or not the `zoomend` handler was
      registered, and without the handler nothing else happens. */
  lemma ZoomEndTracksMap(sem: Semantics, l: Layer, zoom: real, env: Env)
    requires l.zoom.Some?
    ensures var o := StepWith(sem, l, ZoomEnd(zoom), env);
      && o.layer.zoom == Some(zoom)
      && (!l.zoomListening ==> o == Outcome(l.(zoom := Some(zoom)), [], false))
      && (l.zoomListening ==> o == SetRadius(l.(zoom := Some(zoom)), Undefined, env))
  {}

  /** Adding the layer to a map fetches only when it has no data yet. */
  lemma AddFetchesOnce(sem: Semantics, l: Layer, zoom: real, nowMs: nat, env: Env)
    ensures var o := AddToMap(sem, l, zoom, nowMs, env);
      o.layer.nextId == l.nextId + 1 <==> l.data.None? && UsableFilter(l.options)
  {
    var l1 := l.(zoom := Some(zoom));
    if l1.data.None? {
      var refreshed := Refresh(sem, l1, nowMs, env);
      if !refreshed.threw {
        var sized := SetRadius(refreshed.layer, Undefined, env);
        assert sized.layer.nextId == refreshed.layer.nextId;
      }
    }
  }

  /** The refresh timer, once cleared, is never set again. */
  lemma {:induction false} TimerNeverRestarts(sem: Semantics, l: Layer, events: seq<Event>, env: Env)
    requires !l.timerArmed
    ensures !Run(sem, l, events, env).0.timerArmed
    decreases |events|
  {
    if events != [] {
      TimerNeverRestarts(sem, StepWith(sem, l, events[0], env).layer, events[1..], env);
    }
  }

  /** The outstanding request is always the latest one sent. */
  lemma {:induction false} RunKeepsValid(sem: Semantics, l: Layer, events: seq<Event>, env: Env)
    requires Valid(l)
    ensures Valid(Run(sem, l, events, env).0)
    decreases |events|
  {
    if events != [] {
      RunKeepsValid(sem, StepWith(sem, l, events[0], env).layer, events[1..], env);
    }
  }

  //--------------------------------------------------------------------
  // Properties: the one-time success callback
  //--------------------------------------------------------------------

  /** How many times `onSuccess` was called. */
  function Fired(effects: seq<Effect>): (n: nat)
    ensures n <= |effects|
    ensures n == 0 <==> SuccessCallback !in effects
  {
    if effects == [] then 0
    else (if effects[0] == SuccessCallback then 1 else 0) + Fired(effects[1..])
  }

  lemma {:induction false} FiredAppend(a: seq<Effect>, b: seq<Effect>)
    ensures Fired(a + b) == Fired(a) + Fired(b)
    decreases |a|
  {
    if a == [] {
      assert a + b == b;
    } else {
      assert (a + b)[0] == a[0] && (a + b)[1..] == a[1..] + b;
      FiredAppend(a[1..], b);
    }
  }

  /** One call of `onSuccess` still to come, while the layer's options hold
      a function under that name. */
  function Armed(l: Layer): nat {
    if Get(l.options, "onSuccess").Fn? then 1 else 0
  }

  predicate KeepsOnSuccessOff(e: Event) {
    e.SetOptionsCall? ==> !Get(e.changes, "onSuccess").Fn?
  }

  lemma RedrawLayerKeepsOnSuccess(l: Layer, env: Env)
    ensures Armed(RedrawLayer(l, env).layer) == Armed(l)
    ensures SuccessCallback !in RedrawLayer(l, env).effects
  {
    if l.data.Some? {
      RedrawLayerDraws(l, env);
      GetOutside(RedrawLayer(l, env).layer.options, l.options, "onSuccess", "tooltipOptions");
    }
  }

  lemma SucceedSpends(l: Layer, req: Request)
    ensures var o := Succeed(Corrected, l, req);
      Fired(o.effects) + Armed(o.layer) <= Armed(l)
  {
    var o := Succeed(Corrected, l, req);
    var tail := if Get(HandlerOptions(l, req), "onRefresh").Fn? then [RefreshCallback] else [];
    assert Fired(tail) == 0;
    if Get(l.options, "onSuccess").Fn? {
      FiredAppend([SuccessCallback], tail);
      assert o.effects == [SuccessCallback] + tail;
      assert "onSuccess" !in o.layer.options;
    } else {
      assert o.effects == tail;
    }
  }

  lemma SettleSpends(req: Request, capped: bool, drawn: Outcome)
    requires SuccessCallback !in drawn.effects
    ensures var o := Settle(Corrected, req, capped, drawn);
      Fired(o.effects) + Armed(o.layer) <= Armed(drawn.layer)
  {
    var cap := if capped then [CapWarning] else [];
    if drawn.threw {
      FiredAppend(cap, drawn.effects);
    } else {
      var done := Succeed(Corrected, drawn.layer, req);
      SucceedSpends(drawn.layer, req);
      FiredAppend(cap, drawn.effects);
      FiredAppend(cap + drawn.effects, done.effects);
    }
  }

  lemma RespondSpends(l: Layer, id: nat, response: Response, env: Env)
    ensures var o := Respond(Corrected, l, id, response, env);
      Fired(o.effects) + Armed(o.layer) <= Armed(l)
  {
    if l.pending.Some? && l.pending.value.id == id && response.Json? && response.value.Some?
       && !(Truthy(response.error) && Truthy(ErrorMessage(response.error)))
    {
      AcceptSpends(l, l.pending.value, response.value.value, response.error, env);
    }
  }

  lemma AcceptSpends(l: Layer, req: Request, records: seq<Record>, err: JsValue, env: Env)
    requires l.pending == Some(req) && !(Truthy(err) && Truthy(ErrorMessage(err)))
    ensures var o := Respond(Corrected, l, req.id, Json(err, Some(records)), env);
      Fired(o.effects) + Armed(o.layer) <= Armed(l)
  {
    var l0 := l.(pending := None).(data := Some(FilterFirst(records, SiteKey)));
    var drawn := RedrawLayer(l0, env);
    AcceptsRequest(Corrected, l, req, records, err, env);
    assert Accept(Corrected, l.(pending := None), req, records, env) == Settle(Corrected, req, |records| >= NSitesMax, drawn);
    RedrawLayerKeepsOnSuccess(l0, env);
    SettleSpends(req, |records| >= NSitesMax, drawn);
  }

  lemma ReplaceSpends(l: Layer, changes: Options)
    requires !Get(changes, "onSuccess").Fn?
    ensures Armed(Replace(l, changes)) <= Armed(l)
  {
    var k := "onSuccess";
    MergeOntoObject(l.options, Obj(changes));
    var merged := MergeProps(true, l.options, changes);
    if k in changes && changes[k].Obj? {
      assert merged[k] == MergeValue(Get(l.options, k), changes[k]);
    } else if k !in changes {
      assert Get(merged, k) == Get(l.options, k);
    }
  }

  lemma SetOptionsSpends(l: Layer, changes: Options, nowMs: nat, env: Env)
    requires !Get(changes, "onSuccess").Fn?
    ensures var o := SetOptions(Corrected, l, changes, nowMs, env);
      Fired(o.effects) + Armed(o.layer) <= Armed(l)
  {
    var r := Replace(l, changes);
    ReplaceSpends(l, changes);
    var o := Reload(Corrected, r, NeedRefresh(l.options, changes), nowMs, env);
    if !NeedRefresh(l.options, changes) {
      RedrawLayerKeepsOnSuccess(r, env);
    }
    assert Fired(Unrecognized(changes)) == 0;
    FiredAppend(Unrecognized(changes), o.effects);
  }

  lemma SetRadiusKeepsOnSuccess(l: Layer, radius: JsValue, env: Env)
    ensures Armed(SetRadius(l, radius, env).layer) == Armed(l)
  {}

  lemma AddSpends(l: Layer, zoom: real, nowMs: nat, env: Env)
    ensures var o := AddToMap(Corrected, l, zoom, nowMs, env);
      Fired(o.effects) + Armed(o.layer) <= Armed(l)
  {
    var l1 := l.(zoom := Some(zoom));
    var refreshed := if l1.data.None? then Refresh(Corrected, l1, nowMs, env) else Outcome(l1, [], false);
    if !refreshed.threw {
      SetRadiusKeepsOnSuccess(refreshed.layer, Undefined, env);
    }
  }

  /** Corrected: no event but `setOptions` with a new function can raise
      the number of `onSuccess` calls still to come, and every call made
      uses one up. */
  lemma StepSpends(l: Layer, e: Event, env: Env)
    requires KeepsOnSuccessOff(e)
    ensures var o := StepWith(Corrected, l, e, env);
      Fired(o.effects) + Armed(o.layer) <= Armed(l)
  {
    match e
    case RefreshCall(nowMs) =>
    case Response(id, response) => RespondSpends(l, id, response, env);
    case SetOptionsCall(changes, nowMs) => SetOptionsSpends(l, changes, nowMs, env);
    case SetRadiusCall(radius) => SetRadiusKeepsOnSuccess(l, radius, env);
    case Tick(popupOpen, nowMs) =>
    case Add(zoom, nowMs) => AddSpends(l, zoom, nowMs, env);
    case Remove =>
    case ZoomEnd(zoom) =>
      if l.zoom.Some? && l.zoomListening {
        SetRadiusKeepsOnSuccess(l.(zoom := Some(zoom)), Undefined, env);
      }
  }

  /** Corrected: `onSuccess` is called at most once over any run in which
      no `setOptions` installs a new one. */
  lemma {:induction false} OnSuccessAtMostOnce(l: Layer, events: seq<Event>, env: Env)
    requires forall i :: 0 <= i < |events| ==> KeepsOnSuccessOff(events[i])
    ensures var r := Run(Corrected, l, events, env);
      Fired(r.1) + Armed(r.0) <= Armed(l) <= 1
    decreases |events|
  {
    if events != [] {
      var o := StepWith(Corrected, l, events[0], env);
      StepSpends(l, events[0], env);
      OnSuccessAtMostOnce(o.layer, events[1..], env);
      FiredAppend(o.effects, Run(Corrected, o.layer, events[1..], env).1);
    }
  }

  /** An empty `value` array is accepted: nothing to draw, and the success
      tail runs on the layer as it was. */
  lemma EmptyResponse(sem: Semantics, l: Layer, env: Env)
    requires l.pending.Some?
    ensures Respond(sem, l, l.pending.value.id, Json(Undefined, Some([])), env)
      == Settle(sem, l.pending.value, false, Outcome(l.(pending := None, data := Some([]), markers := []), [], false))
  {
    var req := l.pending.value;
    assert FilterFirst([], SiteKey) == [];
    RespondAccepts(sem, l, [], Undefined, env);
    var l0 := l.(pending := None).(data := Some([]));
    assert Redraw(l0.options, [], env.host) == Drawn([], 0, l0.options, false);
  }

  /** A success for the current options object calls `onSuccess` when the
      layer has one (either semantics). */
  lemma SuccessForCurrentOptions(sem: Semantics, l: Layer, env: Env)
    requires l.pending.Some? && l.pending.value.version == l.version && Get(l.options, "onSuccess").Fn?
    ensures Fired(Respond(sem, l, l.pending.value.id, Json(Undefined, Some([])), env).effects) == 1
  {
    var req := l.pending.value;
    var drawn := Outcome(l.(pending := None, data := Some([]), markers := []), [], false);
    EmptyResponse(sem, l, env);
    SettleSpends(req, false, drawn);
    var done := Succeed(sem, drawn.layer, req);
    assert done.effects[0] == SuccessCallback;
    assert Settle(sem, req, false, drawn).effects == [] + [] + done.effects;
  }

  /** As written: a success for a request made under a replaced options
      object calls the `onSuccess` of that old object and deletes it there,
      so the layer's own `onSuccess` stays armed. */
  lemma StaleSuccessKeepsOnSuccessAsWritten(l: Layer, env: Env)
    requires l.pending.Some? && l.pending.value.version != l.version
    requires Get(l.pending.value.captured, "onSuccess").Fn?
    ensures var o := Respond(AsWritten, l, l.pending.value.id, Json(Undefined, Some([])), env);
      && Fired(o.effects) == 1
      && o.layer.options == l.options
  {
    var req := l.pending.value;
    var drawn := Outcome(l.(pending := None, data := Some([]), markers := []), [], false);
    EmptyResponse(AsWritten, l, env);
    var done := Succeed(AsWritten, drawn.layer, req);
    assert done.effects[0] == SuccessCallback;
    assert Fired(done.effects) == 1 by {
      var tail := if Get(req.captured, "onRefresh").Fn? then [RefreshCallback] else [];
      assert done.effects == [SuccessCallback] + tail;
      FiredAppend([SuccessCallback], tail);
    }
    assert Settle(AsWritten, req, false, drawn).effects == [] + [] + done.effects;
  }

  /** Corrected: the same success calls the layer's own `onSuccess` and
      removes it, so it cannot be called again. */
  lemma StaleSuccessUsesOnSuccess(l: Layer, env: Env)
    requires l.pending.Some? && Get(l.options, "onSuccess").Fn?
    ensures var o := Respond(Corrected, l, l.pending.value.id, Json(Undefined, Some([])), env);
      Fired(o.effects) == 1 && Armed(o.layer) == 0
  {
    var req := l.pending.value;
    var drawn := Outcome(l.(pending := None, data := Some([]), markers := []), [], false);
    EmptyResponse(Corrected, l, env);
    SettleSpends(req, false, drawn);
    var done := Succeed(Corrected, drawn.layer, req);
    assert done.effects[0] == SuccessCallback;
    assert Settle(Corrected, req, false, drawn).effects == [] + [] + done.effects;
  }

  /** `setOptions` without a refresh is a merge followed by `_redraw`. */
  lemma SetOptionsRedraws(sem: Semantics, l: Layer, changes: Options, nowMs: nat, env: Env)
    requires !NeedRefresh(l.options, changes)
    ensures var r := RedrawLayer(Replace(l, changes), env);
      SetOptions(sem, l, changes, nowMs, env) == r.(effects := Unrecognized(changes) + r.effects)
  {}

  /** A redraw leaves every option but `tooltipOptions` alone. */
  lemma RedrawLayerKeeps(l: Layer, env: Env, k: string)
    requires k != "tooltipOptions"
    ensures Get(RedrawLayer(l, env).layer.options, k) == Get(l.options, k)
    ensures RedrawLayer(l, env).layer.pending == l.pending
    ensures SuccessCallback !in RedrawLayer(l, env).effects
  {
    if l.data.Some? {
      RedrawLayerDraws(l, env);
      GetOutside(RedrawLayer(l, env).layer.options, l.options, k, "tooltipOptions");
    }
  }

  lemma QuietRedraw(l: Layer, changes: Options, env: Env)
    requires "filter" !in changes && "onSuccess" !in changes
    ensures var o := RedrawLayer(Replace(l, changes), env);
      && o.layer.pending == Replace(l, changes).pending
      && o.layer.nextId == l.nextId
      && Get(o.layer.options, "onSuccess") == Get(l.options, "onSuccess")
      && Get(o.layer.options, "filter") == Get(l.options, "filter")
      && SuccessCallback !in o.effects
  {
    var r := Replace(l, changes);
    ReplaceMerges(l, changes);
    assert Get(r.options, "onSuccess") == Get(l.options, "onSuccess");
    assert Get(r.options, "filter") == Get(l.options, "filter");
    RedrawLayerKeeps(r, env, "onSuccess");
    RedrawLayerKeeps(r, env, "filter");
  }

  /** `setOptions` that changes neither filter, type nor `onSuccess`: no
      request, the outstanding one now belongs to the old options object,
      and the filter and `onSuccess` are as before. */
  lemma QuietSetOptions(sem: Semantics, l: Layer, changes: Options, nowMs: nat, env: Env)
    requires "filter" !in changes && "type" !in changes && "onSuccess" !in changes
    ensures var o := SetOptions(sem, l, changes, nowMs, env);
      && o.layer.pending == Replace(l, changes).pending
      && o.layer.nextId == l.nextId
      && Get(o.layer.options, "onSuccess") == Get(l.options, "onSuccess")
      && Get(o.layer.options, "filter") == Get(l.options, "filter")
      && SuccessCallback !in o.effects
  {
    SetOptionsRedraws(sem, l, changes, nowMs, env);
    QuietRedraw(l, changes, env);
  }

  /** As written: options that change neither filter, type nor
      `onSuccess` are set while a request is out, and that request then
      succeeds. `onSuccess` is called, yet the layer's options still hold
      it, so the next success calls it again (`SuccessForCurrentOptions`):
      one call made plus one still to come breaks the budget that
      `OnSuccessAtMostOnce` keeps for the corrected handler. */
  lemma OnSuccessSurvivesAsWritten(l: Layer, changes: Options, nowMs: nat, env: Env)
    requires l.pending.Some? && l.pending.value.version == l.version
    requires Get(l.options, "onSuccess").Fn?
    requires "filter" !in changes && "type" !in changes && "onSuccess" !in changes
    ensures var o1 := SetOptions(AsWritten, l, changes, nowMs, env);
      var o2 := Respond(AsWritten, o1.layer, l.pending.value.id, Json(Undefined, Some([])), env);
      && Fired(o1.effects) == 0 && Fired(o2.effects) == 1
      && Armed(o2.layer) == 1
      && Fired(o1.effects) + Fired(o2.effects) + Armed(o2.layer) > Armed(l)
  {
    var req := l.pending.value;
    var o1 := SetOptions(AsWritten, l, changes, nowMs, env);
    QuietSetOptions(AsWritten, l, changes, nowMs, env);
    assert o1.layer.pending == Some(req.(captured := l.options));
    StaleSuccessKeepsOnSuccessAsWritten(o1.layer, env);
  }
}

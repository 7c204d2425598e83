/** The options object of a FancyLoad instance and how the constructor merges
    it over the defaults (`Object.assign({...defaults}, options)`). */
module Options {
  import opened Results
  import opened Js

  ghost predicate DistinctKeys(entries: seq<(string, JsValue)>) {
    forall i, j :: 0 <= i < j < |entries| ==> entries[i].0 != entries[j].0
  }

  /** The `style` option: CSS property name (or the pseudo-keys "scale" and
      "rotate") to its entry value, in `Object.keys` order. An object's keys
      are distinct. */
  type StyleSpec = entries: seq<(string, JsValue)> | DistinctKeys(entries)

  /** True iff `key` is one of the own keys of the style option. */
  predicate Configured(spec: StyleSpec, key: string) {
    exists i :: 0 <= i < |spec| && spec[i].0 == key
  }

  /** `this.options.style[key]`: the configured value, or `undefined`. */
  function Lookup(spec: StyleSpec, key: string): (v: JsValue)
    ensures forall i :: 0 <= i < |spec| && spec[i].0 == key ==> v == spec[i].1
    ensures !Configured(spec, key) ==> v == Undefined
  {
    LookupFrom(spec, key, 0)
  }

  function LookupFrom(spec: StyleSpec, key: string, j: nat): (v: JsValue)
    requires j <= |spec|
    decreases |spec| - j
    ensures forall i :: j <= i < |spec| && spec[i].0 == key ==> v == spec[i].1
    ensures (forall i :: j <= i < |spec| ==> spec[i].0 != key) ==> v == Undefined
  {
    if j == |spec| then Undefined
    else if spec[j].0 == key then spec[j].1
    else LookupFrom(spec, key, j + 1)
  }

  /** The merged options held in `this.options`. `duration` and
      `timingFunction` are only ever interpolated into a string; `delay` is
      multiplied by element indices; the two width bounds are stored but, as
      the constructor is written, never read. */
  datatype Options = Options(
    style: StyleSpec,
    duration: JsValue,
    timingFunction: JsValue,
    delay: int,
    windowMinWidth: int,
    windowMaxWidth: int)

  /** The caller's options object: `None` for a property it does not have. */
  datatype UserOptions = UserOptions(
    style: Option<StyleSpec>,
    duration: Option<JsValue>,
    timingFunction: Option<JsValue>,
    delay: Option<int>,
    windowMinWidth: Option<int>,
    windowMaxWidth: Option<int>)

  /** The object the constructor merges the caller's options over. */
  const Defaults: Options :=
    Options([], Num("0.3"), Str("ease-out"), 100, 1024, 99999)

  /** The default parameter used when no options object is passed at all. */
  const DefaultArgument: UserOptions :=
    UserOptions(Some([("top", Str("100px")), ("opacity", Num("0"))]), None, None, None, None, None)

  /** `Object.assign` for one property: the caller's value wins when present. */
  function Override<T>(supplied: Option<T>, default: T): T {
    match supplied
    case Some(v) => v
    case None => default
  }

  /** The constructor's option merge. */
  function Merge(options: Option<UserOptions>): (r: Options)
    ensures options.None? ==> r.style == [("top", Str("100px")), ("opacity", Num("0"))]
    ensures options.None? ==> r.(style := []) == Defaults
    ensures options.Some? ==>
      var u := options.value;
      && (u.style.Some? ==> r.style == u.style.value)
      && (u.style.None? ==> r.style == [])
      && (u.duration.Some? ==> r.duration == u.duration.value)
      && (u.duration.None? ==> r.duration == Num("0.3"))
      && (u.timingFunction.Some? ==> r.timingFunction == u.timingFunction.value)
      && (u.timingFunction.None? ==> r.timingFunction == Str("ease-out"))
      && (u.delay.Some? ==> r.delay == u.delay.value)
      && (u.delay.None? ==> r.delay == 100)
      && (u.windowMinWidth.Some? ==> r.windowMinWidth == u.windowMinWidth.value)
      && (u.windowMinWidth.None? ==> r.windowMinWidth == 1024)
      && (u.windowMaxWidth.Some? ==> r.windowMaxWidth == u.windowMaxWidth.value)
      && (u.windowMaxWidth.None? ==> r.windowMaxWidth == 99999)
  {
    var u := Override(options, DefaultArgument);
    Options(
      Override(u.style, Defaults.style),
      Override(u.duration, Defaults.duration),
      Override(u.timingFunction, Defaults.timingFunction),
      Override(u.delay, Defaults.delay),
      Override(u.windowMinWidth, Defaults.windowMinWidth),
      Override(u.windowMaxWidth, Defaults.windowMaxWidth))
  }
}

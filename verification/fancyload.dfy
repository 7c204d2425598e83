/** The FancyLoad class: it captures the inline styles of a group of elements,
    puts the elements into an offset "entry" state, and, once the group is in
    view, restores every configured property of element i after `delay * i`
    milliseconds. The window, the layout and the timers are parameters. */
module FancyLoad {
  import opened Results
  import opened Js
  import opened Style
  import opened Options

  const TransformProperty := "transform"
  const PositionProperty := "position"
  const TransitionProperty := "transition"

  /** A target element: its inline style and the two layout readings the
      constructor takes from it. The readings are those of construction time
      and are carried along unchanged; later layout is not modelled. */
  datatype Element = Element(style: StyleMap, offsetTop: int, offsetHeight: int)

  /** `this.initialPosition`: the cached vertical extent of the first element. */
  datatype Position = Position(top: int, bottom: int)

  /** One entry of `this.initialStyles`: property name to captured value. */
  type Snapshot = map<string, JsValue>

  /** The pseudo-keys that are composed into the `transform` property. */
  predicate IsTransformKey(key: string) {
    key == "scale" || key == "rotate"
  }

  /** The snapshot entry, and the style property, that a configured key
      captures and restores. */
  function Target(key: string): string {
    if IsTransformKey(key) then TransformProperty else key
  }

  /** `getPropertyDefault`: the value captured for a property that has no
      inline value. It is never empty, so a captured value always restores
      to something. */
  function PropertyDefault(property: string): (v: JsValue)
    ensures ToText(v) != ""
    ensures Truthy(v) <==> property == "opacity" || property == TransformProperty
    ensures v.Str? <==> property == TransformProperty
    ensures ToText(v) == (if property == "opacity" then "1"
                          else if property == TransformProperty then "scale(1) rotate(0deg)"
                          else "0")
  {
    match property
    case "opacity" => Num("1")
    case "transform" => Str("scale(1) rotate(0deg)")
    case _ => Num("0")
  }

  /** `element.style[property] || this.getPropertyDefault(property)`. */
  function InlineOrDefault(style: StyleMap, property: string): JsValue {
    Or(Str(Get(style, property)), PropertyDefault(property))
  }

  // ---------------------------------------------------------------------------
  // Snapshot capture

  /** The targets of the configured keys from index `j` on. */
  function TargetsFrom(spec: StyleSpec, j: nat): set<string> {
    set i | j <= i < |spec| :: Target(spec[i].0)
  }

  /** The snapshot entries and style properties the style option touches. */
  function Targets(spec: StyleSpec): set<string> {
    TargetsFrom(spec, 0)
  }

  lemma TargetsFromStep(spec: StyleSpec, j: nat)
    requires j < |spec|
    ensures TargetsFrom(spec, j) == {Target(spec[j].0)} + TargetsFrom(spec, j + 1)
  {
    assert Target(spec[j].0) in TargetsFrom(spec, j);
  }

  /** The `forEach` over the configured keys that fills one snapshot. */
  function CaptureFrom(style: StyleMap, spec: StyleSpec, j: nat, acc: Snapshot): (snap: Snapshot)
    requires j <= |spec|
    decreases |spec| - j
    ensures snap.Keys == acc.Keys + TargetsFrom(spec, j)
    ensures forall t :: t in TargetsFrom(spec, j) ==> snap[t] == InlineOrDefault(style, t)
    ensures forall t :: t in acc && t !in TargetsFrom(spec, j) ==> snap[t] == acc[t]
  {
    if j == |spec| then acc
    else
      TargetsFromStep(spec, j);
      var t := Target(spec[j].0);
      CaptureFrom(style, spec, j + 1, acc[t := InlineOrDefault(style, t)])
  }

  /** `transform` is a target exactly when `scale`, `rotate` or `transform`
      itself is configured. */
  lemma TransformTarget(spec: StyleSpec)
    ensures TransformProperty in Targets(spec) <==>
      Configured(spec, "scale") || Configured(spec, "rotate") || Configured(spec, TransformProperty)
  {
    if Configured(spec, "scale") || Configured(spec, "rotate") || Configured(spec, TransformProperty) {
      var i :| 0 <= i < |spec| && spec[i].0 in {"scale", "rotate", TransformProperty};
      assert Target(spec[i].0) == TransformProperty;
    }
  }

  /** The snapshot of one element: every configured key's inline value or
      its default, `scale` and `rotate` both captured as `transform`, then
      `position` and `transition` copied verbatim. */
  function CaptureElement(style: StyleMap, spec: StyleSpec): (snap: Snapshot)
    ensures snap.Keys == Targets(spec) + {PositionProperty, TransitionProperty}
    ensures forall t :: t in Targets(spec) && t != PositionProperty && t != TransitionProperty ==>
      snap[t] == InlineOrDefault(style, t)
    ensures snap[PositionProperty] == Str(Get(style, PositionProperty))
    ensures snap[TransitionProperty] == Str(Get(style, TransitionProperty))
    ensures TransformProperty in snap <==>
      Configured(spec, "scale") || Configured(spec, "rotate") || Configured(spec, TransformProperty)
  {
    TransformTarget(spec);
    var captured := CaptureFrom(style, spec, 0, map[]);
    captured[PositionProperty := Str(Get(style, PositionProperty))]
            [TransitionProperty := Str(Get(style, TransitionProperty))]
  }

  /** `this.initialStyles`: one snapshot per element, index-aligned. */
  function Capture(elements: seq<Element>, spec: StyleSpec): (snaps: seq<Snapshot>)
    ensures |snaps| == |elements|
    ensures forall i :: 0 <= i < |elements| ==> snaps[i] == CaptureElement(elements[i].style, spec)
    ensures forall i, t :: 0 <= i < |elements| && t in Targets(spec) && t != PositionProperty && t != TransitionProperty ==>
      t in snaps[i] && snaps[i][t] == InlineOrDefault(elements[i].style, t)
    ensures forall i :: 0 <= i < |elements| ==>
      && PositionProperty in snaps[i] && TransitionProperty in snaps[i]
      && snaps[i][PositionProperty] == Str(Get(elements[i].style, PositionProperty))
      && snaps[i][TransitionProperty] == Str(Get(elements[i].style, TransitionProperty))
  {
    seq(|elements|, i requires 0 <= i < |elements| => CaptureElement(elements[i].style, spec))
  }

  // ---------------------------------------------------------------------------
  // Entry state

  /** The tokens pushed onto the `transform` array: `scale(s)` when the scale
      option is truthy, then `rotate(r deg)` when the rotate option is. */
  function TransformTokens(spec: StyleSpec): (tokens: seq<string>)
    ensures |tokens| == (if Truthy(Lookup(spec, "scale")) then 1 else 0) + (if Truthy(Lookup(spec, "rotate")) then 1 else 0)
    ensures |tokens| == 0 <==> !Truthy(Lookup(spec, "scale")) && !Truthy(Lookup(spec, "rotate"))
    ensures Truthy(Lookup(spec, "scale")) ==> tokens[0] == "scale(" + ToText(Lookup(spec, "scale")) + ")"
    ensures Truthy(Lookup(spec, "rotate")) ==>
      tokens[|tokens| - 1] == "rotate(" + ToText(Lookup(spec, "rotate")) + "deg)"
  {
    var scale := Lookup(spec, "scale");
    var rotate := Lookup(spec, "rotate");
    (if Truthy(scale) then ["scale(" + ToText(scale) + ")"] else [])
    + (if Truthy(rotate) then ["rotate(" + ToText(rotate) + "deg)"] else [])
  }

  /** `Array.prototype.join(sep)`. */
  function Join(tokens: seq<string>, sep: string): string {
    if |tokens| == 0 then ""
    else if |tokens| == 1 then tokens[0]
    else tokens[0] + sep + Join(tokens[1..], sep)
  }

  /** The configured non-transform keys from index `j` on. */
  function WrittenFrom(spec: StyleSpec, j: nat): set<string> {
    set i | j <= i < |spec| && !IsTransformKey(spec[i].0) :: spec[i].0
  }

  /** The `forEach` that writes every configured key other than `scale` and
      `rotate` to the element's style. */
  function WriteFrom(style: StyleMap, spec: StyleSpec, j: nat): (r: StyleMap)
    requires j <= |spec|
    decreases |spec| - j
    ensures r.Keys == style.Keys + WrittenFrom(spec, j)
    ensures forall i :: j <= i < |spec| && !IsTransformKey(spec[i].0) ==> r[spec[i].0] == ToText(spec[i].1)
    ensures forall p :: p in style && p !in WrittenFrom(spec, j) ==> r[p] == style[p]
  {
    if j == |spec| then style
    else
      var key := spec[j].0;
      assert WrittenFrom(spec, j) == (if IsTransformKey(key) then {} else {key}) + WrittenFrom(spec, j + 1) by {
        if !IsTransformKey(key) { assert key in WrittenFrom(spec, j); }
      }
      if IsTransformKey(key) then WriteFrom(style, spec, j + 1)
      else WriteFrom(Assign(style, key, spec[j].1), spec, j + 1)
  }

  /** The value `setInitialState` gives the `transition` property. */
  function TransitionValue(opts: Options): string {
    "all " + ToText(opts.duration) + "s " + ToText(opts.timingFunction)
  }

  /** The joined `transform` tokens, case by case. */
  lemma TransformValueCases(spec: StyleSpec)
    ensures
      var scale := Lookup(spec, "scale");
      var rotate := Lookup(spec, "rotate");
      var v := Join(TransformTokens(spec), " ");
      && (Truthy(scale) && Truthy(rotate) ==> v == "scale(" + ToText(scale) + ") rotate(" + ToText(rotate) + "deg)")
      && (Truthy(scale) && !Truthy(rotate) ==> v == "scale(" + ToText(scale) + ")")
      && (!Truthy(scale) && Truthy(rotate) ==> v == "rotate(" + ToText(rotate) + "deg)")
      && (!Truthy(scale) && !Truthy(rotate) ==> v == "")
  {
    var tokens := TransformTokens(spec);
    if |tokens| == 2 {
      assert Join(tokens, " ") == tokens[0] + " " + tokens[1];
    }
  }

  /** A key written by the entry-state `forEach` is a configured key other
      than `scale` and `rotate`. */
  lemma WrittenAreConfigured(spec: StyleSpec, p: string)
    requires p in WrittenFrom(spec, 0)
    ensures Configured(spec, p) && !IsTransformKey(p)
  {
    var i :| 0 <= i < |spec| && !IsTransformKey(spec[i].0) && spec[i].0 == p;
  }

  /** The entry-state `forEach` over all configured keys: each non-transform
      key takes its configured value; an unconfigured property, and the
      inline `scale` and `rotate` properties, do not change. */
  function WriteConfigured(style: StyleMap, spec: StyleSpec): (r: StyleMap)
    ensures forall i :: 0 <= i < |spec| && !IsTransformKey(spec[i].0) ==> Get(r, spec[i].0) == ToText(spec[i].1)
    ensures forall p :: !Configured(spec, p) || IsTransformKey(p) ==> Get(r, p) == Get(style, p)
  {
    var written := WriteFrom(style, spec, 0);
    assert forall p :: !Configured(spec, p) || IsTransformKey(p) ==> Get(written, p) == Get(style, p) by {
      forall p | !Configured(spec, p) || IsTransformKey(p)
        ensures Get(written, p) == Get(style, p)
      {
        if p in WrittenFrom(spec, 0) { WrittenAreConfigured(spec, p); }
      }
    }
    written
  }

  /** The first two writes of `setInitialState`: clear `transition`, and force
      `position: relative` unless it is `absolute`. */
  function Positioned(style: StyleMap): (r: StyleMap)
    ensures Get(r, TransitionProperty) == ""
    ensures Get(r, PositionProperty) == (if Get(style, PositionProperty) == "absolute" then "absolute" else "relative")
    ensures forall p :: p != PositionProperty && p != TransitionProperty ==> Get(r, p) == Get(style, p)
  {
    var cleared := style[TransitionProperty := ""];
    if Get(cleared, PositionProperty) != "absolute" then cleared[PositionProperty := "relative"] else cleared
  }

  /** `setInitialState` for one element. */
  function EntryStyle(style: StyleMap, opts: Options): (r: StyleMap)
    ensures forall i :: 0 <= i < |opts.style| ==>
      var key := opts.style[i].0;
      !IsTransformKey(key) && key != TransformProperty && key != TransitionProperty ==>
        Get(r, key) == ToText(opts.style[i].1)
    ensures !Configured(opts.style, PositionProperty) ==>
      Get(r, PositionProperty) == (if Get(style, PositionProperty) == "absolute" then "absolute" else "relative")
    ensures Get(r, TransitionProperty) == TransitionValue(opts)
    ensures
      var scale := Lookup(opts.style, "scale");
      var rotate := Lookup(opts.style, "rotate");
      && (Truthy(scale) && Truthy(rotate) ==>
            Get(r, TransformProperty) == "scale(" + ToText(scale) + ") rotate(" + ToText(rotate) + "deg)")
      && (Truthy(scale) && !Truthy(rotate) ==> Get(r, TransformProperty) == "scale(" + ToText(scale) + ")")
      && (!Truthy(scale) && Truthy(rotate) ==> Get(r, TransformProperty) == "rotate(" + ToText(rotate) + "deg)")
      && (!Truthy(scale) && !Truthy(rotate) ==> Get(r, TransformProperty) == "")
    ensures forall p ::
      (p != PositionProperty && p != TransitionProperty && p != TransformProperty &&
       (!Configured(opts.style, p) || IsTransformKey(p)))
      ==> Get(r, p) == Get(style, p)
  {
    var positioned := Positioned(style);
    var written := WriteConfigured(positioned, opts.style);
    TransformValueCases(opts.style);
    WithTransition(WithTransform(written, opts.style), opts)
  }

  /** Line 133: `if (transform)` tests an array, so the joined tokens are
      always written, even when there are none. */
  function WithTransform(style: StyleMap, spec: StyleSpec): (r: StyleMap)
    ensures Get(r, TransformProperty) == Join(TransformTokens(spec), " ")
    ensures forall p :: p != TransformProperty ==> Get(r, p) == Get(style, p)
  {
    // An array is an object and therefore truthy, even when it is empty.
    style[TransformProperty := Join(TransformTokens(spec), " ")]
  }

  /** The last write of `setInitialState`: the transition string. */
  function WithTransition(style: StyleMap, opts: Options): (r: StyleMap)
    ensures Get(r, TransitionProperty) == TransitionValue(opts)
    ensures forall p :: p != TransitionProperty ==> Get(r, p) == Get(style, p)
  {
    style[TransitionProperty := TransitionValue(opts)]
  }

  /** The style writes of `setInitialState` over all elements. */
  function SetInitialState(elements: seq<Element>, opts: Options): (entered: seq<Element>)
    ensures |entered| == |elements|
    ensures forall i :: 0 <= i < |elements| ==> entered[i].style == EntryStyle(elements[i].style, opts)
    ensures forall i :: 0 <= i < |elements| ==>
      && entered[i].offsetTop == elements[i].offsetTop
      && entered[i].offsetHeight == elements[i].offsetHeight
      && Get(entered[i].style, TransitionProperty) == TransitionValue(opts)
    ensures !Configured(opts.style, PositionProperty) ==> forall i :: 0 <= i < |elements| ==>
      Get(entered[i].style, PositionProperty) ==
        (if Get(elements[i].style, PositionProperty) == "absolute" then "absolute" else "relative")
    ensures forall i, j :: 0 <= i < |elements| && 0 <= j < |opts.style| ==>
      var key := opts.style[j].0;
      !IsTransformKey(key) && key != TransformProperty && key != TransitionProperty ==>
        Get(entered[i].style, key) == ToText(opts.style[j].1)
  {
    seq(|elements|, i requires 0 <= i < |elements| => elements[i].(style := EntryStyle(elements[i].style, opts)))
  }

  // ---------------------------------------------------------------------------
  // Construction

  /** A constructed instance: the elements (in their current state), the
      merged options, the snapshots and the cached reference position. */
  datatype Instance = Instance(
    elements: seq<Element>,
    options: Options,
    initialStyles: seq<Snapshot>,
    initialPosition: Position)

  /** Every element has its snapshot. */
  predicate Valid(inst: Instance) {
    |inst.initialStyles| == |inst.elements|
  }

  /** What `setInitialState` arranges after the style writes: a timer that
      calls `loadElements` after `ms` milliseconds, or a scroll listener. */
  datatype Trigger = LoadAfter(ms: int) | OnScroll

  /** The result of the constructor: an instance that returned at the width
      gate before touching anything, or a started one. As written the gate
      never aborts, so `Inert` is never produced (see `Construct`). */
  datatype Construction = Inert(elements: seq<Element>, options: Options) | Started(inst: Instance, trigger: Trigger)

  /** Reading `offsetTop` of the missing first element of an empty list. */
  datatype ConstructError = NoFirstElement

  /** The width gate as written: it compares against the instance fields
      `windowMinWidth` and `windowMaxWidth` (`None` when the field is absent).
      Comparing a number with `undefined` is false. */
  predicate WidthGateAborts(innerWidth: int, minWidth: Option<int>, maxWidth: Option<int>): (aborts: bool)
    ensures minWidth.None? && maxWidth.None? ==> !aborts
    ensures minWidth.Some? && maxWidth.Some? ==>
      (!aborts <==> minWidth.value <= innerWidth <= maxWidth.value)
  {
    || (minWidth.Some? && innerWidth < minWidth.value)
    || (maxWidth.Some? && innerWidth > maxWidth.value)
  }

  /** The vertical extent of an element as the constructor reads it. */
  function Extent(e: Element): Position {
    Position(e.offsetTop, e.offsetTop + e.offsetHeight)
  }

  /** `elementInView`, against the cached position. */
  predicate InView(pos: Position, scrollY: int, innerHeight: int): (b: bool)
    ensures b <==> pos.bottom - innerHeight < scrollY < pos.top
    ensures b ==> pos.bottom - pos.top < innerHeight
  {
    pos.top > scrollY && pos.bottom < scrollY + innerHeight
  }

  /** The constructor after the width gate, for a non-empty element list:
      capture, reference position, entry state and the choice of trigger. */
  function Start(elements: seq<Element>, opts: Options, scrollY: int, innerHeight: int): (c: Construction)
    requires |elements| > 0
    ensures c.Started?
    ensures Valid(c.inst) && |c.inst.elements| == |elements| && c.inst.options == opts
    ensures c.inst.initialPosition == Extent(elements[0])
    ensures forall i :: 0 <= i < |elements| ==>
      && c.inst.initialStyles[i] == CaptureElement(elements[i].style, opts.style)
      && c.inst.elements[i].style == EntryStyle(elements[i].style, opts)
      && c.inst.elements[i].offsetTop == elements[i].offsetTop
      && c.inst.elements[i].offsetHeight == elements[i].offsetHeight
    ensures c.trigger == (if InView(c.inst.initialPosition, scrollY, innerHeight) then LoadAfter(opts.delay * 2) else OnScroll)
  {
    var pos := Extent(elements[0]);
    var trigger := if InView(pos, scrollY, innerHeight) then LoadAfter(opts.delay * 2) else OnScroll;
    Started(Instance(SetInitialState(elements, opts), opts, Capture(elements, opts.style), pos), trigger)
  }

  /** The constructor with `window.innerWidth`, `window.scrollY` and
      `window.innerHeight` read at construction time. */
  function Construct(elements: seq<Element>, options: Option<UserOptions>,
                     innerWidth: int, scrollY: int, innerHeight: int): (r: Result<Construction, ConstructError>)
    ensures r.Err? <==> |elements| == 0
    ensures r.Ok? ==> r.value.Started? && r.value.inst.options == Merge(options)
    ensures r.Ok? ==> r.value == Start(elements, Merge(options), scrollY, innerHeight)
  {
    var opts := Merge(options);
    // The instance never assigns `this.windowMinWidth` or `this.windowMaxWidth`.
    if WidthGateAborts(innerWidth, None, None) then Ok(Inert(elements, opts))
    else if |elements| == 0 then Err(NoFirstElement)
    else Ok(Start(elements, opts, scrollY, innerHeight))
  }

  // ---------------------------------------------------------------------------
  // Reveal

  /** `this.initialStyles[i][property]`: `undefined` when it was not captured. */
  function SnapshotValue(snap: Snapshot, property: string): JsValue {
    if property in snap then snap[property] else Undefined
  }

  /** The timer body for one element: every configured key writes back its
      captured target (`transform` for `scale` and `rotate`). */
  function RestoreFrom(style: StyleMap, snap: Snapshot, spec: StyleSpec, j: nat): (r: StyleMap)
    requires j <= |spec|
    decreases |spec| - j
    ensures r.Keys == style.Keys + TargetsFrom(spec, j)
    ensures forall t :: t in TargetsFrom(spec, j) ==> r[t] == ToText(SnapshotValue(snap, t))
    ensures forall t :: t in style && t !in TargetsFrom(spec, j) ==> r[t] == style[t]
  {
    if j == |spec| then style
    else
      TargetsFromStep(spec, j);
      var t := Target(spec[j].0);
      RestoreFrom(Assign(style, t, SnapshotValue(snap, t)), snap, spec, j + 1)
  }

  /** Element `i` once its restore timer has fired. */
  function Restored(inst: Instance, i: nat): Element
    requires Valid(inst) && i < |inst.elements|
  {
    var e := inst.elements[i];
    e.(style := RestoreFrom(e.style, inst.initialStyles[i], inst.options.style, 0))
  }

  /** The restore delays `delay * i`, one per element. */
  function RestoreDelays(delay: int, count: nat): seq<int> {
    seq(count, i => delay * i)
  }

  /** The outcome of a `loadElements` call that found the group in view: the
      elements once every per-element timer has fired, the delay of each of
      those timers, and the delay of the final timer (whose writes are not
      part of this model). */
  datatype Reveal = Reveal(elements: seq<Element>, restoreDelays: seq<int>, settleDelay: int)

  /** `loadElements` with `window.scrollY` and `window.innerHeight` read at
      the time of the call; `None` when the group is not in view. */
  function LoadElements(inst: Instance, scrollY: int, innerHeight: int): (r: Option<Reveal>)
    requires Valid(inst)
    ensures r.None? <==> !InView(inst.initialPosition, scrollY, innerHeight)
    ensures r.Some? ==>
      var n := |inst.elements|;
      && |r.value.elements| == n
      && (forall i, t :: 0 <= i < n && t in Targets(inst.options.style) ==>
            Get(r.value.elements[i].style, t) == ToText(SnapshotValue(inst.initialStyles[i], t)))
      && (forall i, p :: 0 <= i < n && p !in Targets(inst.options.style) ==>
            Get(r.value.elements[i].style, p) == Get(inst.elements[i].style, p))
      && (forall i :: 0 <= i < n ==>
            && r.value.elements[i].offsetTop == inst.elements[i].offsetTop
            && r.value.elements[i].offsetHeight == inst.elements[i].offsetHeight)
      && |r.value.restoreDelays| == n
      && (forall i :: 0 <= i < n ==> r.value.restoreDelays[i] == inst.options.delay * i)
      && r.value.settleDelay == inst.options.delay * n
  {
    if !InView(inst.initialPosition, scrollY, innerHeight) then None
    else
      var n := |inst.elements|;
      Some(Reveal(
        seq(n, i requires 0 <= i < n => Restored(inst, i)),
        RestoreDelays(inst.options.delay, n),
        inst.options.delay * n))
  }

  /** The `for` loop of `loadElements`, walking the elements in order and
      applying each restore as its timer fires. */
  method RevealInOrder(inst: Instance, scrollY: int, innerHeight: int) returns (r: Option<Reveal>)
    requires Valid(inst)
    ensures r == LoadElements(inst, scrollY, innerHeight)
  {
    if !InView(inst.initialPosition, scrollY, innerHeight) {
      return None;
    }
    var n := |inst.elements|;
    var elements := inst.elements;
    var delays := [];
    var i := 0;
    while i < n
      invariant 0 <= i <= n
      invariant |elements| == n && |delays| == i
      invariant forall j :: 0 <= j < i ==> elements[j] == Restored(inst, j)
      invariant forall j :: i <= j < n ==> elements[j] == inst.elements[j]
      invariant forall j :: 0 <= j < i ==> delays[j] == inst.options.delay * j
    {
      elements := elements[i := Restored(inst, i)];
      delays := delays + [inst.options.delay * i];
      i := i + 1;
    }
    assert elements == seq(n, j requires 0 <= j < n => Restored(inst, j));
    assert delays == RestoreDelays(inst.options.delay, n);
    r := Some(Reveal(elements, delays, inst.options.delay * n));
  }
}

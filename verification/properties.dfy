/** Properties that relate several FancyLoad operations: the capture, entry
    and restore round trip, what the restore leaves alone, repeated reveals,
    the stagger delays and the in-view test. */
module Properties {
  import opened Results
  import opened Js
  import opened Style
  import opened Options
  import opened FancyLoad

  /** Restoring a captured value gives back the element's original inline
      value, or the property default when it had none; `position` and
      `transition` come back verbatim. */
  lemma {:induction false} RestoreOfCapture(style: StyleMap, spec: StyleSpec, t: string)
    requires t in Targets(spec)
    ensures ToText(SnapshotValue(CaptureElement(style, spec), t)) ==
      (if t == PositionProperty || t == TransitionProperty || Get(style, t) != "" then Get(style, t)
       else ToText(PropertyDefault(t)))
  {
    var snap := CaptureElement(style, spec);
    assert t in snap;
    if t != PositionProperty && t != TransitionProperty {
      assert snap[t] == InlineOrDefault(style, t);
    }
  }

  /** The round trip: construct (capture, then entry state), then reveal in
      view; every configured key of element i reads back its captured value,
      which is its original inline value or the property default. */
  lemma {:induction false} RoundTrip(elements: seq<Element>, opts: Options,
                                     scrollY0: int, innerHeight0: int,
                                     scrollY: int, innerHeight: int)
    requires |elements| > 0
    requires InView(Extent(elements[0]), scrollY, innerHeight)
    ensures
      var inst := Start(elements, opts, scrollY0, innerHeight0).inst;
      var revealed := LoadElements(inst, scrollY, innerHeight).value.elements;
      && |revealed| == |elements|
      && forall i, j :: 0 <= i < |elements| && 0 <= j < |inst.options.style| ==>
           var t := Target(inst.options.style[j].0);
           Get(revealed[i].style, t) ==
             (if t == PositionProperty || t == TransitionProperty || Get(elements[i].style, t) != ""
              then Get(elements[i].style, t)
              else ToText(PropertyDefault(t)))
  {
    var inst := Start(elements, opts, scrollY0, innerHeight0).inst;
    var spec := inst.options.style;
    var revealed := LoadElements(inst, scrollY, innerHeight).value.elements;
    forall i, j | 0 <= i < |elements| && 0 <= j < |spec|
      ensures
        var t := Target(spec[j].0);
        Get(revealed[i].style, t) ==
          (if t == PositionProperty || t == TransitionProperty || Get(elements[i].style, t) != ""
           then Get(elements[i].style, t)
           else ToText(PropertyDefault(t)))
    {
      var t := Target(spec[j].0);
      assert t in Targets(spec);
      RestoreOfCapture(elements[i].style, spec, t);
    }
  }

  /** Nothing else changes: after construction and reveal, a property that is
      none of `position`, `transition` and `transform`, and is not configured
      or is the inline `scale` or `rotate` property, holds its original value. */
  lemma {:induction false} RevealLeavesOthersAlone(elements: seq<Element>, opts: Options,
                                                   scrollY0: int, innerHeight0: int,
                                                   scrollY: int, innerHeight: int)
    requires |elements| > 0
    requires InView(Extent(elements[0]), scrollY, innerHeight)
    ensures
      var inst := Start(elements, opts, scrollY0, innerHeight0).inst;
      var revealed := LoadElements(inst, scrollY, innerHeight).value.elements;
      forall i, p :: 0 <= i < |elements| && p != PositionProperty && p != TransitionProperty &&
                     p != TransformProperty && (!Configured(inst.options.style, p) || IsTransformKey(p)) ==>
        Get(revealed[i].style, p) == Get(elements[i].style, p)
  {
    var inst := Start(elements, opts, scrollY0, innerHeight0).inst;
    var spec := inst.options.style;
    forall p | p != TransformProperty && (!Configured(spec, p) || IsTransformKey(p))
      ensures p !in Targets(spec)
    {
      TargetOrigin(spec, p);
    }
  }

  /** A target is `transform` or a configured key other than `scale` and
      `rotate`. */
  lemma TargetOrigin(spec: StyleSpec, t: string)
    ensures t in Targets(spec) ==> t == TransformProperty || (Configured(spec, t) && !IsTransformKey(t))
  {
    if t in Targets(spec) {
      var i :| 0 <= i < |spec| && Target(spec[i].0) == t;
      if t != TransformProperty {
        assert spec[i].0 == t;
      }
    }
  }

  /** A consequence of the always-true `if (transform)`: when neither
      `scale`, `rotate` nor `transform` is configured, an element's inline
      transform is cleared by the entry state and never restored. */
  lemma {:induction false} TransformLostWhenNotConfigured(elements: seq<Element>, opts: Options,
                                                          scrollY0: int, innerHeight0: int,
                                                          scrollY: int, innerHeight: int)
    requires |elements| > 0
    requires
      var spec := opts.style;
      !Configured(spec, "scale") && !Configured(spec, "rotate") && !Configured(spec, TransformProperty)
    requires InView(Extent(elements[0]), scrollY, innerHeight)
    ensures
      var inst := Start(elements, opts, scrollY0, innerHeight0).inst;
      var revealed := LoadElements(inst, scrollY, innerHeight).value.elements;
      forall i :: 0 <= i < |revealed| ==> Get(revealed[i].style, TransformProperty) == ""
  {
    var inst := Start(elements, opts, scrollY0, innerHeight0).inst;
    TransformTarget(inst.options.style);
  }

  /** Restoring an already restored element changes nothing. This matters
      because the scroll listener is never removed, so `loadElements` runs
      again on every later scroll event. */
  lemma {:induction false} RestoreIdempotent(style: StyleMap, snap: Snapshot, spec: StyleSpec)
    ensures RestoreFrom(RestoreFrom(style, snap, spec, 0), snap, spec, 0) == RestoreFrom(style, snap, spec, 0)
  {
    var once := RestoreFrom(style, snap, spec, 0);
    var twice := RestoreFrom(once, snap, spec, 0);
    assert twice.Keys == once.Keys;
    forall t | t in twice
      ensures twice[t] == once[t]
    {
    }
  }

  /** A second `loadElements` while in view, on the elements the first one
      restored, leaves them as they are. */
  lemma {:induction false} RevealIdempotent(inst: Instance, scrollY: int, innerHeight: int)
    requires Valid(inst)
    requires InView(inst.initialPosition, scrollY, innerHeight)
    ensures
      var once := LoadElements(inst, scrollY, innerHeight).value.elements;
      LoadElements(inst.(elements := once), scrollY, innerHeight).value.elements == once
  {
    var once := LoadElements(inst, scrollY, innerHeight).value.elements;
    var again := inst.(elements := once);
    var twice := LoadElements(again, scrollY, innerHeight).value.elements;
    forall i | 0 <= i < |once|
      ensures twice[i] == once[i]
    {
      RestoreIdempotent(inst.elements[i].style, inst.initialStyles[i], inst.options.style);
      assert once[i] == Restored(inst, i);
      assert twice[i] == Restored(again, i);
    }
  }

  lemma {:induction false} MulMonotone(delay: int, i: int, j: int)
    requires delay >= 0 && i <= j
    ensures delay * i <= delay * j
  {
    assert delay * j - delay * i == delay * (j - i);
  }

  /** The stagger: with a non-negative delay, restore delays never decrease
      with the element index and none exceeds the final `delay * length`. */
  lemma {:induction false} RevealDelaysOrdered(inst: Instance, scrollY: int, innerHeight: int)
    requires Valid(inst)
    requires InView(inst.initialPosition, scrollY, innerHeight)
    requires inst.options.delay >= 0
    ensures
      var r := LoadElements(inst, scrollY, innerHeight).value;
      && (forall i, j :: 0 <= i <= j < |r.restoreDelays| ==> r.restoreDelays[i] <= r.restoreDelays[j])
      && (forall i :: 0 <= i < |r.restoreDelays| ==> r.restoreDelays[i] <= r.settleDelay)
  {
    var r := LoadElements(inst, scrollY, innerHeight).value;
    var d := inst.options.delay;
    forall i, j | 0 <= i <= j < |r.restoreDelays|
      ensures r.restoreDelays[i] <= r.restoreDelays[j]
    {
      MulMonotone(d, i, j);
    }
    forall i | 0 <= i < |r.restoreDelays|
      ensures r.restoreDelays[i] <= r.settleDelay
    {
      MulMonotone(d, i, |inst.elements|);
    }
  }

  /** The in-view test of a constructed instance compares the scroll reading
      with the first element's offsets as they were at construction. */
  lemma InViewUsesFirstElement(elements: seq<Element>, opts: Options, scrollY0: int, innerHeight0: int,
                               scrollY: int, innerHeight: int)
    requires |elements| > 0
    ensures InView(Start(elements, opts, scrollY0, innerHeight0).inst.initialPosition, scrollY, innerHeight)
            <==> elements[0].offsetTop > scrollY &&
                 elements[0].offsetTop + elements[0].offsetHeight < scrollY + innerHeight
  {
  }

  /** Whatever `window.innerWidth` is, a non-empty element list is always
      captured and put into the entry state: the width options are ignored. */
  lemma WidthGateNeverAborts(elements: seq<Element>, options: Option<UserOptions>,
                             innerWidth: int, scrollY: int, innerHeight: int)
    requires |elements| > 0
    ensures Construct(elements, options, innerWidth, scrollY, innerHeight).Ok?
    ensures Construct(elements, options, innerWidth, scrollY, innerHeight).value.Started?
  {
  }
}

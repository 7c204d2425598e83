# FancyLoad in Dafny

A model of the `FancyLoad` class of FancyLoad.js, a browser helper that fades
and slides a group of elements into place when they scroll into view. The
constructor merges the caller's options over defaults and takes a snapshot of
each element's inline style for every configured property. It then puts each
element into an "entry" state: the configured values, a forced `position`, a
composed `transform` and a `transition`. `loadElements` runs from a timer or on
every scroll event, and acts only when the group's cached position is in view.
It then restores every
configured property of element `i` from snapshot `i` after `delay * i`
milliseconds.

The DOM is abstracted away:

- An inline style is a `map<string, string>`. A missing property reads as `""`.
- An element is its style plus the `offsetTop` and `offsetHeight` readings.
- `window.innerWidth`, `window.scrollY` and `window.innerHeight` are integer
  parameters.
- Timers are represented only by their delays.
- Option values and captured values are JavaScript values (`undefined`, a
  string, or a number carried by its `String()` rendering). The model uses
  only their truthiness and their string form.

Modules: `Results` (option and result types), `Js` (values, truthiness, string form), `Style` (inline style reads
and writes), `Options` (the style option and the option merge), `FancyLoad`
(capture, entry state, construction, reveal) and `Properties` (lemmas that
relate several operations).

Source quirks kept as written:

- The width gate at line 60 reads `this.windowMinWidth` and
  `this.windowMaxWidth`. These fields are never assigned, because the options
  live under `this.options`. A number compared with `undefined` gives false, so
  the gate never aborts. `Construct` always starts the instance
  (`WidthGateNeverAborts`).
- `if (transform)` at line 133 tests an array, which is always truthy. The
  joined tokens are therefore always written: the value is `""` when neither
  `scale` nor `rotate` is truthy. As a result, an element's inline transform is
  lost for good when none of `scale`, `rotate` and `transform` is configured
  (`TransformLostWhenNotConfigured`).
- `scale` and `rotate` are tested for truthiness, so a value of `0` adds no
  token.
- A configured `transform` or `transition` key is overwritten at lines 133 and
  135. So the "configured value after entry" guarantee of `EntryStyle` excludes
  those two keys.
- An empty element list makes the read of `elements[0].offsetTop` fail. This is
  modelled as `Err(NoFirstElement)`.

## Model

| member | source | states |
|---|---|---|
| Options.Merge | FancyLoad.js:28-55 | Each option not supplied takes its default: style `[]`, duration 0.3, "ease-out", delay 100, widths 1024 and 99999. A supplied one wins. With no options object at all, the style is top "100px", opacity 0 |
| Options.Lookup | FancyLoad.js:130-131 | `options.style[key]` is the configured value of `key`, or undefined when `key` is not configured |
| FancyLoad.PropertyDefault | FancyLoad.js:103-115 | The default is 1 for opacity, "scale(1) rotate(0deg)" for transform, and 0 for anything else. It is never empty, and it is truthy only for opacity and transform |
| FancyLoad.CaptureFrom | FancyLoad.js:70-76 | The key loop captures exactly the targets of the configured keys (`transform` for scale and rotate), each as the inline value or its default. Earlier entries survive |
| FancyLoad.TransformTarget | FancyLoad.js:71-72 | `transform` is captured exactly when scale, rotate or transform is configured |
| FancyLoad.Capture | FancyLoad.js:68-81 | The snapshot list has one entry per element, index-aligned. Entry i is element i's snapshot as `CaptureElement` determines it, with no other keys. It holds element i's inline-or-default value for each configured target, and its verbatim position and transition |
| FancyLoad.CaptureElement | FancyLoad.js:68-81 | A snapshot has exactly the configured targets plus position and transition. Each target holds the inline value or its default. Position and transition are verbatim. A single transform entry exists iff scale, rotate or transform is configured |
| FancyLoad.TransformTokens | FancyLoad.js:129-131 | Exactly one token per truthy option among scale and rotate, so none iff neither is truthy. A truthy scale gives the first token "scale(s)", and a truthy rotate gives the last token "rotate(rdeg)" |
| FancyLoad.Positioned | FancyLoad.js:122-123 | Transition is cleared. Position becomes "relative" unless it is "absolute". Nothing else changes |
| FancyLoad.WriteFrom | FancyLoad.js:125-127 | Every configured non-scale/rotate key gets its option value. Every other property keeps its value |
| FancyLoad.WriteConfigured | FancyLoad.js:125-127 | After the key loop, configured non-transform keys hold their option values. Unconfigured properties, and the inline scale and rotate properties, are unchanged |
| FancyLoad.TransformValueCases | FancyLoad.js:129-133 | The transform value is "scale(s) rotate(rdeg)", "scale(s)", "rotate(rdeg)" or "", depending on which of scale and rotate are truthy, in that order |
| FancyLoad.WithTransform | FancyLoad.js:133 | The joined tokens are always written to transform, and no other property changes |
| FancyLoad.WithTransition | FancyLoad.js:135 | Transition becomes "all <duration>s <timingFunction>", and no other property changes |
| FancyLoad.EntryStyle | FancyLoad.js:120-136 | After the entry state: every configured key other than scale, rotate, transform and transition holds its option value. Position is "relative" unless it was "absolute" (when not configured). Transform is the four-case join. Transition is the duration/timing string. Every other property that is unconfigured, or is the inline scale or rotate property, is unchanged |
| FancyLoad.SetInitialState | FancyLoad.js:121-136 | One entered element per element, with the construction-time offsets carried over. Each element's style is its entry style: the full `EntryStyle` guarantee, including the transform cases and the unchanged properties. Each has the transition string, position "relative" unless "absolute" (when not configured), and every configured key other than scale, rotate, transform and transition at its option value |
| FancyLoad.WidthGateAborts | FancyLoad.js:60 | With both bound fields absent (undefined), the gate never aborts. With both present, it passes iff min <= innerWidth <= max |
| FancyLoad.InView | FancyLoad.js:175-180 | In view iff scrollY lies strictly between the cached bottom minus innerHeight and the cached top. An in-view group is shorter than the viewport |
| FancyLoad.Start | FancyLoad.js:68-94 | The snapshot list is index-aligned with the elements. The cached position is element 0's top and top+height. Every element is in the entry state, and the construction-time offset readings are carried over. The trigger is a `delay*2` timer when in view, else a scroll listener |
| FancyLoad.Construct | FancyLoad.js:28-94 | Construction fails iff the element list is empty. Otherwise the instance always starts, whatever the window width, with the merged options |
| FancyLoad.RestoreFrom | FancyLoad.js:152-158 | Every configured target is written back from the snapshot (transform for scale and rotate). Every other property keeps its value |
| FancyLoad.LoadElements | FancyLoad.js:148-168 | Out of view, nothing changes. In view, each configured target of element i reads snapshot i, other properties are unchanged, the construction-time offset readings are carried over, and the delays are `delay*i` with a final `delay*length` |
| FancyLoad.RevealInOrder | FancyLoad.js:150-165 | The in-order loop over the elements yields exactly the outcome of `LoadElements` |
| Properties.RestoreOfCapture | FancyLoad.js:72-74 | Restoring a captured value gives the original inline value, or the default when there was none. Position and transition come back verbatim |
| Properties.RoundTrip | FancyLoad.js:68-159 | Start a non-empty list (the constructor's work after the width gate), then reveal while element 0's cached extent is in view. Every configured target of element i reads back its original inline value. When that value was empty, it reads back the property default, except that a configured position or transition comes back verbatim, empty included |
| Properties.RevealLeavesOthersAlone | FancyLoad.js:120-159 | After start and reveal, a property other than position, transition and transform holds its original value when it is unconfigured or is the inline scale or rotate property |
| Properties.TransformLostWhenNotConfigured | FancyLoad.js:129-133 | With none of scale, rotate and transform configured, every element's transform is "" after reveal |
| Properties.RestoreIdempotent | FancyLoad.js:152-158 | Restoring twice from the same snapshot equals restoring once |
| Properties.RevealIdempotent | FancyLoad.js:148-166 | A second in-view `loadElements` on restored elements changes nothing. The listener is never removed, so this case happens |
| Properties.RevealDelaysOrdered | FancyLoad.js:150-164 | With a non-negative delay, restore delays do not decrease with the index, and none exceeds `delay*length` |
| Properties.InViewUsesFirstElement | FancyLoad.js:175-180 | For a started instance, in view iff element 0's construction-time top > scrollY and its top+height < scrollY + innerHeight |
| Properties.WidthGateNeverAborts | FancyLoad.js:57-60 | A non-empty element list is always captured and started, whatever the window width and width options |

## Left out

- The final timer at lines 161-164. It writes `this.initialStyles.transition` and `.position`, which are properties of the array and never set. The outcome therefore depends on how the DOM coerces `undefined`. Only its delay (`settleDelay`, `delay * length`) is modelled.
- `removeEventListener` at line 166 passes the unbound method, so the listener is never detached. Function identity is host behaviour. `RevealIdempotent` covers the effect on styles of the repeated calls.
- Real timer scheduling and event-loop ordering. Only the delay values are modelled. `LoadElements` gives the state after every per-element timer has fired.
- CSS parsing: invalid values are not rejected and values are not normalised (for example `0` becoming `0px`). A written value is stored as its string form.
- Floating-point arithmetic. `duration` is carried by its string rendering and `delay` is an integer.
- Properties of the options object other than the six known ones. `Object.assign` copies them, but nothing reads them.
- Layout after construction. The entry state moves elements (a forced `position: relative`, configured offsets such as `top`), so the real `offsetTop` changes. Only the construction-time readings are kept, because `elementInView` reads only the cached reference position.
- Option values other than `undefined`, strings and numbers. `null` and booleans are not modelled, and a number's text is assumed to be its canonical `String()` rendering.
- Coupling between CSS property names. A style is a map of independent names, so the "unchanged" clauses of `Positioned`, `EntryStyle`, `LoadElements` and `RevealLeavesOthersAlone` hold of the map. They do not hold of the real style where names are coupled. Clearing and setting `transition` also resets its longhands (`transition-delay` and the others). A configured shorthand such as `margin` rewrites its longhands. A camelCase name and its hyphenated form (`backgroundColor`, `background-color`) are one property.

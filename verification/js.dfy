/** JavaScript values as far as the FancyLoad helper observes them: their
    truthiness (`||`, `if (x)`) and their string form (template literals and
    assignments to an inline style property). */
module Js {

  /** A JavaScript value held by an option or a captured style. A number is
      carried by its canonical `String(n)` rendering (`.3` is `Num("0.3")`,
      `-0` is `Num("0")`); no arithmetic is ever done on these values. */
  datatype JsValue = Undefined | Str(s: string) | Num(text: string)

  /** JavaScript truthiness: `undefined`, `""`, `0` and `NaN` are falsy. */
  predicate Truthy(v: JsValue) {
    match v
    case Undefined => false
    case Str(s) => s != ""
    case Num(t) => t != "0" && t != "NaN"
  }

  /** `String(v)`: what a template literal interpolates and what the DOM
      stores when `v` is assigned to a style property. */
  function ToText(v: JsValue): string {
    match v
    case Undefined => "undefined"
    case Str(s) => s
    case Num(t) => t
  }

  /** `a || b`: the first operand when it is truthy, otherwise the second. */
  function Or(a: JsValue, b: JsValue): JsValue {
    if Truthy(a) then a else b
  }
}

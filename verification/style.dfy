/** An element's inline style (`element.style`) as a map from property name
    to value. A property that is not set reads as the empty string. */
module Style {
  import opened Js

  type StyleMap = map<string, string>

  /** `element.style[property]`. */
  function Get(style: StyleMap, property: string): string {
    if property in style then style[property] else ""
  }

  /** `element.style[property] = v`: the DOM stores the string form of `v`. */
  function Assign(style: StyleMap, property: string, v: JsValue): StyleMap {
    style[property := ToText(v)]
  }
}

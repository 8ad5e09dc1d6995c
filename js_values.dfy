/** The JavaScript values a runtime type guard can be handed (`obj: unknown`). */
module JsValues {

  datatype JsValue =
    | Undefined
    | Null
    | Boolean(b: bool)
    | Number(n: real)
    | Str(s: string)
    | Array(items: seq<JsValue>)
    | Object(props: map<string, JsValue>)

  /** `typeof v === "object" && v !== null`: plain objects and arrays. */
  predicate IsNonNullObject(v: JsValue) {
    v.Object? || v.Array?
  }

  /** Property read `v.key`; a missing property (or any key of a non-object)
      reads as `undefined`. */
  function Get(v: JsValue, key: string): (r: JsValue)
    ensures v.Object? && key in v.props ==> r == v.props[key]
    ensures !(v.Object? && key in v.props) ==> r == Undefined
  {
    if v.Object? && key in v.props then v.props[key] else Undefined
  }

  /** `typeof v === "number"`. */
  predicate IsNumber(v: JsValue) {
    v.Number?
  }
}

/** JavaScript values as the component sees them: a prop or state cell that
    may be `undefined`, `null` or a real value, JavaScript truthiness on such
    cells, the `x || ''` defaulting idiom, and how a template literal renders
    a nullable string. */
module JsValues {

  /** A JavaScript slot that holds `undefined`, `null` or a value. */
  datatype Nullable<+T> = Undefined | Null | Val(v: T)

  /** Truthiness of a nullable string: `undefined`, `null` and `''` are falsy. */
  predicate Truthy(x: Nullable<string>) {
    x.Val? && x.v != ""
  }

  /** `x || ''` on a nullable string. */
  function OrEmpty(x: Nullable<string>): (r: string)
    ensures Truthy(x) ==> r == x.v
    ensures !Truthy(x) ==> r == ""
    ensures r == "" <==> !Truthy(x)
  {
    if Truthy(x) then x.v else ""
  }

  /** `${x}` inside a template literal. */
  function Render(x: Nullable<string>): (r: string)
    ensures x.Val? ==> r == x.v
    ensures x == Undefined ==> r == "undefined"
    ensures x == Null ==> r == "null"
  {
    match x
    case Undefined => "undefined"
    case Null => "null"
    case Val(s) => s
  }

}

/** Small values shared by the graph-view modules. */
module Common {

  datatype Option<T> = None | Some(value: T)

  /** A point in content (layout) or screen coordinates. */
  datatype Point = Point(x: real, y: real)

  /** JavaScript truthiness of an optional id: null, undefined and "" are all falsy. */
  predicate Truthy(id: Option<string>)
  {
    id.Some? && id.value != ""
  }

  /** Math.max and Math.min on two numbers. */
  function Max(a: real, b: real): (r: real)
    ensures r >= a && r >= b && (r == a || r == b)
  {
    if a >= b then a else b
  }

  function Min(a: real, b: real): (r: real)
    ensures r <= a && r <= b && (r == a || r == b)
  {
    if a <= b then a else b
  }
}

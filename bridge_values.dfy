/** Values that cross the React Native bridge, shared by the iOS and the
    Android sides of the scanner view. */
module BridgeValues {

  /** A possibly absent value: Swift's `T?`, Kotlin's `T?`. */
  datatype Option<+T> = None | Some(value: T)

  /** A dynamically typed prop value as the bridge delivers it: Swift's
      `Any` inside a `[String: Any]`, Kotlin's `Dynamic` / `ReadableMap`
      entry. A JavaScript boolean and a JavaScript number are distinct kinds. */
  datatype Value =
    | Null
    | Bool(b: bool)
    | Number(n: real)
    | Str(s: string)
    | Dict(entries: map<string, Value>)
    | Array(items: seq<Value>)

  /** An axis-aligned rectangle (`CGRect`): an origin and a size whose
      components may be negative. */
  datatype Rect = Rect(x: real, y: real, width: real, height: real)
  {
    function MinX(): real { if width < 0.0 then x + width else x }
    function MaxX(): real { if width < 0.0 then x else x + width }
    function MinY(): real { if height < 0.0 then y + height else y }
    function MaxY(): real { if height < 0.0 then y else y + height }

    /** The same rectangle with a non-negative size (`CGRect.standardized`). */
    function Standardized(): (r: Rect)
      ensures r.width >= 0.0 && r.height >= 0.0
      ensures r.MinX() == MinX() && r.MaxX() == MaxX()
      ensures r.MinY() == MinY() && r.MaxY() == MaxY()
    {
      Rect(MinX(), MinY(), MaxX() - MinX(), MaxY() - MinY())
    }
  }
}

/** Values shared by every part of the model: an optional value, Go's 64-bit
    integers and Go's slices, whose nil value is distinct from an empty one. */
module Base {

  datatype Option<+T> = None | Some(value: T)

  /** Go's `int64`, and `int` on a 64-bit platform. */
  type Int64 = x: int | -0x8000_0000_0000_0000 <= x < 0x8000_0000_0000_0000

  /** A Go slice as the handlers see it. A slice declared with `var s []T` is
      `Nil`; `append` always returns a non-nil slice. The distinction shows on
      the wire: `json.Marshal` renders a nil slice as `null` and a non-nil
      one as an array. */
  datatype GoSlice<T> = Nil | Made(items: seq<T>) {

    function Elems(): seq<T> {
      if Nil? then [] else items
    }

    /** Go's `append(s, x)`. */
    function Append(x: T): GoSlice<T> {
      Made(Elems() + [x])
    }
  }
}

/** Host-language values that the fixtures rely on. */
module Prelude {

  /** An F# option. F# represents `None` as a null reference, so a C# `null`
      handed to an `FSharpOption<T>` parameter is `None` here. */
  datatype Option<+T> = None | Some(value: T)

  /** A C# `string` reference: either null or a sequence of characters. */
  datatype CsString = Null | Text(chars: string)

  /** C#'s 32-bit `int`. */
  newtype Int32 = x: int | -0x8000_0000 <= x < 0x8000_0000

  /** `string.IsNullOrEmpty`. */
  function IsNullOrEmpty(s: CsString): (b: bool)
    ensures b <==> s.Null? || |s.chars| == 0
  {
    match s
    case Null => true
    case Text(cs) => cs == ""
  }

  /** The characters C#'s `+` on strings contributes for `s`: a null operand
      counts as the empty string. */
  function CharsOf(s: CsString): string {
    match s
    case Null => ""
    case Text(cs) => cs
  }

  /** C#'s string `+`: never null, null operands read as empty. */
  function Concat(a: CsString, b: CsString): (r: CsString)
    ensures r.Text?
    ensures a.Text? && b.Text? ==> r.chars == a.chars + b.chars
    ensures a.Null? ==> r == Text(CharsOf(b))
    ensures b.Null? ==> r == Text(CharsOf(a))
    ensures |r.chars| == |CharsOf(a)| + |CharsOf(b)|
  {
    Text(CharsOf(a) + CharsOf(b))
  }
}

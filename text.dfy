/**
 * The parts of .NET's string library that the modelled code relies on:
 * `char.IsWhiteSpace`, `string.IsNullOrEmpty`, `string.IsNullOrWhiteSpace`,
 * `string.Join`, the way string interpolation renders a null string, and
 * `string.Length`, which counts UTF-16 code units rather than characters.
 */
module Text {
  import opened Wrappers

  /** `char.IsWhiteSpace`: the Unicode space, line and paragraph separators
      plus the control characters U+0009..U+000D and U+0085. */
  predicate IsWhiteSpace(c: char) {
    var n := c as int;
    || (0x09 <= n <= 0x0D) || n == 0x20 || n == 0x85 || n == 0xA0
    || n == 0x1680 || (0x2000 <= n <= 0x200A) || n == 0x2028 || n == 0x2029
    || n == 0x202F || n == 0x205F || n == 0x3000
  }

  /** `string.IsNullOrEmpty`. */
  predicate IsNullOrEmpty(s: Option<string>) {
    s.None? || s.value == ""
  }

  /** `string.IsNullOrWhiteSpace`. */
  predicate IsNullOrWhiteSpace(s: Option<string>) {
    s.None? || forall i :: 0 <= i < |s.value| ==> IsWhiteSpace(s.value[i])
  }

  /** A string that holds at least one non-white-space character. */
  predicate HasText(s: Option<string>) {
    !IsNullOrWhiteSpace(s)
  }

  /** What `$"{s}"` renders for a possibly null string: null becomes "". */
  function Interpolated(s: Option<string>): string {
    s.GetOr("")
  }

  /** `string.Length` of the UTF-16 encoding of `s`: characters outside the
      Basic Multilingual Plane take a surrogate pair. */
  function Utf16Length(s: string): (n: nat)
    ensures |s| <= n <= 2 * |s|
  {
    if s == [] then 0
    else (if s[0] as int > 0xFFFF then 2 else 1) + Utf16Length(s[1..])
  }

  lemma {:induction false} Utf16LengthAppend(a: string, b: string)
    ensures Utf16Length(a + b) == Utf16Length(a) + Utf16Length(b)
  {
    if a != [] {
      assert (a + b)[1..] == a[1..] + b;
      Utf16LengthAppend(a[1..], b);
    } else {
      assert a + b == b;
    }
  }

  /** `string.Join(separator, parts)`. */
  function Join(separator: string, parts: seq<string>): string {
    if |parts| == 0 then ""
    else if |parts| == 1 then parts[0]
    else parts[0] + separator + Join(separator, parts[1..])
  }

  /** Joining two parts puts the separator between them. */
  lemma JoinPair(separator: string, a: string, b: string)
    ensures Join(separator, [a, b]) == a + separator + b
  {
    assert [a, b][1..] == [b];
  }
}

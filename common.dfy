/** Small shared vocabulary: nullable values, error results, and the .NET
    string helpers (`char.IsWhiteSpace`, `string.IsNullOrWhiteSpace`,
    an ASCII approximation of invariant-culture case folding) that the three modelled components use. */
module Common {

  /** A C# reference or `Nullable<T>` value: `None` stands for `null`. */
  datatype Option<+T> = None | Some(value: T)

  /** An opaque timestamp (a C# `DateTime`). */
  type Time = int

  /** A value, or the exception that the C# code throws instead. */
  datatype Result<+R, +E> = Success(value: R) | Failure(error: E)

  /** `char.IsWhiteSpace`: the Unicode separators (Zs, Zl, Zp) together with
      the control characters U+0009..U+000D and U+0085. */
  predicate IsWhiteSpace(c: char) {
    var n := c as int;
    (9 <= n <= 13) || n == 0x20 || n == 0x85 || n == 0xA0 || n == 0x1680 ||
    (0x2000 <= n <= 0x200A) || n == 0x2028 || n == 0x2029 || n == 0x202F ||
    n == 0x205F || n == 0x3000
  }

  /** `string.IsNullOrWhiteSpace`: null, empty, or nothing but white space. */
  predicate IsNullOrWhiteSpace(s: Option<string>) {
    s.None? || forall i :: 0 <= i < |s.value| ==> IsWhiteSpace(s.value[i])
  }

  /** What `StringBuilder.Append` and string interpolation write for a
      possibly-null string: nothing for null. */
  function Render(s: Option<string>): string {
    if s.None? then "" else s.value
  }

  /** Case folding used by the ignore-case comparisons (ASCII letters only). */
  function FoldCase(c: char): char {
    if 'A' <= c <= 'Z' then (c as int + 32) as char else c
  }

  /** Ordinal comparison of two strings after case folding. */
  predicate EqualsIgnoreCase(a: string, b: string) {
    |a| == |b| && forall i :: 0 <= i < |a| ==> FoldCase(a[i]) == FoldCase(b[i])
  }

  /** An ASCII approximation of
      `s.EndsWith(suffix, StringComparison.InvariantCultureIgnoreCase)`. */
  predicate EndsWithIgnoreCase(s: string, suffix: string) {
    |suffix| <= |s| && EqualsIgnoreCase(s[|s| - |suffix|..], suffix)
  }
}

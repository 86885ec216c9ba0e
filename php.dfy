/**
 * The few PHP built-ins the glossary code relies on, on strings of ASCII
 * characters: `empty()` and string truthiness, `strtolower`/`strtoupper`,
 * `substr` with non-negative offsets, and `sprintf` with one `%s` argument.
 */
module Php {

  /** `empty($s)` for a string, which is also PHP's "falsy": "" and "0". */
  predicate IsEmpty(s: string)
  {
    s == "" || s == "0"
  }

  predicate IsUpper(c: char) { 'A' <= c <= 'Z' }

  predicate IsLower(c: char) { 'a' <= c <= 'z' }

  /** `strtolower` on one byte: only A-Z change. */
  function ToLowerChar(c: char): (r: char)
    ensures !IsUpper(r)
    ensures IsUpper(c) ==> IsLower(r) && (r as int) - (c as int) == 32
    ensures !IsUpper(c) ==> r == c
  {
    if IsUpper(c) then (c as int + 32) as char else c
  }

  /** `strtoupper` on one byte: only a-z change. */
  function ToUpperChar(c: char): (r: char)
    ensures !IsLower(r)
    ensures IsLower(c) ==> IsUpper(r) && (c as int) - (r as int) == 32
    ensures !IsLower(c) ==> r == c
  {
    if IsLower(c) then (c as int - 32) as char else c
  }

  /** `strtolower($s)`: every byte lowered, nothing else changed. */
  function StrToLower(s: string): (r: string)
    ensures |r| == |s|
    ensures forall i :: 0 <= i < |s| ==> r[i] == ToLowerChar(s[i])
    ensures forall i :: 0 <= i < |r| ==> !IsUpper(r[i])
  {
    if s == [] then [] else [ToLowerChar(s[0])] + StrToLower(s[1..])
  }

  function Min(a: int, b: int): int { if a <= b then a else b }

  /**
   * `substr($s, $start, $length)` for non-negative start and length: the
   * bytes from `start` on, at most `length` of them; "" past the end.
   */
  function Substr(s: string, start: nat, length: nat): (r: string)
    ensures |r| == Min(length, |s| - Min(start, |s|))
    ensures forall i :: 0 <= i < |r| ==> r[i] == s[start + i]
  {
    var from := Min(start, |s|);
    s[from .. from + Min(length, |s| - from)]
  }

  /**
   * `sprintf($format, $arg)` where the format holds one `%s`: the first
   * "%s" is replaced by `arg`. Any other '%' is copied as it stands.
   */
  function Sprintf(format: string, arg: string): string
  {
    if |format| < 2 then format
    else if format[0] == '%' && format[1] == 's' then arg + format[2..]
    else [format[0]] + Sprintf(format[1..], arg)
  }

  /** A format `prefix + "%s" + suffix` whose prefix has no '%' yields `prefix + arg + suffix`. */
  lemma {:induction false} SprintfSubstitutes(prefix: string, suffix: string, arg: string)
    requires '%' !in prefix
    ensures Sprintf(prefix + "%s" + suffix, arg) == prefix + arg + suffix
  {
    if prefix != [] {
      assert (prefix + "%s" + suffix)[1..] == prefix[1..] + "%s" + suffix;
      SprintfSubstitutes(prefix[1..], suffix, arg);
    }
  }
}

/**
 * The two JavaScript string built-ins the platform classifier relies on:
 * `String.prototype.includes` and `String.prototype.toLowerCase`.
 */
module Strings {

  /** `needle` occurs in `hay` as a contiguous block, starting at some index. */
  ghost predicate Infix(needle: string, hay: string) {
    exists i :: 0 <= i <= |hay| && needle <= hay[i..]
  }

  /**
   * `hay.includes(needle)`: a scan for `needle` at each start position.
   * The empty needle is included in every string, as in JavaScript.
   */
  function Includes(hay: string, needle: string): (r: bool)
    ensures r <==> Infix(needle, hay)
    decreases |hay|
  {
    if needle <= hay then
      assert hay[0..] == hay;
      true
    else if |hay| == 0 then
      false
    else
      var rest := Includes(hay[1..], needle);
      assert forall i :: 1 <= i <= |hay| ==> hay[1..][i - 1..] == hay[i..];
      assert rest ==> exists i :: 0 <= i <= |hay[1..]| && needle <= hay[1..][i..];
      rest
  }

  /** An infix placed between any prefix and suffix is found. */
  lemma InfixOfConcat(pre: string, needle: string, post: string)
    ensures Infix(needle, pre + needle + post)
  {
    var hay := pre + needle + post;
    assert hay[|pre|..] == needle + post;
    assert needle <= hay[|pre|..];
  }

  /** A needle whose first character never occurs in `hay` is not included in it. */
  lemma AbsentFirstChar(needle: string, hay: string)
    requires |needle| > 0 && needle[0] !in hay
    ensures !Infix(needle, hay)
  {
  }

  predicate IsUpper(c: char) {
    'A' <= c <= 'Z'
  }

  /** Lower-cases one character; only the ASCII letters A to Z change. */
  function LowerChar(c: char): (d: char)
    ensures !IsUpper(d)
    ensures !IsUpper(c) ==> d == c
    ensures IsUpper(c) ==> d as int - c as int == 32
  {
    if IsUpper(c) then (c as int - 'A' as int + 'a' as int) as char else c
  }

  /**
   * `s.toLowerCase()` on ASCII text: no upper-case letter is left, and every
   * character still agrees with the input once case is ignored.
   */
  function ToLower(s: string): (r: string)
    ensures |r| == |s|
    ensures forall i :: 0 <= i < |r| ==> !IsUpper(r[i])
    ensures forall i :: 0 <= i < |r| ==> LowerChar(r[i]) == LowerChar(s[i])
  {
    seq(|s|, i requires 0 <= i < |s| => LowerChar(s[i]))
  }

  /** Two strings that are equal up to the case of their letters. */
  predicate SameIgnoringCase(a: string, b: string) {
    |a| == |b| && forall i :: 0 <= i < |a| ==> LowerChar(a[i]) == LowerChar(b[i])
  }

  /** Lower-casing identifies exactly the strings that differ only in case. */
  lemma ToLowerIdentifiesCase(a: string, b: string)
    ensures SameIgnoringCase(a, b) <==> ToLower(a) == ToLower(b)
  {
  }

  /** Lower-casing twice is lower-casing once. */
  lemma ToLowerIdempotent(s: string)
    ensures ToLower(ToLower(s)) == ToLower(s)
  {
  }
}

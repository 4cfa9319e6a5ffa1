/**
 * String trimming as JavaScript's `String.prototype.trim` performs it, and the
 * truthiness test the screens apply to its result (`if (s.trim())`).
 */
module Text {

  /** The ECMAScript WhiteSpace and LineTerminator code points: what `trim` removes. */
  predicate IsWhitespace(c: char) {
    var n := c as int;
    || n == 0x09 || n == 0x0A || n == 0x0B || n == 0x0C || n == 0x0D
    || n == 0x20 || n == 0xA0 || n == 0x1680
    || (0x2000 <= n <= 0x200A)
    || n == 0x2028 || n == 0x2029 || n == 0x202F || n == 0x205F
    || n == 0x3000 || n == 0xFEFF
  }

  /** Every character is whitespace (the empty string included). */
  predicate IsBlank(s: string) {
    forall i :: 0 <= i < |s| ==> IsWhitespace(s[i])
  }

  /** The number of whitespace characters before the first other character. */
  function LeadingSpace(s: string): (n: nat)
    ensures n <= |s|
    ensures forall i :: 0 <= i < n ==> IsWhitespace(s[i])
    ensures n < |s| ==> !IsWhitespace(s[n])
  {
    if |s| > 0 && IsWhitespace(s[0]) then
      1 + LeadingSpace(s[1..])
    else
      0
  }

  /** The number of whitespace characters after the last other character. */
  function TrailingSpace(s: string): (n: nat)
    ensures n <= |s|
    ensures IsBlank(s[|s| - n..])
    ensures n < |s| ==> !IsWhitespace(s[|s| - 1 - n])
  {
    if |s| > 0 && IsWhitespace(s[|s| - 1]) then
      var k := TrailingSpace(s[..|s| - 1]);
      assert s[..|s| - 1][|s| - 1 - k..] == s[|s| - 1 - k..|s| - 1];
      1 + k
    else
      0
  }

  /** `r` is the slice of `s` starting at `i`, with only whitespace before and after it, and no whitespace at its ends. */
  predicate TrimmedAt(s: string, r: string, i: nat) {
    && i + |r| <= |s|
    && r == s[i..i + |r|]
    && IsBlank(s[..i])
    && IsBlank(s[i + |r|..])
    && (r != [] ==> !IsWhitespace(r[0]) && !IsWhitespace(r[|r| - 1]))
  }

  /** Reference definition of a trimmed string: some position `i` places `r` inside `s` as `TrimmedAt` says. */
  ghost predicate TrimmedOf(s: string, r: string) {
    exists i: nat :: TrimmedAt(s, r, i)
  }

  /** `s.trim()` */
  function Trim(s: string): (r: string)
    ensures TrimmedOf(s, r)
    ensures r == [] <==> IsBlank(s)
    ensures |r| <= |s|
  {
    var lead := LeadingSpace(s);
    assert IsBlank(s[..lead]);
    if lead == |s| then
      assert s[..0] == [] && s[0..0] == [] && s == s[..lead];
      assert TrimmedAt(s, [], 0);
      []
    else
      var trail := TrailingSpace(s);
      assert lead < |s| - trail;
      var r := s[lead..|s| - trail];
      assert r == s[lead..lead + |r|];
      assert s[lead + |r|..] == s[|s| - trail..];
      assert TrimmedAt(s, r, lead);
      r
  }

  /** The reference definition determines the trimmed string uniquely. */
  lemma TrimmedOfUnique(s: string, r1: string, r2: string)
    requires TrimmedOf(s, r1) && TrimmedOf(s, r2)
    ensures r1 == r2
  {
  }

  /** `Trim` computes exactly the string the reference definition describes. */
  lemma TrimMatchesReference(s: string, r: string)
    ensures TrimmedOf(s, r) <==> r == Trim(s)
  {
    if TrimmedOf(s, r) {
      TrimmedOfUnique(s, r, Trim(s));
    }
  }

  /** Trimming twice is trimming once. */
  lemma TrimIdempotent(s: string)
    ensures Trim(Trim(s)) == Trim(s)
  {
  }

  /** The JavaScript truthiness of `s.trim()`: it holds exactly when some character is not whitespace. */
  lemma TrimTruthy(s: string)
    ensures Trim(s) != [] <==> exists i :: 0 <= i < |s| && !IsWhitespace(s[i])
  {
  }
}

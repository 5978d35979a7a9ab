/** The parts of Go's `strings` package that the schema inspector relies on,
    restricted to ASCII text (strings are sequences of characters). */
module GoStrings {

  /** `strings.Index(s, string(c))`: the position of the first occurrence of
      `c` in `s`, or -1 when `c` does not occur. */
  function Index(s: string, c: char): (r: int)
    ensures -1 <= r < |s|
    ensures r == -1 <==> c !in s
    ensures r >= 0 ==> s[r] == c && c !in s[..r]
  {
    if s == [] then -1
    else if s[0] == c then 0
    else
      var rest := Index(s[1..], c);
      assert s[1..][..if rest < 0 then 0 else rest] == s[1..1 + if rest < 0 then 0 else rest];
      if rest == -1 then -1 else rest + 1
  }

  /** `strings.HasPrefix` */
  predicate HasPrefix(s: string, prefix: string) {
    |prefix| <= |s| && s[..|prefix|] == prefix
  }

  /** `strings.HasSuffix` */
  predicate HasSuffix(s: string, suffix: string) {
    |suffix| <= |s| && s[|s| - |suffix|..] == suffix
  }

  predicate IsUpper(c: char) {
    'A' <= c <= 'Z'
  }

  /** Lower-case mapping of one ASCII character; every other character is kept. */
  function LowerChar(c: char): (r: char)
    ensures !IsUpper(r)
    ensures IsUpper(c) ==> r as int == c as int + 32
    ensures !IsUpper(c) ==> r == c
  {
    if IsUpper(c) then (c as int + 32) as char else c
  }

  /** `strings.ToLower` over ASCII: every upper-case letter is replaced by its
      lower-case letter, every other character is kept in place. */
  function ToLower(s: string): (r: string)
    ensures |r| == |s|
    ensures forall i :: 0 <= i < |s| ==>
      && !IsUpper(r[i])
      && (if IsUpper(s[i]) then r[i] as int == s[i] as int + 32 else r[i] == s[i])
  {
    seq(|s|, i requires 0 <= i < |s| => LowerChar(s[i]))
  }

  /** Lower-casing changes no character that is not an upper-case letter:
      in particular a `'` stays a `'`, a `(` stays a `(`, and neither is produced
      from anything else. */
  lemma LowerCharKeepsNonLetters(c: char, d: char)
    requires !IsUpper(d)
    ensures LowerChar(c) == d <==> (c == d || (IsUpper(c) && c as int + 32 == d as int))
  {
  }

  /** Lower-casing is idempotent. */
  lemma ToLowerIdempotent(s: string)
    ensures ToLower(ToLower(s)) == ToLower(s)
  {
  }

  /** A character other than an upper-case letter occurs in `ToLower(s)` exactly
      where it occurs in `s`. */
  lemma ToLowerKeepsChar(s: string, c: char)
    requires !IsUpper(c) && c as int < 'a' as int
    ensures c in ToLower(s) <==> c in s
  {
    if c in ToLower(s) {
      var i :| 0 <= i < |s| && ToLower(s)[i] == c;
      assert s[i] == c;
    }
    if c in s {
      var i :| 0 <= i < |s| && s[i] == c;
      assert ToLower(s)[i] == c;
    }
  }
}

/**
 * String helpers the printer relies on: lodash's `trim`, `Array.join`, and
 * the repetition that `new Array(level).join(ident)` produces.
 */
module Strings {

  /** The characters JavaScript's `\s` class matches, which lodash's `trim` strips. */
  predicate IsWhitespace(c: char)
  {
    c == ' ' || c == '\t' || c == '\n' || c == '\r' || c == '\U{B}' || c == '\U{C}'
    || c == '\U{A0}' || c == '\U{1680}' || ('\U{2000}' <= c <= '\U{200A}')
    || c == '\U{2028}' || c == '\U{2029}' || c == '\U{202F}' || c == '\U{205F}'
    || c == '\U{3000}' || c == '\U{FEFF}'
  }

  predicate AllWhitespace(s: string)
  {
    forall i :: 0 <= i < |s| ==> IsWhitespace(s[i])
  }

  /** How many whitespace characters `s` starts with. */
  function LeadingSpace(s: string): (k: nat)
    ensures k <= |s|
    ensures forall i :: 0 <= i < k ==> IsWhitespace(s[i])
    ensures k == |s| || !IsWhitespace(s[k])
  {
    if s != [] && IsWhitespace(s[0]) then 1 + LeadingSpace(s[1..]) else 0
  }

  /** `s` without its leading whitespace: a suffix of `s` whose dropped prefix is all whitespace. */
  function TrimStart(s: string): (r: string)
    ensures |r| <= |s| && r == s[|s| - |r|..]
    ensures AllWhitespace(s[..|s| - |r|])
    ensures r == [] || !IsWhitespace(r[0])
  {
    s[LeadingSpace(s)..]
  }

  /** How many whitespace characters `s` ends with. */
  function TrailingSpace(s: string): (k: nat)
    ensures k <= |s|
    ensures forall i :: |s| - k <= i < |s| ==> IsWhitespace(s[i])
    ensures k == |s| || !IsWhitespace(s[|s| - k - 1])
  {
    if s != [] && IsWhitespace(s[|s| - 1]) then 1 + TrailingSpace(s[..|s| - 1]) else 0
  }

  /** `s` without its trailing whitespace: a prefix of `s` whose dropped suffix is all whitespace. */
  function TrimEnd(s: string): (r: string)
    ensures |r| <= |s| && r == s[..|r|]
    ensures AllWhitespace(s[|r|..])
    ensures r == [] || !IsWhitespace(r[|r| - 1])
  {
    s[..|s| - TrailingSpace(s)]
  }

  /** lodash `trim`: strips whitespace from both ends. */
  function Trim(s: string): (r: string)
    ensures r == [] || (!IsWhitespace(r[0]) && !IsWhitespace(r[|r| - 1]))
  {
    TrimStart(TrimEnd(s))
  }

  /** Trimming leaves nothing exactly when the string is all whitespace. */
  lemma TrimEmptyIff(s: string)
    ensures Trim(s) == [] <==> AllWhitespace(s)
  {
    var e := TrimEnd(s);
    if !AllWhitespace(s) {
      var i :| 0 <= i < |s| && !IsWhitespace(s[i]);
      assert e[i] == s[i];
    }
  }

  /** Trimming a string that neither starts nor ends with whitespace changes nothing. */
  lemma TrimUntrimmed(s: string)
    requires s == [] || (!IsWhitespace(s[0]) && !IsWhitespace(s[|s| - 1]))
    ensures Trim(s) == s
  {
  }

  /** Trimming twice is trimming once. */
  lemma TrimIdempotent(s: string)
    ensures Trim(Trim(s)) == Trim(s)
  {
    TrimUntrimmed(Trim(s));
  }

  /** `parts.join(sep)`. */
  function Join(parts: seq<string>, sep: string): string
  {
    if |parts| == 0 then ""
    else if |parts| == 1 then parts[0]
    else parts[0] + sep + Join(parts[1..], sep)
  }

  /** `s` written `count` times in a row. */
  function Repeat(s: string, count: nat): (r: string)
    ensures |r| == count * |s|
  {
    if count == 0 then "" else Repeat(s, count - 1) + s
  }

  /** Every block of `|s|` characters of a repetition is `s` itself. */
  lemma {:induction false} RepeatBlocks(s: string, count: nat, k: nat)
    requires k < count
    ensures |Repeat(s, count)| == count * |s|
    ensures Repeat(s, count)[k * |s|..(k + 1) * |s|] == s
  {
    var r := Repeat(s, count - 1);
    if k < count - 1 {
      RepeatBlocks(s, count - 1, k);
      assert (k + 1) * |s| <= (count - 1) * |s| by {
        assert k + 1 <= count - 1;
      }
      assert (r + s)[k * |s|..(k + 1) * |s|] == r[k * |s|..(k + 1) * |s|];
    } else {
      assert k * |s| == |r|;
      assert (r + s)[|r|..|r| + |s|] == s;
    }
  }
}

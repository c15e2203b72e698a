/**
 * The few JavaScript string operations the prompt builder relies on:
 * `Array.prototype.join`, `String.prototype.includes`, `String.prototype.trim`
 * and the `a || b` fallback on strings.
 */
module Text {

  /** `s || fallback` on a string: only the exact empty string is falsy. */
  function Or(s: string, fallback: string): string {
    if s == "" then fallback else s
  }

  /** `parts.join(sep)`: the parts with `sep` between neighbours and nowhere else. */
  function Join(parts: seq<string>, sep: string): string {
    if |parts| == 0 then ""
    else if |parts| == 1 then parts[0]
    else Join(parts[..|parts| - 1], sep) + sep + parts[|parts| - 1]
  }

  /** Joining two non-empty lists puts exactly one separator at the seam. */
  lemma {:induction false} JoinAppend(a: seq<string>, b: seq<string>, sep: string)
    requires |a| > 0 && |b| > 0
    ensures Join(a + b, sep) == Join(a, sep) + sep + Join(b, sep)
    decreases |b|
  {
    if |b| == 1 {
      assert (a + b)[..|a + b| - 1] == a;
    } else {
      var b' := b[..|b| - 1];
      assert (a + b)[..|a + b| - 1] == a + b';
      assert b[..|b| - 1] == b';
      JoinAppend(a, b', sep);
    }
  }

  /** `s` begins with `p`. */
  predicate StartsWith(s: string, p: string) {
    |p| <= |s| && s[..|p|] == p
  }

  /** `sub` occurs in `s` starting at position `i`. */
  predicate OccursAt(s: string, sub: string, i: int) {
    0 <= i && i + |sub| <= |s| && s[i..i + |sub|] == sub
  }

  /** `s.includes(sub)`, by scanning the start positions from left to right. */
  predicate Contains(s: string, sub: string)
    decreases |s|
  {
    StartsWith(s, sub) || (|s| > 0 && Contains(s[1..], sub))
  }

  /** The scan finds `sub` exactly when `sub` occurs at some position of `s`. */
  lemma {:induction false} ContainsAt(s: string, sub: string)
    ensures Contains(s, sub) <==> exists i :: OccursAt(s, sub, i)
    decreases |s|
  {
    if StartsWith(s, sub) {
      assert OccursAt(s, sub, 0);
    }
    if |s| > 0 {
      ContainsAt(s[1..], sub);
      if Contains(s[1..], sub) {
        var i :| OccursAt(s[1..], sub, i);
        assert OccursAt(s, sub, i + 1);
      }
      if exists i :: OccursAt(s, sub, i) {
        var i :| OccursAt(s, sub, i);
        if i > 0 {
          assert OccursAt(s[1..], sub, i - 1);
        } else {
          assert StartsWith(s, sub);
        }
      }
    } else if exists i :: OccursAt(s, sub, i) {
      var i :| OccursAt(s, sub, i);
      assert i == 0 && sub == [];
      assert s[..0] == sub;
    }
  }

  /** A string contains whatever is placed inside it. */
  lemma ContainsPlaced(a: string, sub: string, b: string)
    ensures Contains(a + sub + b, sub)
  {
    ContainsAt(a + sub + b, sub);
    assert OccursAt(a + sub + b, sub, |a|);
  }

  /** A string lacking some character of `sub` does not contain `sub`. */
  lemma LacksCharacter(s: string, sub: string, c: char)
    requires c in sub && c !in s
    ensures !Contains(s, sub)
  {
    ContainsAt(s, sub);
  }

  /**
   * A prefix cannot complete an occurrence of `sub` that starts with a
   * character the prefix does not use: `p + x` contains `sub` only if `x` does.
   */
  lemma PrefixAddsNoOccurrence(p: string, x: string, sub: string)
    requires sub != "" && sub[0] !in p && !Contains(x, sub)
    ensures !Contains(p + x, sub)
  {
    ContainsAt(p + x, sub);
    ContainsAt(x, sub);
    forall i | |p| <= i && i + |sub| <= |p + x|
      ensures OccursAt(p + x, sub, i) ==> OccursAt(x, sub, i - |p|)
    {
      assert (p + x)[i..i + |sub|] == x[i - |p|..i - |p| + |sub|];
    }
    forall i | 0 <= i < |p| ensures (p + x)[i] == p[i] {
    }
  }

  /**
   * The characters JavaScript's `trim` removes: the WhiteSpace and
   * LineTerminator code points of the ECMAScript standard, with the space
   * separators (Unicode category Zs) listed one by one.
   */
  predicate IsWhitespace(c: char) {
    c == '\t' || c == '\n' || c == '\U{B}' || c == '\U{C}' || c == '\r' || c == ' '
    || c == '\U{A0}' || c == '\U{1680}' || ('\U{2000}' <= c <= '\U{200A}')
    || c == '\U{2028}' || c == '\U{2029}' || c == '\U{202F}' || c == '\U{205F}' || c == '\U{3000}'
    || c == '\U{FEFF}'
  }

  /** `s` with its leading whitespace removed: a suffix of `s` that does not start with whitespace. */
  function TrimStart(s: string): (r: string)
    ensures |r| <= |s| && r == s[|s| - |r|..]
    ensures forall k :: 0 <= k < |s| - |r| ==> IsWhitespace(s[k])
    ensures r != "" ==> !IsWhitespace(r[0])
    decreases |s|
  {
    if |s| > 0 && IsWhitespace(s[0]) then TrimStart(s[1..]) else s
  }

  /** `s` with its trailing whitespace removed: a prefix of `s` that does not end with whitespace. */
  function TrimEnd(s: string): (r: string)
    ensures |r| <= |s| && r == s[..|r|]
    ensures forall k :: |r| <= k < |s| ==> IsWhitespace(s[k])
    ensures r != "" ==> !IsWhitespace(r[|r| - 1])
    decreases |s|
  {
    if |s| > 0 && IsWhitespace(s[|s| - 1]) then TrimEnd(s[..|s| - 1]) else s
  }

  /** `s.trim()`. */
  function Trim(s: string): string {
    TrimEnd(TrimStart(s))
  }

  /**
   * The trimmed string is the slice `s[i..j]` where only whitespace lies
   * outside the slice and the slice neither starts nor ends with whitespace.
   */
  lemma TrimIsCore(s: string) returns (i: nat, j: nat)
    ensures i <= j <= |s| && Trim(s) == s[i..j]
    ensures forall k :: 0 <= k < i ==> IsWhitespace(s[k])
    ensures forall k :: j <= k < |s| ==> IsWhitespace(s[k])
    ensures i < j ==> !IsWhitespace(s[i]) && !IsWhitespace(s[j - 1])
  {
    var t := TrimStart(s);
    i := |s| - |t|;
    var r := TrimEnd(t);
    j := i + |r|;
    assert Trim(s) == r;
    assert t == s[i..];
    assert r == t[..j - i];
    assert r == s[i..j] by {
      assert t[..j - i] == s[i..][..j - i] == s[i..j];
    }
    TrailingWhitespace(s, t, i, j);
    if i < j {
      assert s[i] == r[0];
      assert s[j - 1] == r[j - 1 - i];
    }
  }

  /** Whitespace that `TrimEnd` removes from the suffix `t` of `s` lies at the end of `s`. */
  lemma TrailingWhitespace(s: string, t: string, i: nat, j: nat)
    requires i <= |s| && t == s[i..] && j - i == |TrimEnd(t)| && i <= j
    ensures forall k :: j <= k < |s| ==> IsWhitespace(s[k])
  {
    forall k | j <= k < |s| ensures IsWhitespace(s[k]) {
      assert s[k] == t[k - i];
    }
  }

  /** Trimming leaves nothing exactly when every character is whitespace. */
  lemma TrimEmptyIffBlank(s: string)
    ensures Trim(s) == "" <==> forall k :: 0 <= k < |s| ==> IsWhitespace(s[k])
  {
    var t := TrimStart(s);
    if t != "" {
      assert !IsWhitespace(s[|s| - |t|]);
    }
  }

  /** Trimming twice is trimming once. */
  lemma TrimIdempotent(s: string)
    ensures Trim(Trim(s)) == Trim(s)
  {
    var r := Trim(s);
    var i, j := TrimIsCore(s);
    if r != "" {
      assert !IsWhitespace(r[0]);
      assert TrimStart(r) == r;
      assert TrimEnd(r) == r;
    }
  }
}

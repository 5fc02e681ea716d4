/**
 * The few string operations of the JavaScript standard library the extension relies on:
 * `String.prototype.trim`, `String.prototype.includes` and (ASCII) `toLowerCase`.
 * Strings are sequences of Unicode scalar values.
 */
module Strings {

  /**
   * The characters `trim` strips: ECMAScript's WhiteSpace (TAB, VT, FF, ZWNBSP and the
   * Unicode space separators) and LineTerminator (LF, CR, LS, PS) productions.
   */
  predicate IsWhiteSpace(c: char) {
    || c == '\t' || c == '\n' || c == '\U{000B}' || c == '\U{000C}' || c == '\r'
    || c == ' ' || c == '\U{00A0}' || c == '\U{1680}'
    || ('\U{2000}' <= c <= '\U{200A}')
    || c == '\U{2028}' || c == '\U{2029}' || c == '\U{202F}' || c == '\U{205F}'
    || c == '\U{3000}' || c == '\U{FEFF}'
  }

  function TrimStart(s: string): string {
    if s != [] && IsWhiteSpace(s[0]) then TrimStart(s[1..]) else s
  }

  function TrimEnd(s: string): string {
    if s != [] && IsWhiteSpace(s[|s| - 1]) then TrimEnd(s[..|s| - 1]) else s
  }

  /** `s.trim()`: `s` without its leading and trailing white space. */
  function Trim(s: string): string {
    TrimEnd(TrimStart(s))
  }

  /** A string `trim` leaves alone: empty, or starting and ending with a non-space. */
  predicate Trimmed(s: string) {
    s == [] || (!IsWhiteSpace(s[0]) && !IsWhiteSpace(s[|s| - 1]))
  }

  /** Every character of `s` is white space. */
  predicate AllWhiteSpace(s: string) {
    forall i :: 0 <= i < |s| ==> IsWhiteSpace(s[i])
  }

  lemma {:induction false} TrimStartShape(s: string) returns (k: nat)
    ensures k <= |s| && TrimStart(s) == s[k..] && AllWhiteSpace(s[..k])
    ensures TrimStart(s) == [] || !IsWhiteSpace(TrimStart(s)[0])
  {
    if s != [] && IsWhiteSpace(s[0]) {
      var k' := TrimStartShape(s[1..]);
      k := k' + 1;
      assert s[..k] == [s[0]] + s[1..][..k'];
    } else {
      k := 0;
    }
  }

  lemma {:induction false} TrimEndShape(s: string) returns (k: nat)
    ensures k <= |s| && TrimEnd(s) == s[..k] && AllWhiteSpace(s[k..])
    ensures TrimEnd(s) == [] || !IsWhiteSpace(TrimEnd(s)[|TrimEnd(s)| - 1])
  {
    if s != [] && IsWhiteSpace(s[|s| - 1]) {
      var p := s[..|s| - 1];
      k := TrimEndShape(p);
      assert s[..k] == p[..k];
      forall i | 0 <= i < |s[k..]|
        ensures IsWhiteSpace(s[k..][i])
      {
        if k + i < |p| {
          assert s[k..][i] == p[k..][i];
        }
      }
    } else {
      k := |s|;
    }
  }

  /**
   * What `trim` returns: the slice `s[i..j]` with only white space outside it, itself
   * neither starting nor ending with white space.
   */
  lemma TrimIsCore(s: string) returns (i: nat, j: nat)
    ensures i <= j <= |s| && Trim(s) == s[i..j]
    ensures AllWhiteSpace(s[..i]) && AllWhiteSpace(s[j..])
    ensures Trimmed(Trim(s))
  {
    i := TrimStartShape(s);
    var t := TrimStart(s);
    var m := TrimEndShape(t);
    j := i + m;
    assert s[j..] == t[m..];
    if Trim(s) != [] {
      assert Trim(s)[0] == t[0];
    }
  }

  /** `trim` changes exactly the strings that start or end with white space. */
  lemma TrimFixedIff(s: string)
    ensures Trim(s) == s <==> Trimmed(s)
  {
    var _, _ := TrimIsCore(s);
    if Trimmed(s) && s != [] {
      assert TrimStart(s) == s;
      assert TrimEnd(s) == s;
    }
  }

  /** `trim` is idempotent. */
  lemma TrimIdempotent(s: string)
    ensures Trim(Trim(s)) == Trim(s)
  {
    var _, _ := TrimIsCore(s);
    TrimFixedIff(Trim(s));
  }

  /** `s.includes(p)`: `p` occurs in `s` as a contiguous piece. */
  predicate Includes(s: string, p: string)
    decreases |s|
  {
    p <= s || (s != [] && Includes(s[1..], p))
  }

  /** `p` occurs in `s` starting at position `i`. */
  predicate OccursAt(s: string, p: string, i: nat) {
    i + |p| <= |s| && s[i..i + |p|] == p
  }

  /** `Includes` agrees with the positional definition of a substring. */
  lemma {:induction false} IncludesIff(s: string, p: string)
    ensures Includes(s, p) <==> exists i: nat :: OccursAt(s, p, i)
    decreases |s|
  {
    if p <= s {
      assert OccursAt(s, p, 0);
    } else if s == [] {
    } else {
      IncludesIff(s[1..], p);
      if exists i: nat :: OccursAt(s, p, i) {
        var i: nat :| OccursAt(s, p, i);
        if i > 0 {
          assert s[1..][i - 1..i - 1 + |p|] == s[i..i + |p|];
          assert OccursAt(s[1..], p, i - 1);
        }
      }
      if Includes(s[1..], p) {
        var i: nat :| OccursAt(s[1..], p, i);
        assert s[i + 1..i + 1 + |p|] == s[1..][i..i + |p|];
        assert OccursAt(s, p, i + 1);
      }
    }
  }

  /** A string includes every piece it is built around. */
  lemma IncludesPiece(a: string, p: string, b: string)
    ensures Includes(a + p + b, p)
  {
    assert (a + p + b)[|a|..|a| + |p|] == p;
    assert OccursAt(a + p + b, p, |a|);
    IncludesIff(a + p + b, p);
  }

  /** Every string includes itself; the occurrence is found at position 0. */
  lemma IncludesSelf(s: string)
    ensures Includes(s, s)
  {
  }

  /** `toLowerCase` on the ASCII letters; every other character is left as it is. */
  function LowerChar(c: char): (r: char)
    ensures 'A' <= c <= 'Z' ==> 'a' <= r <= 'z' && r as int == c as int + 32
    ensures !('A' <= c <= 'Z') ==> r == c
  {
    if 'A' <= c <= 'Z' then (c as int + 32) as char else c
  }

  function ToLower(s: string): (r: string)
    ensures |r| == |s|
    ensures forall i :: 0 <= i < |s| ==> r[i] == LowerChar(s[i])
  {
    if s == [] then [] else [LowerChar(s[0])] + ToLower(s[1..])
  }

  /** Lower-casing works character by character, so it distributes over concatenation. */
  lemma ToLowerAppend(a: string, b: string)
    ensures ToLower(a + b) == ToLower(a) + ToLower(b)
  {
    assert forall i :: 0 <= i < |a + b| ==> ToLower(a + b)[i] == (ToLower(a) + ToLower(b))[i];
  }
}

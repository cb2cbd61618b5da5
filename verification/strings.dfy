/**
 * The handful of Python string operations the analyst and the evaluator use,
 * over `seq<char>` (one element per Unicode code point, as Python's `str`):
 * `p in s`, `s.split(sep)[0]` and `[1]`, `s.strip()`, `s.replace(p, "")`,
 * `s.upper()` and `sep.join(parts)`.
 */
module Strings {
  import opened Wrappers

  /** `p` is a prefix of `s`. */
  predicate IsPrefix(p: string, s: string) {
    |p| <= |s| && s[..|p|] == p
  }

  /** `p` occurs in `s` starting at index `i`. */
  predicate OccursAt(s: string, p: string, i: int) {
    0 <= i && i + |p| <= |s| && s[i..i + |p|] == p
  }

  /** Python's `p in s`. */
  predicate Contains(s: string, p: string)
    decreases |s|
  {
    IsPrefix(p, s) || (|s| > 0 && Contains(s[1..], p))
  }

  /** Index of the first occurrence of `p` in `s` (Python's `s.find(p)`, with `None` for -1). */
  function IndexOf(s: string, p: string): (r: Option<nat>)
    decreases |s|
    ensures r.Some? <==> Contains(s, p)
    ensures r.Some? ==> OccursAt(s, p, r.value)
    ensures forall j :: 0 <= j && (r.None? || j < r.value) ==> !OccursAt(s, p, j)
  {
    if IsPrefix(p, s) then Some(0)
    else if |s| == 0 then None
    else
      var rest := IndexOf(s[1..], p);
      assert forall j :: 0 < j ==> (OccursAt(s, p, j) <==> OccursAt(s[1..], p, j - 1)) by {
        forall j | 0 < j ensures OccursAt(s, p, j) <==> OccursAt(s[1..], p, j - 1) {
          if j + |p| <= |s| {
            assert s[1..][j - 1..j - 1 + |p|] == s[j..j + |p|];
          }
        }
      }
      match rest
      case None => None
      case Some(k) => Some(k + 1)
  }

  /** `Contains` means exactly that there is an occurrence somewhere. */
  lemma ContainsIffOccurs(s: string, p: string)
    ensures Contains(s, p) <==> exists i :: OccursAt(s, p, i)
  {
    var r := IndexOf(s, p);
    if r.Some? {
      assert OccursAt(s, p, r.value);
    }
  }

  /** An occurrence at any index makes `p in s` hold. */
  lemma OccursContains(s: string, p: string, i: nat)
    requires OccursAt(s, p, i)
    ensures Contains(s, p)
  {
    ContainsIffOccurs(s, p);
  }

  /** An occurrence in `s` that ends within a prefix `b` of `s` is an occurrence in `b`. */
  lemma OccursInPrefix(s: string, b: string, p: string, i: nat)
    requires IsPrefix(b, s)
    ensures OccursAt(s, p, i) && i + |p| <= |b| ==> Contains(b, p)
  {
    if OccursAt(s, p, i) && i + |p| <= |b| {
      assert b[i..i + |p|] == s[i..i + |p|];
      OccursContains(b, p, i);
    }
  }

  /** An occurrence with none before it is the one `IndexOf` finds. */
  lemma FirstOccurrence(s: string, p: string, i: nat)
    requires OccursAt(s, p, i)
    requires forall j :: 0 <= j < i ==> !OccursAt(s, p, j)
    ensures IndexOf(s, p) == Some(i)
  {
    OccursContains(s, p, i);
  }

  /** A prefix of `s` occurs in `s`. */
  lemma PrefixContained(p: string, s: string)
    requires IsPrefix(p, s)
    ensures Contains(s, p)
  {
    assert s[0..|p|] == p;
    OccursContains(s, p, 0);
  }

  /** `p in b` and `b in a` give `p in a`. */
  lemma ContainsTrans(a: string, b: string, p: string)
    requires Contains(a, b) && Contains(b, p)
    ensures Contains(a, p)
  {
    var i := IndexOf(a, b).value;
    var j := IndexOf(b, p).value;
    OccursTrans(a, b, p, i, j);
    OccursContains(a, p, i + j);
  }

  /** `p` at j in `b`, and `b` at i in `a`, put `p` at i + j in `a`. */
  lemma OccursTrans(a: string, b: string, p: string, i: nat, j: nat)
    requires OccursAt(a, b, i) && OccursAt(b, p, j)
    ensures OccursAt(a, p, i + j)
  {
    SliceOfSlice(a, i, i + |b|, j, j + |p|);
  }

  /** What `a` lacks, no string inside `a` holds. */
  lemma LacksTrans(a: string, b: string, p: string)
    requires Contains(a, b) && !Contains(a, p)
    ensures !Contains(b, p)
  {
    if Contains(b, p) {
      ContainsTrans(a, b, p);
    }
  }

  /** An occurrence inside a slice is an occurrence in the whole string. */
  lemma ContainsSlice(s: string, p: string, i: nat, j: nat)
    requires i <= j <= |s|
    requires Contains(s[i..j], p)
    ensures Contains(s, p)
  {
    var t := s[i..j];
    var r := IndexOf(t, p);
    var k := r.value;
    assert OccursAt(t, p, k);
    SliceOfSlice(s, i, j, k, k + |p|);
    OccursContains(s, p, i + k);
  }

  /** A slice of a slice is a slice of the whole. */
  lemma SliceOfSlice(s: string, i: nat, j: nat, a: nat, b: nat)
    requires i <= j <= |s| && a <= b <= j - i
    ensures s[i..j][a..b] == s[i + a..i + b]
  {
    var inner, outer := s[i..j][a..b], s[i + a..i + b];
    forall k | 0 <= k < b - a ensures inner[k] == outer[k] {
      assert inner[k] == s[i + a + k];
    }
  }

  /** An occurrence in either part is an occurrence in their concatenation. */
  lemma ContainsConcat(a: string, b: string, p: string)
    requires Contains(a, p) || Contains(b, p)
    ensures Contains(a + b, p)
  {
    var s := a + b;
    if Contains(a, p) {
      assert s[..|a|] == a;
      ContainsSlice(s, p, 0, |a|);
    } else {
      assert s[|a|..|s|] == b;
      ContainsSlice(s, p, |a|, |s|);
    }
  }

  /** A pattern with a character that `s` lacks does not occur in `s`. */
  lemma NotContainsMissingChar(s: string, p: string, k: nat)
    requires k < |p| && p[k] !in s
    ensures !Contains(s, p)
  {
    ContainsIffOccurs(s, p);
    forall i | 0 <= i && i + |p| <= |s| ensures !OccursAt(s, p, i) {
      assert s[i..i + |p|][k] == s[i + k];
    }
  }

  /** Python's `s.split(sep)[0]`: everything before the first `sep`, or all of `s`. */
  function FirstPiece(s: string, sep: string): (r: string)
    requires |sep| > 0
    ensures IsPrefix(r, s) && !Contains(r, sep)
    ensures !Contains(s, sep) ==> r == s
    ensures Contains(s, sep) ==> OccursAt(s, sep, |r|)
  {
    match IndexOf(s, sep)
    case None => s
    case Some(i) =>
      var r := s[..i];
      assert !Contains(r, sep) by {
        ContainsIffOccurs(r, sep);
        forall j | OccursAt(r, sep, j) ensures OccursAt(s, sep, j) {
          assert r[j..j + |sep|] == s[j..j + |sep|];
        }
      }
      r
  }

  /**
   * Python's `s.split(sep)[1]`: the text between the first and the second
   * `sep` (or the end). Python raises IndexError when `sep` is absent.
   */
  function SecondPiece(s: string, sep: string): (r: string)
    requires |sep| > 0 && Contains(s, sep)
    ensures !Contains(r, sep)
    ensures IsPrefix(r, s[IndexOf(s, sep).value + |sep|..])
    ensures var rest := s[IndexOf(s, sep).value + |sep|..];
      |r| == |rest| || OccursAt(rest, sep, |r|)
  {
    var i := IndexOf(s, sep).value;
    FirstPiece(s[i + |sep|..], sep)
  }

  /** The characters Python's `str.isspace` accepts, which `str.strip()` removes. */
  predicate IsSpace(c: char) {
    ('\t' <= c <= '\r') || ('\U{1C}' <= c <= ' ') || c == '\U{85}' || c == '\U{A0}'
    || c == '\U{1680}' || ('\U{2000}' <= c <= '\U{200A}') || c == '\U{2028}' || c == '\U{2029}'
    || c == '\U{202F}' || c == '\U{205F}' || c == '\U{3000}'
  }

  function TrimStart(s: string): (r: string)
    ensures |r| <= |s| && r == s[|s| - |r|..]
    ensures forall k :: 0 <= k < |s| - |r| ==> IsSpace(s[k])
    ensures r == [] || !IsSpace(r[0])
  {
    if |s| > 0 && IsSpace(s[0]) then
      var t := s[1..];
      var r := TrimStart(t);
      assert t[|t| - |r|..] == s[|s| - |r|..];
      assert forall k :: 1 <= k < |s| - |r| ==> IsSpace(s[k]) by {
        forall k | 1 <= k < |s| - |r| ensures IsSpace(s[k]) {
          assert s[k] == t[k - 1];
        }
      }
      r
    else s
  }

  function TrimEnd(s: string): (r: string)
    ensures |r| <= |s| && r == s[..|r|]
    ensures forall k :: |r| <= k < |s| ==> IsSpace(s[k])
    ensures r == [] || !IsSpace(r[|r| - 1])
  {
    if |s| > 0 && IsSpace(s[|s| - 1]) then TrimEnd(s[..|s| - 1]) else s
  }

  /** How many characters `s.strip()` removes from the front of `s`. */
  function LeadingSpace(s: string): (n: nat)
    ensures n <= |s|
  {
    |s| - |TrimStart(s)|
  }

  /**
   * Python's `s.strip()`: the slice of `s` left after the whitespace at
   * both ends is removed; it neither starts nor ends with whitespace.
   */
  function Strip(s: string): (r: string)
    ensures LeadingSpace(s) + |r| <= |s|
    ensures r == s[LeadingSpace(s)..LeadingSpace(s) + |r|]
    ensures forall k :: 0 <= k < LeadingSpace(s) ==> IsSpace(s[k])
    ensures forall k :: LeadingSpace(s) + |r| <= k < |s| ==> IsSpace(s[k])
    ensures r == [] || (!IsSpace(r[0]) && !IsSpace(r[|r| - 1]))
  {
    var t := TrimStart(s);
    var r := TrimEnd(t);
    StripFacts(s, t, r);
    r
  }

  /** Strip's contract from the contracts of the two trims alone, without unfolding them. */
  lemma StripFacts(s: string, t: string, r: string)
    requires |t| <= |s| && t == s[|s| - |t|..]
    requires forall k :: 0 <= k < |s| - |t| ==> IsSpace(s[k])
    requires t == [] || !IsSpace(t[0])
    requires |r| <= |t| && r == t[..|r|]
    requires forall k :: |r| <= k < |t| ==> IsSpace(t[k])
    requires r == [] || !IsSpace(r[|r| - 1])
    ensures r == s[|s| - |t|..|s| - |t| + |r|]
    ensures forall k :: |s| - |t| + |r| <= k < |s| ==> IsSpace(s[k])
    ensures r == [] || (!IsSpace(r[0]) && !IsSpace(r[|r| - 1]))
  {
    var n := |s| - |t|;
    forall k | n + |r| <= k < |s| ensures IsSpace(s[k]) {
      assert s[k] == t[k - n];
    }
    if r != [] {
      assert r[0] == t[0];
    }
  }

  /** `s.strip()` occurs in `s`. */
  lemma StripContained(s: string)
    ensures Contains(s, Strip(s))
  {
    var n := LeadingSpace(s);
    assert OccursAt(s, Strip(s), n);
    OccursContains(s, Strip(s), n);
  }

  /** Python's `s.replace(p, "")`: occurrences are removed left to right, without overlap. */
  function RemoveAll(s: string, p: string): (r: string)
    decreases |s|
    ensures |r| <= |s|
  {
    if |p| == 0 then s
    else if IsPrefix(p, s) then RemoveAll(s[|p|..], p)
    else if |s| == 0 then []
    else [s[0]] + RemoveAll(s[1..], p)
  }

  /** A text without the pattern is left as it is. */
  lemma {:induction false} RemoveAllAbsent(s: string, p: string)
    requires !Contains(s, p)
    ensures RemoveAll(s, p) == s
    decreases |s|
  {
    if |p| > 0 && |s| > 0 {
      RemoveAllAbsent(s[1..], p);
    }
  }

  /**
   * Removing a single character drops exactly its occurrences: none is left
   * and every other character keeps its count.
   */
  lemma {:induction false} RemoveCharFacts(s: string, c: char)
    ensures c !in RemoveAll(s, [c])
    ensures multiset(RemoveAll(s, [c])) == multiset(s)[c := 0]
    decreases |s|
  {
    if |s| > 0 {
      RemoveCharFacts(s[1..], c);
      assert s == [s[0]] + s[1..];
      assert multiset(s) == multiset([s[0]]) + multiset(s[1..]);
      if s[0] == c {
        assert IsPrefix([c], s);
      } else {
        assert !IsPrefix([c], s);
        var r := RemoveAll(s[1..], [c]);
        assert multiset([s[0]] + r) == multiset([s[0]]) + multiset(r);
      }
    }
  }

  /** Removing a single character from a one-character text keeps it exactly when it differs. */
  lemma RemoveCharSingle(x: char, c: char)
    ensures RemoveAll([x], [c]) == if x == c then [] else [x]
  {
    if x == c {
      assert IsPrefix([c], [x]);
      assert [x][1..] == [];
    } else {
      assert [x][..1] == [x];
      assert [x][1..] == [];
    }
  }

  /** Removing a single character works piecewise: the kept characters stay in their order. */
  lemma {:induction false} RemoveCharConcat(a: string, b: string, c: char)
    ensures RemoveAll(a + b, [c]) == RemoveAll(a, [c]) + RemoveAll(b, [c])
    decreases |a|
  {
    if |a| > 0 {
      var s := a + b;
      assert s[0] == a[0];
      assert s[1..] == a[1..] + b;
      RemoveCharConcat(a[1..], b, c);
      if a[0] == c {
        assert IsPrefix([c], s);
        assert IsPrefix([c], a);
      } else {
        assert !IsPrefix([c], s);
        assert !IsPrefix([c], a);
      }
    } else {
      assert a + b == b;
    }
  }

  /**
   * A leading part without the first character of `p` holds no occurrence
   * of `p`, so it is kept as it is.
   */
  lemma {:induction false} RemoveAllKeepsPrefix(code: string, rest: string, p: string)
    requires |p| > 0 && p[0] !in code
    ensures RemoveAll(code + rest, p) == code + RemoveAll(rest, p)
    decreases |code|
  {
    var s := code + rest;
    if |code| > 0 {
      assert !IsPrefix(p, s) by { assert s[0] == code[0]; }
      assert s[1..] == code[1..] + rest;
      RemoveAllKeepsPrefix(code[1..], rest, p);
    } else {
      assert s == rest;
    }
  }

  /** Python's `c.upper()` for ASCII letters; other characters are kept. */
  function UpperChar(c: char): (r: char)
  {
    if 'a' <= c <= 'z' then (c as int - 32) as char else c
  }

  function Upper(s: string): (r: string)
    ensures |r| == |s|
    ensures forall k :: 0 <= k < |s| ==> r[k] == UpperChar(s[k])
  {
    if |s| == 0 then [] else [UpperChar(s[0])] + Upper(s[1..])
  }

  /** Python's `sep.join(parts)`. */
  function Join(parts: seq<string>, sep: string): (r: string)
  {
    if |parts| == 0 then []
    else if |parts| == 1 then parts[0]
    else parts[0] + sep + Join(parts[1..], sep)
  }

  /** Every part appears in the joined string. */
  lemma {:induction false} JoinContainsEach(parts: seq<string>, sep: string, k: nat)
    requires k < |parts|
    ensures Contains(Join(parts, sep), parts[k])
    decreases |parts|
  {
    var j := Join(parts, sep);
    if |parts| == 1 {
      assert OccursAt(j, parts[0], 0);
      ContainsIffOccurs(j, parts[0]);
    } else if k == 0 {
      assert j == parts[0] + (sep + Join(parts[1..], sep));
      assert OccursAt(j, parts[0], 0);
      ContainsIffOccurs(j, parts[0]);
    } else {
      JoinContainsEach(parts[1..], sep, k - 1);
      assert j == (parts[0] + sep) + Join(parts[1..], sep);
      ContainsConcat(parts[0] + sep, Join(parts[1..], sep), parts[k]);
    }
  }

  function TotalLength(parts: seq<string>): nat {
    if |parts| == 0 then 0 else |parts[0]| + TotalLength(parts[1..])
  }

  /** The joined string holds every part plus one separator between each neighbouring pair. */
  lemma {:induction false} JoinLength(parts: seq<string>, sep: string)
    requires |parts| > 0
    ensures |Join(parts, sep)| == TotalLength(parts) + (|parts| - 1) * |sep|
    decreases |parts|
  {
    if |parts| > 1 {
      JoinLength(parts[1..], sep);
    }
  }
}

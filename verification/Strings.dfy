/** The few facts about Go strings that the components below share: the byte-wise
    order behind `<` and sort.Strings, substring tests and strings.ReplaceAll. */
module Strings {
  /** Go's `<` on strings: byte-wise lexicographic order. */
  predicate Less(a: string, b: string)
    decreases |a|
  {
    b != "" && (a == "" || a[0] < b[0] || (a[0] == b[0] && Less(a[1..], b[1..])))
  }

  /** The first place where they differ decides; a proper prefix comes first. */
  lemma {:induction false} LessMeans(a: string, b: string)
    ensures Less(a, b) <==> exists i: nat :: i <= |a| && i < |b| && a[..i] == b[..i] && (i == |a| || a[i] < b[i])
    decreases |a|
  {
    if a == "" || b == "" {
      assert b != "" ==> a[..0] == b[..0];
    } else if a[0] != b[0] {
      assert a[..0] == b[..0];
      forall i: nat | 0 < i <= |a| && i < |b| ensures a[..i] != b[..i] { assert a[..i][0] != b[..i][0]; }
    } else {
      var c, d := a[1..], b[1..];
      LessMeans(c, d);
      forall i: nat | i <= |c| && i < |d| ensures c[..i] == d[..i] <==> a[..i + 1] == b[..i + 1] {
        assert a[..i + 1] == [a[0]] + c[..i] && b[..i + 1] == [b[0]] + d[..i];
      }
      if i: nat :| i <= |a| && i < |b| && a[..i] == b[..i] && (i == |a| || a[i] < b[i]) {
        assert i > 0 && c[..i - 1] == d[..i - 1];
      }
    }
  }

  lemma {:induction false} LessIrreflexive(a: string)
    ensures !Less(a, a)
    decreases |a|
  {
    if a != "" {
      LessIrreflexive(a[1..]);
    }
  }

  lemma {:induction false} LessTransitive(a: string, b: string, c: string)
    requires Less(a, b) && Less(b, c)
    ensures Less(a, c)
    decreases |a|
  {
    if a != "" && a[0] == b[0] && b[0] == c[0] {
      LessTransitive(a[1..], b[1..], c[1..]);
    }
  }

  lemma {:induction false} LessTotal(a: string, b: string)
    ensures Less(a, b) || a == b || Less(b, a)
    decreases |a|
  {
    if a != "" && b != "" && a[0] == b[0] {
      LessTotal(a[1..], b[1..]);
      assert a == [a[0]] + a[1..] && b == [b[0]] + b[1..];
    }
  }

  /** The order is asymmetric, and two strings incomparable to a third stand on the
      same side of every other: what a stable sort needs of its comparator. */
  lemma LessNegTransitive(a: string, b: string, c: string)
    requires !Less(a, b) && !Less(b, c)
    ensures !Less(a, c)
  {
    LessTotal(a, b);
    LessTotal(b, c);
    LessIrreflexive(c);
    if Less(a, c) {
      if b != c { LessTransitive(a, c, b); }
    }
  }

  predicate HasPrefix(s: string, p: string) {
    |p| <= |s| && s[..|p|] == p
  }

  /** strings.Contains: p occurs somewhere in s. */
  predicate Contains(s: string, p: string)
    decreases |s|
  {
    HasPrefix(s, p) || (s != "" && Contains(s[1..], p))
  }

  predicate OccursAt(s: string, p: string, i: nat) {
    i + |p| <= |s| && s[i..i + |p|] == p
  }

  lemma OccursChar(s: string, p: string, i: nat, d: nat)
    requires d < |p|
    ensures OccursAt(s, p, i) ==> s[i + d] == p[d]
  {
    if OccursAt(s, p, i) {
      assert s[i..i + |p|][d] == p[d];
    }
  }

  lemma OccursWithin(s: string, p: string, q: string, i: nat, k: nat)
    requires OccursAt(p, q, k)
    ensures OccursAt(s, p, i) ==> OccursAt(s, q, i + k)
  {
    if OccursAt(s, p, i) {
      var m := s[i..i + |p|];
      assert m == p;
      var a, b := m[k..k + |q|], s[i + k..i + k + |q|];
      assert |a| == |b| && forall d :: 0 <= d < |q| ==> a[d] == m[k + d] == s[i + k + d] == b[d];
    }
  }

  lemma {:induction false} ContainsAt(s: string, p: string, i: nat)
    requires OccursAt(s, p, i)
    ensures Contains(s, p)
    decreases |s|
  {
    if i > 0 {
      assert s[1..][i - 1..i - 1 + |p|] == s[i..i + |p|];
      ContainsAt(s[1..], p, i - 1);
    }
  }

  lemma {:induction false} ContainsWhere(s: string, p: string) returns (i: nat)
    requires Contains(s, p)
    ensures OccursAt(s, p, i) && forall j: nat :: j < i ==> !OccursAt(s, p, j)
    decreases |s|
  {
    if HasPrefix(s, p) {
      i := 0;
    } else {
      var k := ContainsWhere(s[1..], p);
      i := k + 1;
      assert s[1..][k..k + |p|] == s[i..i + |p|];
      forall j: nat | j < i ensures !OccursAt(s, p, j) {
        if j > 0 && OccursAt(s, p, j) {
          assert s[1..][j - 1..j - 1 + |p|] == s[j..j + |p|];
          assert OccursAt(s[1..], p, j - 1);
        }
      }
    }
  }

  /** One string contains another exactly if it is that one with something around it. */
  lemma ContainsExactly(s: string, p: string)
    ensures Contains(s, p) <==> exists a: string, b: string :: s == a + p + b
  {
    if Contains(s, p) {
      var i := ContainsWhere(s, p);
      assert s == s[..i] + p + s[i + |p|..];
    }
    if a: string, b: string :| s == a + p + b {
      assert s[|a|..|a| + |p|] == p;
      ContainsAt(s, p, |a|);
    }
  }

  /** strings.ReplaceAll for a non-empty pattern: leftmost, non-overlapping. */
  function ReplaceAll(s: string, p: string, rep: string): string
    requires p != ""
    decreases |s|
  {
    if s == "" then ""
    else if HasPrefix(s, p) then rep + ReplaceAll(s[|p|..], p, rep)
    else [s[0]] + ReplaceAll(s[1..], p, rep)
  }

  lemma {:induction false} ReplaceAbsent(s: string, p: string, rep: string)
    requires p != "" && !Contains(s, p)
    ensures ReplaceAll(s, p, rep) == s
    decreases |s|
  {
    if s != "" {
      ReplaceAbsent(s[1..], p, rep);
    }
  }

  /** The first occurrence is replaced, then those behind it. */
  lemma {:induction false} ReplaceMeans(a: string, p: string, b: string, rep: string)
    requires p != "" && !Contains(a + p[..|p| - 1], p)
    ensures ReplaceAll(a + p + b, p, rep) == a + rep + ReplaceAll(b, p, rep)
  {
    var s := a + p + b;
    if a == "" {
      assert s[..|p|] == p && s[|p|..] == b;
    } else {
      var shorter := a + p[..|p| - 1];
      assert shorter[1..] == a[1..] + p[..|p| - 1] && shorter[..|p|] == s[..|p|];
      assert s[1..] == a[1..] + p + b;
      ReplaceMeans(a[1..], p, b, rep);
    }
  }

  /** strings.IndexByte, with |s| for "not found". */
  function Index(s: string, c: char): (i: nat)
    ensures i <= |s| && (i < |s| ==> s[i] == c) && forall k :: 0 <= k < i ==> s[k] != c
  {
    if s == "" || s[0] == c then 0 else 1 + Index(s[1..], c)
  }

  /** unicode.IsSpace on Latin-1. */
  predicate IsSpace(c: char) {
    c == ' ' || c == '\t' || c == '\n' || c == '\r' || c == '\U{0B}' || c == '\U{0C}' || c == '\U{85}' || c == '\U{A0}'
  }

  function TrimSpace(s: string): string
    decreases |s|
  {
    if s == "" then ""
    else if IsSpace(s[|s| - 1]) then TrimSpace(s[..|s| - 1])
    else if IsSpace(s[0]) then TrimSpace(s[1..])
    else s
  }

  lemma SpaceMeans(c: char)
    ensures IsSpace(c) <==> c as int in {9, 10, 11, 12, 13, 32, 0x85, 0xA0}
  {
  }

  predicate Bare(s: string) {
    s == "" || (!IsSpace(s[0]) && !IsSpace(s[|s| - 1]))
  }

  predicate Spaces(s: string) {
    forall k :: 0 <= k < |s| ==> IsSpace(s[k])
  }

  lemma {:induction false} SpacesOff(a: string, text: string, b: string)
    requires Spaces(a) && Spaces(b) && Bare(text)
    ensures TrimSpace(a + text + b) == text
    decreases |a| + |b|
  {
    hide IsSpace;
    var s := a + text + b;
    if b != "" {
      assert s[|s| - 1] == b[|b| - 1] && s[..|s| - 1] == a + text + b[..|b| - 1];
      SpacesOff(a, text, b[..|b| - 1]);
    } else if a == "" {
      assert s == text;
    } else if text == "" {
      assert s[|s| - 1] == a[|a| - 1] && s[..|s| - 1] == a[..|a| - 1] + text + b;
      SpacesOff(a[..|a| - 1], text, b);
    } else {
      assert s[0] == a[0] && s[1..] == a[1..] + text + b && s[|s| - 1] == text[|text| - 1];
      SpacesOff(a[1..], text, b);
    }
  }

  /** Trimming takes off all spaces around a text, and nothing of the text. */
  lemma TrimMeans(a: string, text: string, b: string)
    requires forall c :: c in a || c in b ==> c as int in {9, 10, 11, 12, 13, 32, 0x85, 0xA0}
    requires text != "" ==> text[0] as int !in {9, 10, 11, 12, 13, 32, 0x85, 0xA0} && text[|text| - 1] as int !in {9, 10, 11, 12, 13, 32, 0x85, 0xA0}
    ensures TrimSpace(a + text + b) == text
  {
    forall k | 0 <= k < |a| ensures IsSpace(a[k]) { assert a[k] in a; SpaceMeans(a[k]); }
    forall k | 0 <= k < |b| ensures IsSpace(b[k]) { assert b[k] in b; SpaceMeans(b[k]); }
    if text != "" {
      SpaceMeans(text[0]);
      SpaceMeans(text[|text| - 1]);
    }
    hide IsSpace, TrimSpace;
    SpacesOff(a, text, b);
  }

  lemma {:induction false} NoChar(s: string, p: string, d: nat)
    requires d < |p| && p[d] !in s
    ensures !Contains(s, p)
  {
    if Contains(s, p) {
      var i := ContainsWhere(s, p);
      OccursChar(s, p, i, d);
    }
  }
}

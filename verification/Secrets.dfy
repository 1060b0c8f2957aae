/** core/security/secret.go: redaction of stored secrets from text. */
module Secrets {
  import opened Strings

  const MASK := "***"

  predicate NoStar(s: string) { '*' !in s }

  /** A secret the mask can neither contain, extend nor complete. */
  predicate MaskSafe(w: string) {
    w != "" && w[0] != '*' && w[|w| - 1] != '*' && !Contains(w, MASK)
  }

  lemma {:induction false} NoStarIsMaskSafe(w: string)
    requires w != "" && NoStar(w)
    ensures MaskSafe(w)
  {
    if Contains(w, MASK) {
      var i := ContainsWhere(w, MASK);
      OccursChar(w, MASK, i, 0);
    }
  }

  // ----- one ReplaceAll

  /** Masking never creates a mask-safe string at the front of a text: whatever
      starts the result either started the text or reaches into a mask. */
  lemma {:induction false} PrefixSurvives(s: string, v: string, w: string)
    requires v != "" && HasPrefix(ReplaceAll(s, v, MASK), w)
    ensures HasPrefix(s, w) || Contains(w, MASK) || (w != "" && w[|w| - 1] == '*')
    decreases |s|
  {
    var r := ReplaceAll(s, v, MASK);
    if s == "" || w == "" {
    } else if HasPrefix(s, v) {
      if |w| <= 3 {
        assert w[|w| - 1] == MASK[|w| - 1];
      } else {
        assert w[0..3] == r[0..3] == MASK;
        ContainsAt(w, MASK, 0);
      }
    } else {
      var t := ReplaceAll(s[1..], v, MASK);
      assert r == [s[0]] + t && w[0] == r[0] && w[1..] == t[..|w| - 1];
      PrefixSurvives(s[1..], v, w[1..]);
      if HasPrefix(s[1..], w[1..]) {
        assert s[..|w|] == [s[0]] + s[1..][..|w| - 1];
        assert w == [w[0]] + w[1..];
      }
    }
  }

  /** The masked text starts with the masked secret nowhere. */
  lemma {:induction false} OwnPrefixGone(s: string, v: string)
    requires MaskSafe(v)
    ensures !HasPrefix(ReplaceAll(s, v, MASK), v)
  {
    if s == "" {
    } else if HasPrefix(s, v) {
      assert ReplaceAll(s, v, MASK)[0] == '*';
    } else if HasPrefix(ReplaceAll(s, v, MASK), v) {
      PrefixSurvives(s, v, v);
    }
  }

  lemma PastStar(t: string, w: string)
    requires MaskSafe(w) && !Contains(t, w)
    ensures !Contains("*" + t, w)
  {
    var s := "*" + t;
    assert s[1..] == t && s[0] != w[0];
  }

  lemma PastMask(t: string, w: string)
    requires MaskSafe(w) && !Contains(t, w)
    ensures !Contains(MASK + t, w)
  {
    PastStar(t, w);
    PastStar("*" + t, w);
    PastStar("**" + t, w);
    assert "*" + ("*" + t) == "**" + t && "*" + ("**" + t) == MASK + t;
  }

  /** Masking v leaves no v behind ... */
  lemma {:induction false} MaskRemoves(s: string, v: string)
    requires MaskSafe(v)
    ensures !Contains(ReplaceAll(s, v, MASK), v)
    decreases |s|
  {
    OwnPrefixGone(s, v);
    var r := ReplaceAll(s, v, MASK);
    if s == "" {
    } else if HasPrefix(s, v) {
      MaskRemoves(s[|v|..], v);
      PastMask(ReplaceAll(s[|v|..], v, MASK), v);
    } else {
      MaskRemoves(s[1..], v);
      assert r[1..] == ReplaceAll(s[1..], v, MASK);
    }
  }

  lemma {:induction false} NotInSuffix(s: string, i: nat, w: string)
    requires i <= |s| && !Contains(s, w)
    ensures !Contains(s[i..], w)
  {
    if Contains(s[i..], w) {
      var j := ContainsWhere(s[i..], w);
      assert s[i..][j..j + |w|] == s[i + j..i + j + |w|];
      ContainsAt(s, w, i + j);
    }
  }

  /** ... and brings back no other secret that was already gone. */
  lemma {:induction false} MaskCreatesNothing(s: string, v: string, w: string)
    requires v != "" && MaskSafe(w) && !Contains(s, w)
    ensures !Contains(ReplaceAll(s, v, MASK), w)
    decreases |s|
  {
    var r := ReplaceAll(s, v, MASK);
    if HasPrefix(r, w) { PrefixSurvives(s, v, w); }
    if s == "" {
    } else if HasPrefix(s, v) {
      NotInSuffix(s, |v|, w);
      MaskCreatesNothing(s[|v|..], v, w);
      PastMask(ReplaceAll(s[|v|..], v, MASK), w);
    } else {
      MaskCreatesNothing(s[1..], v, w);
      assert r[1..] == ReplaceAll(s[1..], v, MASK);
    }
  }

  // ----- the whole store, in any iteration order

  /** Redact for one iteration order of the map's values. */
  function RedactIn(order: seq<string>, text: string): string {
    if order == [] then text
    else RedactIn(order[1..], if order[0] != "" then ReplaceAll(text, order[0], MASK) else text)
  }

  /** Completeness: no mask-safe secret the loop visits survives, nor does one that was
      absent from the text to begin with, whatever else is stored. */
  lemma {:induction false} RedactComplete(order: seq<string>, text: string, w: string)
    requires MaskSafe(w) && (w in order || !Contains(text, w))
    ensures !Contains(RedactIn(order, text), w)
  {
    if order != [] {
      var v := order[0];
      var next := if v != "" then ReplaceAll(text, v, MASK) else text;
      if v != "" {
        if v == w { MaskRemoves(text, v); } else if !Contains(text, w) { MaskCreatesNothing(text, v, w); }
      }
      RedactComplete(order[1..], next, w);
    }
  }

  lemma {:induction false} MaskingTheMask(s: string)
    ensures ReplaceAll(s, MASK, MASK) == s
    decreases |s|
  {
    if s == "" {
    } else if HasPrefix(s, MASK) {
      MaskingTheMask(s[3..]);
      assert s == s[..3] + s[3..];
    } else {
      MaskingTheMask(s[1..]);
      assert s == [s[0]] + s[1..];
    }
  }

  lemma {:induction false} RedactOfClean(order: seq<string>, text: string)
    requires forall v :: v in order && v != "" && v != MASK ==> !Contains(text, v)
    ensures RedactIn(order, text) == text
  {
    if order != [] {
      if order[0] == MASK { MaskingTheMask(text); } else if order[0] != "" { ReplaceAbsent(text, order[0], MASK); }
      RedactOfClean(order[1..], text);
    }
  }

  /** The secret holds a mask-safe one, perhaps itself, that is stored too. */
  ghost predicate Covered(v: string, order: seq<string>) {
    exists u :: u in order && MaskSafe(u) && Contains(v, u)
  }

  lemma ContainsTrans(s: string, v: string, u: string)
    requires Contains(s, v) && Contains(v, u)
    ensures Contains(s, u)
  {
    var i := ContainsWhere(s, v);
    var k := ContainsWhere(v, u);
    OccursWithin(s, v, u, i, k);
    ContainsAt(s, u, i + k);
  }

  /** Nor does a covered one, which without its mask-safe part cannot be whole. */
  lemma CoveredGone(order: seq<string>, text: string, v: string)
    requires Covered(v, order)
    ensures !Contains(RedactIn(order, text), v)
  {
    var u :| u in order && MaskSafe(u) && Contains(v, u);
    RedactComplete(order, text, u);
    if Contains(RedactIn(order, text), v) { ContainsTrans(RedactIn(order, text), v, u); }
  }

  /** Redacting twice, the second time in any other order, changes nothing more. */
  lemma RedactIdempotent(first: seq<string>, second: seq<string>, text: string)
    requires forall v :: v in first <==> v in second
    requires forall v :: v in first && v != "" && v != MASK ==> Covered(v, first)
    ensures RedactIn(second, RedactIn(first, text)) == RedactIn(first, text)
  {
    forall v | v in second && v != "" && v != MASK ensures !Contains(RedactIn(first, text), v) {
      CoveredGone(first, text, v);
    }
    RedactOfClean(second, RedactIn(first, text));
  }

  /** Which text comes out does depend on the order, secrets or no secrets. */
  lemma OrderShowsInResult()
    ensures RedactIn(["ab", "b"], "ab") == "***"
    ensures RedactIn(["b", "ab"], "ab") == "a***"
  {
    assert ReplaceAll("", "ab", MASK) == "" && ReplaceAll("", "b", MASK) == "";
    assert "ab"[..2] == "ab" && "ab"[2..] == "" && "ab"[1..] == "b" && "b"[1..] == "";
    assert ReplaceAll("ab", "ab", MASK) == "***";
    PastMask("", "b");
    assert MASK + "" == "***";
    ReplaceAbsent("***", "b", MASK);
    assert ReplaceAll("b", "b", MASK) == "***";
    assert ReplaceAll("ab", "b", MASK) == "a***";
    PastMask("", "ab");
    assert "a***"[1..] == "***" && "a***"[..2] == "a*";
    ReplaceAbsent("a***", "ab", MASK);
    assert ["ab", "b"][1..] == ["b"] && ["b", "ab"][1..] == ["ab"] && ["b"][1..] == [] && ["ab"][1..] == [];
    assert RedactIn(["b"], "***") == RedactIn([], "***");
    assert RedactIn(["ab"], "a***") == RedactIn([], "a***");
  }

  // ----- exactly when one secret is redacted from every text

  lemma {:induction false} ShortContainsNone(y: string, w: string)
    requires |y| < |w|
    ensures !Contains(y, w)
  {
    if y != "" { ShortContainsNone(y[1..], w); }
  }

  /** When the first place w occurs in x + w + y is after x, and y is too short for
      another, exactly that occurrence is masked. */
  lemma {:induction false} MaskOnce(x: string, w: string, y: string)
    requires w != "" && |y| < |w|
    requires forall i: nat :: i < |x| ==> !OccursAt(x + w + y, w, i)
    ensures ReplaceAll(x + w + y, w, MASK) == x + MASK + y
    decreases |x|
  {
    var s := x + w + y;
    if x == "" {
      assert s[|w|..] == y;
      ShortContainsNone(y, w);
      ReplaceAbsent(y, w, MASK);
      assert x + MASK + y == MASK + y;
    } else {
      assert !OccursAt(s, w, 0);
      var t := x[1..] + w + y;
      assert s[1..] == t;
      forall i: nat | i < |x[1..]| ensures !OccursAt(t, w, i) {
        assert !OccursAt(s, w, i + 1);
        assert i + |w| <= |t| ==> t[i..i + |w|] == s[i + 1..i + 1 + |w|];
      }
      MaskOnce(x[1..], w, y);
      assert x + MASK + y == [x[0]] + (x[1..] + MASK + y);
    }
  }

  lemma LeakAtStart(w: string) returns (text: string)
    requires w != "" && w[0] == '*'
    ensures Contains(ReplaceAll(text, w, MASK), w)
  {
    text := "" + w + w[1..];
    MaskOnce("", w, w[1..]);
    var r := "" + MASK + w[1..];
    assert r[2..2 + |w|] == w;
    ContainsAt(r, w, 2);
  }

  lemma LeakAtEnd(w: string) returns (text: string)
    requires w != "" && w[0] != '*' && w[|w| - 1] == '*'
    ensures Contains(ReplaceAll(text, w, MASK), w)
  {
    var u := w[..|w| - 1];
    text := u + w + "";
    forall i: nat | i < |u| ensures !OccursAt(text, w, i) {
      // An earlier occurrence would put both w[0] and the final '*' at u[i].
      OccursChar(text, w, i, 0);
      OccursChar(text, w, i, |w| - 1);
      assert text[i] == u[i] && text[i + |w| - 1] == u[i];
    }
    MaskOnce(u, w, "");
    var r := u + MASK + "";
    assert r[0..|w|] == w;
    ContainsAt(r, w, 0);
  }

  /** An occurrence before the one put there would have the mask at w[i], before its
      first place. */
  lemma {:induction false} NoneBefore(w: string, k: nat, i: nat)
    requires i < k <= |w| - |MASK| && OccursAt(w, MASK, k) && !OccursAt(w, MASK, i)
    ensures !OccursAt(w[..k] + w + w[k + 3..], w, i)
  {
    var text := w[..k] + w + w[k + 3..];
    assert text[i + k..i + k + 3] == w[i..i + 3];
    OccursWithin(text, w, MASK, i, k);
  }

  lemma {:induction false} LeakInside(w: string) returns (text: string)
    requires Contains(w, MASK)
    ensures Contains(ReplaceAll(text, w, MASK), w)
  {
    var k := ContainsWhere(w, MASK);
    var x, y := w[..k], w[k + 3..];
    text := x + w + y;
    forall i: nat | i < |x| ensures !OccursAt(text, w, i) { NoneBefore(w, k, i); }
    hide OccursAt, Contains, ReplaceAll;
    MaskOnce(x, w, y);
    assert x + MASK + y == w;
    ContainsAt(w, w, 0);
  }

  /** A text that leaks a secret which is not mask-safe. */
  lemma LeakingText(w: string) returns (text: string)
    requires w != "" && !MaskSafe(w)
    ensures Contains(ReplaceAll(text, w, MASK), w)
  {
    if w[0] == '*' {
      text := LeakAtStart(w);
    } else if w[|w| - 1] == '*' {
      text := LeakAtEnd(w);
    } else {
      text := LeakInside(w);
    }
  }

  /** A store of one secret redacts it from every text if and only if the secret is
      mask-safe: it neither starts nor ends with '*' and does not contain the mask. */
  lemma OneSecretExactly(w: string)
    requires w != ""
    ensures (forall text :: !Contains(RedactIn([w], text), w)) <==> MaskSafe(w)
  {
    if MaskSafe(w) {
      forall text ensures !Contains(RedactIn([w], text), w) { RedactComplete([w], text, w); }
    } else {
      var text := LeakingText(w);
      assert [w][1..] == [];
      assert RedactIn([w], text) == RedactIn([], ReplaceAll(text, w, MASK));
    }
  }

  /** In whatever store and order w is visited, it is redacted from every text if and
      only if it is mask-safe. */
  lemma RedactExactly(w: string)
    requires w != ""
    ensures (forall order, text :: w in order ==> !Contains(RedactIn(order, text), w)) <==> MaskSafe(w)
  {
    if MaskSafe(w) {
      forall order, text | w in order ensures !Contains(RedactIn(order, text), w) { RedactComplete(order, text, w); }
    } else {
      OneSecretExactly(w);
      var text :| Contains(RedactIn([w], text), w);
      assert w in [w];
    }
  }

  lemma OneSecret(w: string, text: string)
    requires w != ""
    ensures RedactIn([w], text) == ReplaceAll(text, w, MASK)
  {
    assert [w][1..] == [];
  }

  lemma {:induction false} FirstMasked(s: string, w: string)
    requires |w| == 3 && w != MASK && Contains(s, w)
    ensures ReplaceAll(s, w, MASK) != s
    decreases |s|
  {
    if HasPrefix(s, w) {
      var r := ReplaceAll(s, w, MASK);
      assert r[..3] == MASK && s[..3] == w;
    } else {
      var i := ContainsWhere(s, w);
      assert s[i..i + 3] == s[1..][i - 1..i + 2];
      ContainsAt(s[1..], w, i - 1);
      FirstMasked(s[1..], w);
      assert ReplaceAll(s, w, MASK)[1..] == ReplaceAll(s[1..], w, MASK);
    }
  }

  /** Each replacement moves the length by the same amount. */
  lemma {:induction false} MaskedLength(s: string, w: string)
    requires w != "" && |w| != 3
    ensures |w| < 3 ==> |ReplaceAll(s, w, MASK)| >= |s| + if Contains(s, w) then 1 else 0
    ensures |w| > 3 ==> |ReplaceAll(s, w, MASK)| <= |s| - if Contains(s, w) then 1 else 0
    decreases |s|
  {
    if s == "" {
    } else if HasPrefix(s, w) {
      MaskedLength(s[|w|..], w);
    } else {
      MaskedLength(s[1..], w);
      if Contains(s, w) {
        var i := ContainsWhere(s, w);
        assert s[i..i + |w|] == s[1..][i - 1..i - 1 + |w|];
        ContainsAt(s[1..], w, i - 1);
      }
    }
  }

  /** Masking changes a text that holds the secret: its length, or the place itself. */
  lemma MaskingChanges(s: string, w: string)
    requires w != "" && w != MASK && Contains(s, w)
    ensures ReplaceAll(s, w, MASK) != s
  {
    if |w| == 3 {
      FirstMasked(s, w);
    } else {
      MaskedLength(s, w);
    }
  }

  /** A store of one secret redacts idempotently exactly if the secret is mask-safe or
      the mask itself. */
  lemma OneSecretIdempotentExactly(w: string)
    requires w != ""
    ensures (forall text :: RedactIn([w], RedactIn([w], text)) == RedactIn([w], text)) <==> MaskSafe(w) || w == MASK
  {
    if MaskSafe(w) {
      forall text ensures RedactIn([w], RedactIn([w], text)) == RedactIn([w], text) {
        RedactComplete([w], text, w);
        RedactOfClean([w], RedactIn([w], text));
      }
    } else if w == MASK {
      forall text ensures RedactIn([w], RedactIn([w], text)) == RedactIn([w], text) {
        OneSecret(w, text);
        MaskingTheMask(text);
      }
    } else {
      OneSecretExactly(w);
      var text :| Contains(RedactIn([w], text), w);
      var out := RedactIn([w], text);
      MaskingChanges(out, w);
      OneSecret(w, out);
      assert RedactIn([w], RedactIn([w], text)) != RedactIn([w], text);
    }
  }

  // ----- the store

  /** keys lists the keys of m, each once, in some order. */
  ghost predicate Enumerates(keys: seq<string>, m: map<string, string>) {
    && (forall r :: r in keys <==> r in m)
    && (forall i, j :: 0 <= i < j < |keys| ==> keys[i] != keys[j])
  }

  ghost function ValuesOf(keys: seq<string>, m: map<string, string>): (vs: seq<string>)
    requires forall r :: r in keys ==> r in m
    ensures |vs| == |keys| && forall i :: 0 <= i < |keys| ==> vs[i] == m[keys[i]]
  {
    seq(|keys|, i requires 0 <= i < |keys| && keys[i] in m => m[keys[i]])
  }

  /** For every enumeration of the store, the redacted text holds no stored secret that
      is mask-safe or holds another one that is. */
  lemma StoreRedacted(m: map<string, string>, keys: seq<string>, text: string)
    requires Enumerates(keys, m)
    ensures forall r :: r in m && MaskSafe(m[r]) ==> !Contains(RedactIn(ValuesOf(keys, m), text), m[r])
    ensures forall r, q :: r in m && q in m && MaskSafe(m[q]) && Contains(m[r], m[q]) ==>
              !Contains(RedactIn(ValuesOf(keys, m), text), m[r])
  {
    var order := ValuesOf(keys, m);
    forall q | q in m ensures m[q] in order {
      var i :| 0 <= i < |keys| && keys[i] == q;
      assert order[i] == m[q];
    }
    forall r | r in m && MaskSafe(m[r]) ensures !Contains(RedactIn(order, text), m[r]) { RedactComplete(order, text, m[r]); }
    forall r, q | r in m && q in m && MaskSafe(m[q]) && Contains(m[r], m[q]) ensures !Contains(RedactIn(order, text), m[r]) {
      CoveredGone(order, text, m[r]);
    }
  }

  lemma {:induction false} RedactSnoc(order: seq<string>, v: string, text: string)
    ensures RedactIn(order + [v], text) ==
            if v != "" then ReplaceAll(RedactIn(order, text), v, MASK) else RedactIn(order, text)
  {
    if order == [] {
      assert [v][1..] == [] && [] + [v] == [v];
    } else {
      assert (order + [v])[1..] == order[1..] + [v];
      RedactSnoc(order[1..], v, if order[0] != "" then ReplaceAll(text, order[0], MASK) else text);
    }
  }

  class SecretStore {
    var secrets: map<string, string>

    constructor ()
      ensures secrets == map[]
    {
      secrets := map[];
    }

    method Set(ref: string, value: string)
      modifies this
      ensures secrets == old(secrets)[ref := value]
    {
      secrets := secrets[ref := value];
    }

    method Resolve(ref: string) returns (found: bool, value: string)
      ensures found <==> ref in secrets
      ensures found ==> value == secrets[ref]
    {
      if ref in secrets { found, value := true, secrets[ref]; } else { found, value := false, ""; }
    }

    /** The loop over the map, whose order Go leaves open: the result is that of some
        order visiting every entry once, and it holds no stored secret that is
        mask-safe or covered by one that is. */
    method Redact(text: string) returns (out: string)
      ensures exists keys :: Enumerates(keys, secrets) && out == RedactIn(ValuesOf(keys, secrets), text)
      ensures forall r :: r in secrets && MaskSafe(secrets[r]) ==> !Contains(out, secrets[r])
      ensures forall r, q :: r in secrets && q in secrets && MaskSafe(secrets[q]) && Contains(secrets[r], secrets[q]) ==>
                !Contains(out, secrets[r])
    {
      out := text;
      var left := secrets.Keys;
      ghost var keys: seq<string> := [];
      while left != {}
        invariant left <= secrets.Keys
        invariant forall r :: r in keys <==> r in secrets && r !in left
        invariant forall i, j :: 0 <= i < j < |keys| ==> keys[i] != keys[j]
        invariant out == RedactIn(ValuesOf(keys, secrets), text)
        decreases |left|
      {
        var r :| r in left;
        left := left - {r};
        ghost var order := ValuesOf(keys, secrets);
        RedactSnoc(order, secrets[r], text);
        keys := keys + [r];
        assert ValuesOf(keys, secrets) == order + [secrets[r]];
        if secrets[r] != "" {
          out := ReplaceAll(out, secrets[r], MASK);
        }
      }
      assert Enumerates(keys, secrets);
      StoreRedacted(secrets, keys, text);
    }
  }
}

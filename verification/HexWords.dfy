/** plugin/jtag/invoke.go: parsing and printing of 32-bit hexadecimal words. */
module HexWords {
  import opened MachineInts
  import opened Results
  import opened Strings

  type Nibble = n: int | 0 <= n < 16

  datatype ParseError = BadWord(token: string) | NoWords

  function HexDigit(d: Nibble): char {
    if d < 10 then '0' + d as char else 'a' + (d - 10) as char
  }

  function DigitValue(c: char): Option<Nibble> {
    if '0' <= c <= '9' then Some((c - '0') as int)
    else if 'a' <= c <= 'f' then Some((c - 'a') as int + 10)
    else if 'A' <= c <= 'F' then Some((c - 'A') as int + 10)
    else None
  }

  const LOWER := "0123456789abcdef"
  const UPPER := "0123456789ABCDEF"

  /** A digit is printed in lower case, and read in either case. */
  lemma DigitMeans(d: Nibble, c: char)
    ensures HexDigit(d) == LOWER[d]
    ensures DigitValue(c) == Some(d) <==> c == LOWER[d] || c == UPPER[d]
  {
    assert LOWER == ['0', '1', '2', '3', '4', '5', '6', '7', '8', '9', 'a', 'b', 'c', 'd', 'e', 'f'];
    assert UPPER == ['0', '1', '2', '3', '4', '5', '6', '7', '8', '9', 'A', 'B', 'C', 'D', 'E', 'F'];
  }

  /** Nothing else is a digit. */
  lemma NoDigit(c: char)
    ensures DigitValue(c).None? <==> c !in LOWER && c !in UPPER
  {
    if DigitValue(c).Some? { DigitMeans(DigitValue(c).value, c); }
    if c in LOWER {
      var d :| 0 <= d < 16 && LOWER[d] == c;
      DigitMeans(d, c);
    }
    if c in UPPER {
      var d :| 0 <= d < 16 && UPPER[d] == c;
      DigitMeans(d, c);
    }
  }

  /** The number a string of hexadecimal digits denotes. */
  function HexValue(s: string): Option<nat> {
    if s == "" then Some(0)
    else
      match (HexValue(s[..|s| - 1]), DigitValue(s[|s| - 1]))
      case (Some(v), Some(d)) => Some(16 * v + d)
      case _ => None
  }

  /** strconv.ParseUint(s, 16, 32). */
  function ParseUint(s: string): Option<U32> {
    if s == "" then None
    else
      match HexValue(s)
      case Some(v) => if v < 0x1_0000_0000 then Some(v) else None
      case None => None
  }

  function TrimPrefix0x(s: string): string {
    if HasPrefix(s, "0x") then s[2..] else s
  }

  function ParseAddr(s: string): Option<U32> {
    ParseUint(TrimPrefix0x(TrimSpace(s)))
  }

  /** w in n lower-case digits, zero padded. */
  function Hex(w: nat, n: nat): (s: string)
    ensures |s| == n
  {
    if n == 0 then "" else Hex(w / 16, n - 1) + [HexDigit(w % 16)]
  }

  /** The verb "0x%08x". */
  function FormatWord(w: U32): string {
    "0x" + Hex(w, 8)
  }

  function Split(s: string, sep: char): seq<string>
    decreases |s|
  {
    var i := Index(s, sep);
    if i == |s| then [s] else [s[..i]] + Split(s[i + 1..], sep)
  }

  function Join(parts: seq<string>, sep: char): string {
    if parts == [] then "" else if |parts| == 1 then parts[0] else parts[0] + [sep] + Join(parts[1..], sep)
  }

  function Formatted(words: seq<U32>): seq<string> {
    if words == [] then [] else [FormatWord(words[0])] + Formatted(words[1..])
  }

  /** parseWords' loop over the tokens: blank ones are skipped, the first bad one ends it. */
  function ParseTokens(toks: seq<string>): Result<seq<U32>, ParseError> {
    if toks == [] then Ok([])
    else
      var tok := TrimSpace(toks[0]);
      if tok == "" then ParseTokens(toks[1..])
      else
        match ParseUint(TrimPrefix0x(tok))
        case None => Err(BadWord(tok))
        case Some(v) =>
          match ParseTokens(toks[1..])
          case Ok(rest) => Ok([v] + rest)
          case Err(e) => Err(e)
  }

  function ParseText(s: string): Result<seq<U32>, ParseError> {
    match ParseTokens(Split(s, ','))
    case Ok(ws) => if ws == [] then Err(NoWords) else Ok(ws)
    case Err(e) => Err(e)
  }

  function Prefixed(out: seq<U32>, r: Result<seq<U32>, ParseError>): Result<seq<U32>, ParseError> {
    if r.Ok? then Ok(out + r.value) else r
  }

  lemma PrefixedMore(out: seq<U32>, v: U32, r: Result<seq<U32>, ParseError>)
    ensures Prefixed([], r) == r
    ensures Prefixed(out, Prefixed([v], r)) == Prefixed(out + [v], r)
  {
    if r.Ok? { assert [] + r.value == r.value && out + ([v] + r.value) == (out + [v]) + r.value; }
  }

  // ----- the code

  method ParseWords(s: string) returns (r: Result<seq<U32>, ParseError>)
    ensures r == ParseText(s)
  {
    var out: seq<U32> := [];
    var toks := Split(s, ',');
    var i := 0;
    PrefixedMore([], 0, ParseTokens(toks));
    assert toks[0..] == toks;
    while i < |toks|
      invariant 0 <= i <= |toks|
      invariant ParseTokens(toks) == Prefixed(out, ParseTokens(toks[i..]))
    {
      assert toks[i..][1..] == toks[i + 1..];
      var tok := TrimSpace(toks[i]);
      i := i + 1;
      if tok == "" {
        continue;
      }
      var v := ParseUint(TrimPrefix0x(tok));
      if v.None? {
        return Err(BadWord(tok));
      }
      PrefixedMore(out, v.value, ParseTokens(toks[i..]));
      out := out + [v.value];
    }
    assert toks[i..] == [] && out + [] == out;
    if out == [] {
      return Err(NoWords);
    }
    r := Ok(out);
  }

  method FormatWords(words: seq<U32>) returns (s: string)
    ensures s == Join(Formatted(words), '\n')
  {
    var parts: seq<string> := [];
    var i := 0;
    while i < |words|
      invariant 0 <= i <= |words|
      invariant parts + Formatted(words[i..]) == Formatted(words)
    {
      assert words[i..][1..] == words[i + 1..];
      assert parts + ([FormatWord(words[i])] + Formatted(words[i + 1..])) ==
             (parts + [FormatWord(words[i])]) + Formatted(words[i + 1..]);
      parts := parts + [FormatWord(words[i])];
      i := i + 1;
    }
    assert parts + Formatted(words[i..]) == parts;
    s := Join(parts, '\n');
  }

  // ----- round trips

  function Pow16(n: nat): nat {
    if n == 0 then 1 else 16 * Pow16(n - 1)
  }

  lemma {:induction false} HexRoundTrip(w: nat, n: nat)
    requires w < Pow16(n)
    ensures HexValue(Hex(w, n)) == Some(w)
  {
    if n > 0 {
      HexRoundTrip(w / 16, n - 1);
      assert Hex(w, n)[..n - 1] == Hex(w / 16, n - 1);
      assert DigitValue(HexDigit(w % 16)) == Some(w % 16);
    }
  }

  lemma {:induction false} HexChars(w: nat, n: nat, k: nat)
    requires k < n
    ensures DigitValue(Hex(w, n)[k]).Some?
  {
    if k < n - 1 { HexChars(w / 16, n - 1, k); }
  }

  lemma WordRoundTrip(w: U32)
    ensures ParseUint(TrimPrefix0x(FormatWord(w))) == Some(w)
  {
    assert Pow16(8) == 0x1_0000_0000 by {
      assert Pow16(4) == 0x1_0000;
      assert Pow16(8) == 16 * 16 * 16 * 16 * Pow16(4);
    }
    HexRoundTrip(w, 8);
    assert FormatWord(w)[..2] == "0x" && FormatWord(w)[2..] == Hex(w, 8);
  }

  /** The word without its last n digits. */
  function Shifted(w: nat, n: nat): nat {
    if n == 0 then w else Shifted(w / 16, n - 1)
  }

  lemma {:induction false} HexMeans(w: nat, n: nat, k: nat)
    requires k < n
    ensures Hex(w, n)[k] == LOWER[Shifted(w, n - 1 - k) % 16]
  {
    if k < n - 1 { HexMeans(w / 16, n - 1, k); } else { DigitMeans(w % 16, '0'); }
  }

  /** "0x", then the eight digits of the word, the highest first. */
  lemma FormatMeans(w: U32, k: nat)
    requires k < 8
    ensures |FormatWord(w)| == 10 && FormatWord(w)[..2] == "0x"
    ensures FormatWord(w)[2 + k] == LOWER[Shifted(w, 7 - k) % 16]
  {
    HexMeans(w, 8, k);
  }

  /** The same text in upper case. */
  function Upper(s: string): string {
    seq(|s|, i requires 0 <= i < |s| => if 'a' <= s[i] <= 'z' then s[i] - 'a' + 'A' else s[i])
  }

  lemma OtherCase(d: Nibble)
    ensures var c := LOWER[d]; (if 'a' <= c <= 'z' then c - 'a' + 'A' else c) == UPPER[d] && DigitValue(UPPER[d]) == DigitValue(c)
  {
    DigitMeans(d, LOWER[d]);
    DigitMeans(d, UPPER[d]);
  }

  lemma {:induction false} SameValue(s: string, t: string)
    requires |s| == |t| && forall i :: 0 <= i < |s| ==> DigitValue(s[i]) == DigitValue(t[i])
    ensures HexValue(s) == HexValue(t)
  {
    if s != "" { SameValue(s[..|s| - 1], t[..|t| - 1]); }
  }

  lemma UpperMeans(w: U32, k: nat)
    requires k < 8
    ensures Upper(Hex(w, 8))[k] == UPPER[Shifted(w, 7 - k) % 16] && DigitValue(Upper(Hex(w, 8))[k]) == DigitValue(Hex(w, 8)[k])
  {
    HexMeans(w, 8, k);
    hide Hex, DigitValue, Shifted;
    OtherCase(Shifted(w, 7 - k) % 16);
  }

  /** Digits in upper case are read as those in lower case. */
  lemma UpperCaseReads(w: U32)
    ensures ParseUint(Upper(Hex(w, 8))) == Some(w)
    ensures |Upper(Hex(w, 8))| == 8 && forall k: nat :: k < 8 ==> Upper(Hex(w, 8))[k] == UPPER[Shifted(w, 7 - k) % 16]
  {
    var s := Hex(w, 8);
    hide HexValue, DigitValue, Hex, Shifted;
    forall i: nat | i < 8 ensures DigitValue(Upper(s)[i]) == DigitValue(s[i]) && Upper(s)[i] == UPPER[Shifted(w, 7 - i) % 16] {
      UpperMeans(w, i);
    }
    SameValue(Upper(s), s);
    WordRoundTrip(w);
    assert FormatWord(w)[2..] == s;
  }

  /** A printed word is ten characters, none of them blank, a comma or a line feed. */
  lemma WordShape(w: U32, k: nat)
    requires k < 10
    ensures |FormatWord(w)| == 10
    ensures var c := FormatWord(w)[k]; !IsSpace(c) && c != ','
  {
    if k >= 2 { HexChars(w, 8, k - 2); }
  }

  lemma TrimWord(w: U32)
    ensures TrimSpace(FormatWord(w)) == FormatWord(w)
  {
    WordShape(w, 0);
    WordShape(w, 9);
  }

  /** parseAddr reads a printed word back. */
  lemma AddrRoundTrip(w: U32)
    ensures ParseAddr(FormatWord(w)) == Some(w)
  {
    TrimWord(w);
    WordRoundTrip(w);
  }

  lemma {:induction false} SplitJoined(words: seq<U32>)
    requires words != []
    ensures Split(Join(Formatted(words), ','), ',') == Formatted(words)
  {
    var p := FormatWord(words[0]);
    forall k: nat | k < 10 ensures p[k] != ',' { WordShape(words[0], k); }
    if |words| == 1 {
      assert Formatted(words) == [p] by { assert Formatted(words[1..]) == []; }
    } else {
      var rest := Join(Formatted(words[1..]), ',');
      assert Formatted(words)[1..] == Formatted(words[1..]);
      var s := p + [','] + rest;
      assert s[|p|] == ',' && forall k :: 0 <= k < |p| ==> s[k] == p[k];
      assert s[..|p|] == p && s[|p| + 1..] == rest;
      SplitJoined(words[1..]);
    }
  }

  lemma {:induction false} TokensParse(words: seq<U32>)
    ensures ParseTokens(Formatted(words)) == Ok(words)
  {
    if words != [] {
      TokensParse(words[1..]);
      TrimWord(words[0]);
      WordRoundTrip(words[0]);
      WordShape(words[0], 0);
      hide TrimSpace, HexValue, FormatWord, IsSpace;
      assert Formatted(words)[1..] == Formatted(words[1..]);
      assert words == [words[0]] + words[1..];
    }
  }

  /** parseWords reads back any non-empty list printed with commas between the words. */
  lemma CommaRoundTrip(words: seq<U32>)
    requires words != []
    ensures ParseText(Join(Formatted(words), ',')) == Ok(words)
  {
    SplitJoined(words);
    TokensParse(words);
  }

  lemma {:induction false} JoinedLines(words: seq<U32>)
    requires words != []
    ensures var s := Join(Formatted(words), '\n'); s != "" && ',' !in s && !IsSpace(s[0]) && !IsSpace(s[|s| - 1])
  {
    var p := FormatWord(words[0]);
    forall k: nat | k < 10 ensures p[k] != ',' && !IsSpace(p[k]) { WordShape(words[0], k); }
    if |words| == 1 {
      assert Formatted(words[1..]) == [];
    } else {
      JoinedLines(words[1..]);
      assert Formatted(words)[1..] == Formatted(words[1..]);
    }
  }

  /** The words' text runs through the line break after the first. */
  lemma LineBreakInside(words: seq<U32>)
    requires |words| >= 2
    ensures var s := Join(Formatted(words), '\n'); |s| > 10 && s[..2] == "0x" && s[10] == '\n'
  {
    var p := FormatWord(words[0]);
    WordShape(words[0], 0);
    assert Formatted(words)[1..] == Formatted(words[1..]);
    assert Join(Formatted(words), '\n') == p + ['\n'] + Join(Formatted(words[1..]), '\n');
    assert p[..2] == "0x";
  }

  lemma OneBadToken(s: string)
    requires |s| > 2 && ',' !in s && !IsSpace(s[0]) && !IsSpace(s[|s| - 1])
    requires s[..2] == "0x" && HexValue(s[2..]).None?
    ensures ParseText(s).Err?
  {
    assert Index(s, ',') == |s|;
    assert TrimSpace(s) == s && HasPrefix(s, "0x");
    hide HexValue, TrimSpace;
    assert Split(s, ',') == [s];
  }

  lemma {:induction false} BadDigit(s: string, k: nat)
    requires k < |s| && DigitValue(s[k]).None?
    ensures HexValue(s).None?
  {
    if k < |s| - 1 { BadDigit(s[..|s| - 1], k); }
  }

  lemma LinesDoNotParse(words: seq<U32>)
    requires |words| >= 2
    ensures ParseText(Join(Formatted(words), '\n')).Err?
  {
    var s := Join(Formatted(words), '\n');
    JoinedLines(words);
    LineBreakInside(words);
    hide Join, Formatted;
    var t := s[2..];
    assert t[8] == '\n';
    BadDigit(t, 8);
    OneBadToken(s);
  }

  /** formatWords prints line feeds between the words, so what it prints reads back
      only when there is exactly one. */
  lemma FormatRoundTripExactly(words: seq<U32>)
    ensures ParseText(Join(Formatted(words), '\n')) == Ok(words) <==> |words| == 1
  {
    var text := Join(Formatted(words), '\n');
    if words == [] {
      assert Split("", ',') == [""];
      assert TrimSpace("") == "" && [""][1..] == [];
    } else if |words| == 1 {
      assert Formatted(words[1..]) == [];
      assert Join(Formatted(words), ',') == text;
      CommaRoundTrip(words);
    } else {
      LinesDoNotParse(words);
    }
  }
}

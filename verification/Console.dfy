/** transport/console/console.go: cleaning the raw response to a console command. */
module ConsoleDevice {
  import opened Strings

  const PROMPT := "=> "

  /** strings.LastIndex among the first n positions, -1 when absent. */
  function LastIndexBelow(s: string, p: string, n: nat): (i: int)
    ensures i == -1 || (0 <= i < n && OccursAt(s, p, i))
    ensures forall k: nat :: i < k < n ==> !OccursAt(s, p, k)
  {
    if n == 0 then -1 else if OccursAt(s, p, n - 1) then n - 1 else LastIndexBelow(s, p, n - 1)
  }

  function LastIndex(s: string, p: string): int {
    LastIndexBelow(s, p, |s| + 1)
  }

  function CleanResponse(cmd: string, raw: string): string {
    var s := ReplaceAll(ReplaceAll(ReplaceAll(raw, "\r\n", "\n"), "\n\r", "\n"), "\r", "\n");
    var i := Index(s, '\n');
    var t := if i < |s| then (if Contains(s[..i], cmd) then s[i + 1..] else s)
             else if HasPrefix(s, cmd) then s[|cmd|..] else s;
    var p := LastIndex(t, PROMPT);
    TrimSpace(if p >= 0 then t[..p] else t)
  }

  /** A text with this for every line feed, as a terminal sends it. */
  function Wire(s: string, eol: string): string {
    if s == "" then "" else (if s[0] == '\n' then eol else [s[0]]) + Wire(s[1..], eol)
  }

  lemma {:induction false} SameWire(s: string)
    ensures Wire(s, "\n") == s
  {
    if s != "" { SameWire(s[1..]); }
  }

  lemma {:induction false} WireChars(s: string, eol: string, c: char)
    requires c !in eol && (c !in s || c == '\n')
    ensures c !in Wire(s, eol)
  {
    if s != "" { WireChars(s[1..], eol, c); }
  }

  lemma PrefixChar(s: string, p: string, k: nat)
    requires k < |p|
    ensures HasPrefix(s, p) ==> s[k] == p[k]
  {
    if HasPrefix(s, p) { assert s[..|p|][k] == p[k]; }
  }

  lemma ShortPrefix(s: string, p: string)
    requires |s| < |p|
    ensures !HasPrefix(s, p)
  {
  }

  /** ReplaceAll goes on past a character, or past an occurrence. */
  lemma ReplaceStep(c: char, rest: string, p: string, rep: string)
    requires p != ""
    ensures !HasPrefix([c] + rest, p) ==> ReplaceAll([c] + rest, p, rep) == [c] + ReplaceAll(rest, p, rep)
    ensures ReplaceAll(p + rest, p, rep) == rep + ReplaceAll(rest, p, rep)
  {
    assert ([c] + rest)[1..] == rest && (p + rest)[..|p|] == p && (p + rest)[|p|..] == rest;
  }

  /** One line ending of one or two characters, put back as a line feed. */
  lemma {:induction false} Unwire(s: string, eol: string)
    requires '\r' !in s && eol in {"\r\n", "\r"}
    ensures ReplaceAll(Wire(s, eol), eol, "\n") == s
  {
    if s != "" {
      var w := Wire(s[1..], eol);
      Unwire(s[1..], eol);
      ReplaceStep(s[0], w, eol, "\n");
      PrefixChar([s[0]] + w, eol, 0);
      assert s == [s[0]] + s[1..];
    }
  }

  /** A text with a carriage return behind every run of line feeds. */
  function RunsEnded(s: string): string {
    if s == "" then ""
    else [s[0]] + (if s[0] == '\n' && (|s| == 1 || s[1] != '\n') then "\r" else "") + RunsEnded(s[1..])
  }

  lemma HalfwayEnd(w: string, u: string)
    ensures ReplaceAll("\n\r" + u, "\r\n", "\n") == "\n" + ReplaceAll("\r" + u, "\r\n", "\n")
    ensures ReplaceAll("\r\n\r" + u, "\r\n", "\n") == "\n" + ReplaceAll("\r" + u, "\r\n", "\n")
    ensures w == "" || w[0] != '\n' ==> ReplaceAll("\r" + w, "\r\n", "\n") == "\r" + ReplaceAll(w, "\r\n", "\n")
  {
    hide ReplaceAll, HasPrefix;
    assert "\n\r" + u == "\n" + ("\r" + u) && "\r\n\r" + u == "\r\n" + ("\r" + u);
    ReplaceStep('\n', "\r" + u, "\r\n", "\n");
    PrefixChar("\n" + ("\r" + u), "\r\n", 0);
    ReplaceStep('\r', w, "\r\n", "\n");
    PrefixChar("\r" + w, "\r\n", 1);
    if w == "" { assert !HasPrefix("\r" + w, "\r\n") by { ShortPrefix("\r" + w, "\r\n"); } }
  }

  lemma {:induction false} RunsStep(s: string)
    requires s != ""
    ensures var t := s[1..];
            RunsEnded(s) == if s[0] == '\n' then "\n" + ((if t != "" && t[0] == '\n' then "" else "\r") + RunsEnded(t)) else [s[0]] + RunsEnded(t)
  {
    assert |s| > 1 ==> s[1] == s[1..][0];
  }

  lemma HalfwayBreak(t: string, u: string)
    requires ReplaceAll("\r" + u, "\r\n", "\n") == (if t != "" && t[0] == '\n' then "" else "\r") + RunsEnded(t)
    ensures ReplaceAll("\n\r" + u, "\r\n", "\n") == RunsEnded("\n" + t)
    ensures ReplaceAll("\r" + ("\n\r" + u), "\r\n", "\n") == RunsEnded("\n" + t)
  {
    RunsStep("\n" + t);
    assert ("\n" + t)[1..] == t && "\r" + ("\n\r" + u) == "\r\n\r" + u;
    hide ReplaceAll, RunsEnded;
    HalfwayEnd("", u);
  }

  lemma HalfwayChar(c: char, t: string, u: string)
    requires c != '\n' && c != '\r' && ReplaceAll(u, "\r\n", "\n") == RunsEnded(t)
    ensures ReplaceAll([c] + u, "\r\n", "\n") == RunsEnded([c] + t)
    ensures ReplaceAll("\r" + ([c] + u), "\r\n", "\n") == "\r" + RunsEnded([c] + t)
  {
    RunsStep([c] + t);
    assert ([c] + t)[1..] == t && ([c] + t)[0] == c;
    hide ReplaceAll, RunsEnded, HasPrefix;
    HalfwayEnd([c] + u, u);
    ReplaceStep(c, u, "\r\n", "\n");
    PrefixChar([c] + u, "\r\n", 0);
  }

  /** The first replacement meets the line endings "\n\r" of a run halfway. */
  lemma {:induction false} Halfway(s: string)
    requires '\r' !in s
    ensures ReplaceAll(Wire(s, "\n\r"), "\r\n", "\n") == RunsEnded(s)
    ensures ReplaceAll("\r" + Wire(s, "\n\r"), "\r\n", "\n") == (if s != "" && s[0] == '\n' then "" else "\r") + RunsEnded(s)
  {
    if s == "" {
      assert "\r" + Wire(s, "\n\r") == "\r";
    } else {
      var t := s[1..];
      var u := Wire(t, "\n\r");
      Halfway(t);
      assert s == [s[0]] + t && s[0] != '\r' && Wire(s, "\n\r") == (if s[0] == '\n' then "\n\r" else [s[0]]) + u;
      hide ReplaceAll, HasPrefix, Wire, RunsEnded;
      if s[0] == '\n' { HalfwayBreak(t, u); } else { HalfwayChar(s[0], t, u); }
    }
  }

  lemma {:induction false} RestOfWay(s: string)
    requires '\r' !in s
    ensures ReplaceAll(RunsEnded(s), "\n\r", "\n") == s
  {
    if s != "" {
      var u := RunsEnded(s[1..]);
      RestOfWay(s[1..]);
      assert s == [s[0]] + s[1..] && (s[1..] != "" ==> u[0] == s[1]);
      assert RunsEnded(s) == [s[0]] + u || (s[0] == '\n' && RunsEnded(s) == "\n\r" + u);
      hide ReplaceAll, RunsEnded, HasPrefix;
      ReplaceStep(s[0], u, "\n\r", "\n");
      PrefixChar([s[0]] + u, "\n\r", 0);
      PrefixChar([s[0]] + u, "\n\r", 1);
    }
  }

  /** However lines were ended, they end in line feeds afterwards. */
  lemma LineEndsMade(s: string, eol: string)
    requires '\r' !in s && eol in {"\r\n", "\n\r", "\r", "\n"}
    ensures ReplaceAll(ReplaceAll(ReplaceAll(Wire(s, eol), "\r\n", "\n"), "\n\r", "\n"), "\r", "\n") == s
  {
    hide ReplaceAll, Wire, RunsEnded, Contains;
    NoChar(s, "\n\r", 1);
    NoChar(s, "\r", 0);
    ReplaceAbsent(s, "\n\r", "\n");
    ReplaceAbsent(s, "\r", "\n");
    if eol == "\r\n" {
      Unwire(s, eol);
    } else if eol == "\n\r" {
      Halfway(s);
      RestOfWay(s);
    } else if eol == "\n" {
      SameWire(s);
      NoChar(s, "\r\n", 0);
      ReplaceAbsent(s, "\r\n", "\n");
    } else {
      var w := Wire(s, eol);
      WireChars(s, eol, '\n');
      NoChar(w, "\r\n", 1);
      NoChar(w, "\n\r", 0);
      ReplaceAbsent(w, "\r\n", "\n");
      ReplaceAbsent(w, "\n\r", "\n");
      Unwire(s, eol);
    }
  }

  lemma EchoLine(first: string, cmd: string, t: string)
    requires '\n' !in first
    ensures var s := first + ("\n" + t);
            Index(s, '\n') == |first| < |s| && s[..|first|] == first && s[|first| + 1..] == t && Contains(cmd, cmd)
  {
    var s := first + ("\n" + t);
    assert s[|first|] == '\n' && forall k :: 0 <= k < |first| ==> s[k] == first[k];
    assert cmd[0..0 + |cmd|] == cmd;
    ContainsAt(cmd, cmd, 0);
  }

  lemma LastAtEnd(s: string, p: string)
    requires p != ""
    ensures LastIndex(s + p, p) == |s| && (s + p)[..|s|] == s
  {
    assert OccursAt(s + p, p, |s|);
  }

  /** CleanResponse inverts the echo / body / prompt framing, whichever way the device ends
      its lines: for a command of one line and a body without carriage returns it gives the
      body back, trimmed, even when the body itself shows the prompt or the command. */
  lemma CleanInvertsAnswer(cmd: string, body: string, eol: string)
    requires '\n' !in cmd && '\r' !in cmd && '\r' !in body && eol in {"\r\n", "\n\r", "\r", "\n"}
    ensures CleanResponse(cmd, Wire(cmd + "\n" + body + "=> ", eol)) == TrimSpace(body)
  {
    hide ReplaceAll, Wire, Contains, Index, OccursAt, LastIndex, HasPrefix, TrimSpace;
    var t := body + PROMPT;
    var s := cmd + ("\n" + t);
    assert cmd + "\n" + body + "=> " == s;
    LineEndsMade(s, eol);
    EchoLine(cmd, cmd, t);
    LastAtEnd(body, PROMPT);
  }

  /** Without a line break only an echo at the start comes off. */
  lemma CleanOneLine(cmd: string, body: string)
    requires '\n' !in cmd && '\r' !in cmd && '\n' !in body && '\r' !in body
    ensures CleanResponse(cmd, cmd + body + "=> ") == TrimSpace(body)
    ensures !(cmd <= body + "=> ") ==> CleanResponse(cmd, body + "=> ") == TrimSpace(body)
  {
    hide ReplaceAll, Wire, Contains, Index, OccursAt, LastIndex, TrimSpace;
    var s, t := cmd + body + "=> ", body + "=> ";
    LineEndsMade(s, "\n");
    LineEndsMade(t, "\n");
    SameWire(s);
    SameWire(t);
    LastAtEnd(body, PROMPT);
    assert s[..|cmd|] == cmd && s[|cmd|..] == t;
    if |cmd| <= |t| && t[..|cmd|] == cmd { assert cmd <= t; }
  }

  /** A first line that does not show the command stays. */
  lemma CleanKeepsFirst(cmd: string, first: string, body: string)
    requires '\n' !in first && '\r' !in first && '\r' !in body && !Contains(first, cmd)
    ensures CleanResponse(cmd, first + "\n" + body + "=> ") == TrimSpace(first + "\n" + body)
  {
    hide ReplaceAll, Wire, Contains, Index, OccursAt, LastIndex, HasPrefix, TrimSpace;
    var s := first + ("\n" + (body + "=> "));
    assert first + "\n" + body + "=> " == s == (first + "\n" + body) + PROMPT;
    LineEndsMade(s, "\n");
    SameWire(s);
    EchoLine(first, cmd, body + "=> ");
    LastAtEnd(first + "\n" + body, PROMPT);
  }
}

/** transport/console/console.go: the reader pump that feeds every open stream. */
module ConsolePump {
  import opened ConsoleLines
  import opened MachineInts
  import opened Results

  type Streams = map<nat, Stream>

  /** The streams are distinct objects. */
  ghost predicate Separate(subs: Streams) {
    forall i, j :: i in subs && j in subs && i != j ==> subs[i] != subs[j]
  }

  ghost predicate AllValid(subs: Streams)
    reads subs.Values
  {
    forall i :: i in subs ==> subs[i].Valid()
  }

  ghost function Inputs(subs: Streams): map<nat, seq<Byte>>
    reads subs.Values
  {
    map i | i in subs :: subs[i].input
  }

  /** A stream not behind has been given exactly the bytes read since it was opened. */
  ghost predicate Caught(inputs: map<nat, seq<Byte>>, opening: map<nat, nat>, behind: set<nat>, buf: seq<Byte>) {
    && inputs.Keys == opening.Keys
    && forall i :: i in inputs ==> opening[i] <= |buf| && (i !in behind ==> inputs[i] == buf[opening[i]..])
  }

  /** The inputs after a chunk that all but lost took. */
  ghost predicate Pushed(before: map<nat, seq<Byte>>, after: map<nat, seq<Byte>>, b: seq<Byte>, lost: set<nat>) {
    && before.Keys == after.Keys
    && forall i :: i in before ==> after[i] == if i in lost then before[i] else before[i] + b
  }

  lemma DropPrefix(p: seq<Byte>, q: seq<Byte>, n: nat)
    requires n <= |p|
    ensures (p + q)[n..] == p[n..] + q
  {
  }

  lemma PushedCaught(before: map<nat, seq<Byte>>, after: map<nat, seq<Byte>>, b: seq<Byte>, lost: set<nat>,
                     opening: map<nat, nat>, behind: set<nat>, buf: seq<Byte>)
    requires Caught(before, opening, behind, buf) && Pushed(before, after, b, lost)
    ensures Caught(after, opening, behind + lost, buf + b)
  {
    forall i | i in after && i !in behind + lost ensures after[i] == (buf + b)[opening[i]..] {
      DropPrefix(buf, b, opening[i]);
    }
  }

  ghost predicate Numbered(ids: set<nat>, next: nat) {
    forall i :: i in ids ==> i < next
  }

  lemma NotYet(ids: set<nat>, next: nat)
    requires Numbered(ids, next)
    ensures next !in ids && Numbered(ids + {next}, next + 1)
  {
  }

  lemma OpensCaught(inputs: map<nat, seq<Byte>>, opening: map<nat, nat>, behind: set<nat>, buf: seq<Byte>, i: nat)
    requires Caught(inputs, opening, behind, buf)
    ensures Caught(inputs[i := []], opening[i := |buf|], behind, buf)
  {
  }

  lemma OpensMore(subs: Streams, i: nat, s: Stream)
    requires Separate(subs) && AllValid(subs) && s.Valid() && s !in subs.Values && i !in subs
    ensures Separate(subs[i := s]) && AllValid(subs[i := s]) && Inputs(subs[i := s]) == Inputs(subs)[i := s.input]
  {
    hide Stream.Valid;
  }

  lemma ClosesOne(subs: Streams, since: map<nat, nat>, behind: set<nat>, buf: seq<Byte>, next: nat, i: nat)
    requires Separate(subs) && AllValid(subs) && i in subs && Caught(Inputs(subs), since, behind, buf) && Numbered(subs.Keys + behind, next)
    ensures Separate(subs - {i}) && AllValid(subs - {i}) && subs[i] !in (subs - {i}).Values && subs[i].Valid()
    ensures Caught(Inputs(subs - {i}), since - {i}, behind, buf) && Numbered((subs - {i}).Keys + behind, next)
  {
    hide Stream.Valid;
    assert Inputs(subs - {i}) == Inputs(subs) - {i};
  }

  lemma SameElsewhere(was: set<nat>, now: set<nat>, no: set<nat>, left: set<nat>, i: nat)
    requires was * left == no * left && now - {i} == was - {i} && i in left
    ensures now * (left - {i}) == no * (left - {i}) && (i in was <==> i in no)
  {
    forall j | j in left - {i} ensures j in now <==> j in no {
      assert j in now - {i} <==> j in was - {i};
      assert j in was * left <==> j in no * left;
    }
    assert i in was * left <==> i in no * left;
  }

  lemma InputKeys(subs: Streams)
    ensures Inputs(subs).Keys == subs.Keys
  {
  }

  lemma PushedNone(subs: Streams, b: seq<Byte>, no: set<nat>)
    ensures Pushed(Inputs(subs), Inputs(subs), b, no + subs.Keys)
  {
  }

  lemma PushedOne(before: map<nat, seq<Byte>>, mid: map<nat, seq<Byte>>, after: map<nat, seq<Byte>>, b: seq<Byte>,
                  no: set<nat>, left: set<nat>, i: nat, ok: bool)
    requires Pushed(before, mid, b, no + left) && i in left && i in mid && ok == (i !in no)
    requires after == mid[i := if ok then mid[i] + b else mid[i]]
    ensures Pushed(before, after, b, no + (left - {i}))
  {
  }

  /** push would drop a chunk. */
  ghost predicate Refuses(s: Stream)
    reads s
  {
    s.closed || |s.queue| >= QUEUE_CAP
  }

  ghost function RefusingOf(subs: Streams): set<nat>
    reads subs.Values
  {
    set i | i in subs && Refuses(subs[i])
  }

  class Console {
    var buf: seq<Byte>
    var subs: Streams
    var nextSub: nat
    var connected: bool
    ghost var since: map<nat, nat>    // how much had been read when each stream was opened
    ghost var behind: set<nat>        // streams that refused a chunk, closed or full

    ghost predicate Valid()
      reads this, subs.Values
    {
      && Separate(subs) && AllValid(subs) && Caught(Inputs(subs), since, behind, buf)
      && Numbered(subs.Keys + behind, nextSub)
    }

    constructor ()
      ensures Valid() && buf == [] && subs == map[] && connected
    {
      buf, subs, nextSub, connected, since, behind := [], map[], 0, true, map[], {};
    }

    /** Whatever the pump read, in whatever portions: a stream that is not behind has
        delivered, or still holds, exactly the lines of what was read since it opened. */
    lemma StreamSeesAll(i: nat)
      requires Valid() && i in subs && i !in behind
      ensures i in since && since[i] <= |buf|
      ensures subs[i].delivered + Lines(subs[i].Held()) == Lines(buf[since[i]..])
    {
      assert Inputs(subs)[i] == buf[since[i]..];
      subs[i].NothingLost();
    }

    /** One stream more, which has missed nothing from here on. */
    ghost predicate Opened(i: nat, subs0: Streams, since0: map<nat, nat>)
      reads this
    {
      i !in subs0 && i !in behind && i in subs && subs == subs0[i := subs[i]] && since == since0[i := |buf|]
    }

    method Attach() returns (i: nat)
      requires Valid()
      modifies this`subs, this`nextSub, this`since
      ensures Valid() && Opened(i, old(subs), old(since)) && fresh(subs[i])
    {
      hide Stream.Valid, AllValid, Separate, Caught, Inputs, Numbered;
      i := nextSub;
      NotYet(subs.Keys + behind, i);
      var s := new Stream();
      OpensMore(subs, i, s);
      OpensCaught(Inputs(subs), since, behind, buf, i);
      var more := subs[i := s];
      assert more.Keys + behind == (subs.Keys + behind) + {i};
      nextSub, subs, since := nextSub + 1, more, since[i := |buf|];
    }

    method OpenStream() returns (id: Option<nat>)
      requires Valid()
      modifies this`subs, this`nextSub, this`since
      ensures Valid() && (id.Some? <==> connected)
      ensures id.None? ==> subs == old(subs) && since == old(since)
      ensures id.Some? ==> Opened(id.value, old(subs), old(since))
    {
      if !connected {
        return None;
      }
      var i := Attach();
      id := Some(i);
    }

    /** A stream's Close: first it leaves the table, then its flag is set. */
    method CloseStream(i: nat, reason: string)
      requires Valid() && i in subs
      modifies this`subs, this`since, subs[i]
      ensures Valid() && subs == old(subs) - {i} && since == old(since) - {i}
      ensures old(subs)[i].closed && old(subs)[i].closeReason == reason
    {
      hide Stream.Valid, AllValid, Separate, Caught, Inputs, Numbered;
      var s := subs[i];
      ClosesOne(subs, since, behind, buf, nextSub, i);
      subs, since := subs - {i}, since - {i};
      s.Close(reason);
    }

    static method PushOne(subs: Streams, i: nat, b: seq<Byte>) returns (ok: bool)
      requires Separate(subs) && AllValid(subs) && i in subs
      modifies subs[i]
      ensures AllValid(subs) && ok == (i !in old(RefusingOf(subs)))
      ensures Inputs(subs) == old(Inputs(subs))[i := if ok then old(Inputs(subs))[i] + b else old(Inputs(subs))[i]]
      ensures RefusingOf(subs) - {i} == old(RefusingOf(subs)) - {i}
    {
      hide Stream.Valid;
      ok := subs[i].Push(b);
      forall j | j in subs && j != i ensures subs[j].input == old(subs[j].input) && Refuses(subs[j]) == old(Refuses(subs[j])) && subs[j].Valid() {
        assert subs[j] != subs[i];
      }
    }

    static method FanOut(subs: Streams, b: seq<Byte>)
      requires Separate(subs) && AllValid(subs)
      modifies subs.Values
      ensures AllValid(subs) && Pushed(old(Inputs(subs)), Inputs(subs), b, old(RefusingOf(subs)))
    {
      hide Stream.Valid, AllValid, Separate, Inputs, Pushed, RefusingOf;
      ghost var before, no := Inputs(subs), RefusingOf(subs);
      var left := subs.Keys;
      PushedNone(subs, b, no);
      while left != {}
        invariant left <= subs.Keys && AllValid(subs) && RefusingOf(subs) * left == no * left
        invariant Pushed(before, Inputs(subs), b, no + left)
        decreases |left|
      {
        var i :| i in left;
        ghost var was, mid := RefusingOf(subs), Inputs(subs);
        InputKeys(subs);
        var ok := PushOne(subs, i, b);
        SameElsewhere(was, RefusingOf(subs), no, left, i);
        PushedOne(before, mid, Inputs(subs), b, no, left, i, ok);
        left := left - {i};
      }
      assert no + left == no;
    }

    /** One read by readLoop: the bytes join the buffer and go to every stream; those
        closed or full miss them. */
    method Pump(b: seq<Byte>)
      requires Valid()
      modifies this`buf, this`behind, subs.Values
      ensures Valid() && buf == old(buf) + b && subs == old(subs) && since == old(since)
      ensures behind == old(behind + RefusingOf(subs))
    {
      hide Stream.Valid, AllValid, Separate, Caught, Inputs, Pushed, Refuses;
      ghost var before, no := Inputs(subs), RefusingOf(subs);
      FanOut(subs, b);
      PushedCaught(before, Inputs(subs), b, no, since, behind, buf);
      buf := buf + b;
      behind := behind + no;
    }
  }
}

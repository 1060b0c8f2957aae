/** transport/console/stream.go: reassembling console lines from byte chunks. */
module ConsoleLines {
  import opened MachineInts
  import opened Results

  const LF: Byte := 10
  const CR: Byte := 13

  /** bytes.IndexByte(p, '\n'), with |p| for "not found". */
  function FindLF(p: seq<Byte>): (i: nat)
    ensures i <= |p| && (i < |p| ==> p[i] == LF) && forall k :: 0 <= k < i ==> p[k] != LF
  {
    if p == [] || p[0] == LF then 0 else 1 + FindLF(p[1..])
  }

  /** bytes.Trim(line, "\r"). */
  function TrimCR(line: seq<Byte>): (r: seq<Byte>)
    ensures r == [] || (r[0] != CR && r[|r| - 1] != CR)
    decreases |line|
  {
    if line == [] then []
    else if line[0] == CR then TrimCR(line[1..])
    else if line[|line| - 1] == CR then TrimCR(line[..|line| - 1])
    else line
  }

  function Repeat(c: Byte, n: nat): seq<Byte> {
    seq(n, _ => c)
  }

  lemma {:induction false} TrimMeans(a: nat, line: seq<Byte>, b: nat)
    requires line == [] || (line[0] != 13 && line[|line| - 1] != 13)
    ensures TrimCR(Repeat(13, a) + line + Repeat(13, b)) == line
    decreases a + b
  {
    var l := Repeat(13, a) + line + Repeat(13, b);
    if a > 0 {
      assert l[0] == 13 && l[1..] == Repeat(13, a - 1) + line + Repeat(13, b);
      TrimMeans(a - 1, line, b);
    } else if b > 0 {
      assert l[|l| - 1] == 13 && l[..|l| - 1] == Repeat(13, a) + line + Repeat(13, b - 1);
      if line == [] { assert l[1..] == Repeat(13, a) + line + Repeat(13, b - 1); }
      TrimMeans(a, line, b - 1);
    } else {
      assert l == line;
    }
  }

  /** Every complete line of the bytes, trimmed, blank ones included. */
  function AllLines(p: seq<Byte>): seq<seq<Byte>>
    decreases |p|
  {
    var i := FindLF(p);
    if i == |p| then [] else [TrimCR(p[..i])] + AllLines(p[i + 1..])
  }

  lemma {:induction false} FirstLine(l: seq<Byte>, rest: seq<Byte>)
    requires 10 !in l
    ensures AllLines(l + [10] + rest) == [TrimCR(l)] + AllLines(rest)
  {
    var p := l + [10] + rest;
    assert p[|l|] == 10 && forall k :: 0 <= k < |l| ==> p[k] == l[k] && l[k] != 10;
    assert p[..|l|] == l && p[|l| + 1..] == rest;
    hide TrimCR;
    assert FindLF(p) == |l|;
    hide FindLF;
  }

  /** A line between carriage returns and before a line feed comes out bare, then the
      lines of the rest. */
  lemma {:induction false} LineMeans(a: nat, line: seq<Byte>, b: nat, rest: seq<Byte>)
    requires 10 !in line && (line == [] || (line[0] != 13 && line[|line| - 1] != 13))
    ensures AllLines(Repeat(13, a) + line + Repeat(13, b) + [10] + rest) == [line] + AllLines(rest)
    ensures AllLines(line) == []
  {
    var l := Repeat(13, a) + line + Repeat(13, b);
    TrimMeans(a, line, b);
    assert 10 !in l;
    hide TrimCR, Repeat;
    FirstLine(l, rest);
    if line != [] { assert FindLF(line) == |line|; }
  }

  function NonBlank(lines: seq<seq<Byte>>): seq<seq<Byte>> {
    if lines == [] then []
    else (if lines[0] == [] then [] else [lines[0]]) + NonBlank(lines[1..])
  }

  /** The non-blank trimmed lines of the bytes: what a reader is owed. */
  function Lines(p: seq<Byte>): seq<seq<Byte>> {
    NonBlank(AllLines(p))
  }

  /** What follows the last line feed. */
  function Tail(p: seq<Byte>): seq<Byte>
    decreases |p|
  {
    var i := FindLF(p);
    if i == |p| then p else Tail(p[i + 1..])
  }

  lemma {:induction false} FindLFInConcat(p: seq<Byte>, q: seq<Byte>)
    ensures FindLF(p + q) == if FindLF(p) < |p| then FindLF(p) else |p| + FindLF(q)
  {
    if p == [] {
      assert p + q == q;
    } else if p[0] != LF {
      assert (p + q)[1..] == p[1..] + q;
      FindLFInConcat(p[1..], q);
    }
  }

  lemma Regroup<T>(a: seq<T>, b: seq<T>, c: seq<T>)
    ensures a + (b + c) == (a + b) + c
  {
  }

  lemma {:induction false} TailOff(p: seq<Byte>)
    ensures var i := FindLF(p); i < |p| ==> Tail(p) == Tail(p[i + 1..])
  {
    hide FindLF;
  }

  /** The first line comes off, the rest keeps its lines and its tail. */
  lemma {:induction false} LineOff(p: seq<Byte>)
    ensures var i := FindLF(p);
            if i == |p| then AllLines(p) == [] else AllLines(p) == [TrimCR(p[..i])] + AllLines(p[i + 1..]) && Tail(p) == Tail(p[i + 1..])
  {
    hide FindLF, TrimCR;
    TailOff(p);
    hide Tail;
  }

  lemma CutAt(p: seq<Byte>, q: seq<Byte>, i: nat)
    requires i < |p|
    ensures (p + q)[..i] == p[..i] && (p + q)[i + 1..] == p[i + 1..] + q
  {
  }

  /** Chunking: the lines of p + q are those of p, then those of what p leaves over
      with q behind it. */
  lemma {:induction false} LinesSplit(p: seq<Byte>, q: seq<Byte>)
    ensures AllLines(p + q) == AllLines(p) + AllLines(Tail(p) + q)
    ensures Tail(p + q) == Tail(Tail(p) + q)
    decreases |p|
  {
    var i := FindLF(p);
    FindLFInConcat(p, q);
    if i < |p| {
      CutAt(p, q, i);
      LineOff(p);
      LineOff(p + q);
      LinesSplit(p[i + 1..], q);
      hide AllLines, Tail, TrimCR, FindLF;
      Regroup([TrimCR(p[..i])], AllLines(p[i + 1..]), AllLines(Tail(p) + q));
    }
  }

  /** Popping the first line of pending keeps the account. */
  lemma {:induction false} LinePopped(popped: seq<seq<Byte>>, pending: seq<Byte>, rest: seq<Byte>, input: seq<Byte>)
    requires popped + AllLines(pending + rest) == AllLines(input) && Tail(pending + rest) == Tail(input)
    requires FindLF(pending) < |pending|
    ensures var i := FindLF(pending); var left := pending[i + 1..] + rest;
            (popped + [TrimCR(pending[..i])]) + AllLines(left) == AllLines(input) && Tail(left) == Tail(input)
  {
    hide AllLines, Tail, FindLF, TrimCR;
    var i := FindLF(pending);
    FindLFInConcat(pending, rest);
    CutAt(pending, rest, i);
    LineOff(pending + rest);
    Regroup(popped, [TrimCR(pending[..i])], AllLines(pending[i + 1..] + rest));
  }

  lemma {:induction false} NonBlankConcat(a: seq<seq<Byte>>, b: seq<seq<Byte>>)
    ensures NonBlank(a + b) == NonBlank(a) + NonBlank(b)
  {
    if a == [] {
      assert a + b == b;
    } else {
      assert (a + b)[1..] == a[1..] + b;
      NonBlankConcat(a[1..], b);
    }
  }

  lemma NonBlankOne(l: seq<Byte>)
    ensures NonBlank([l]) == if l == [] then [] else [l]
  {
    var none: seq<seq<Byte>> := [];
    assert [l][1..] == none;
  }

  function Flatten(chunks: seq<seq<Byte>>): seq<Byte> {
    if chunks == [] then [] else chunks[0] + Flatten(chunks[1..])
  }

  lemma {:induction false} FlattenSnoc(chunks: seq<seq<Byte>>, c: seq<Byte>)
    ensures Flatten(chunks + [c]) == Flatten(chunks) + c
  {
    if chunks == [] {
      assert [c][1..] == [] && chunks + [c] == [c];
    } else {
      assert (chunks + [c])[1..] == chunks[1..] + [c];
      FlattenSnoc(chunks[1..], c);
    }
  }

  /** More bytes keep the account: what was popped and what is held still make up the
      lines of the input. */
  lemma LinesAfter(popped: seq<seq<Byte>>, held: seq<Byte>, input: seq<Byte>, b: seq<Byte>)
    requires popped + AllLines(held) == AllLines(input) && Tail(held) == Tail(input)
    ensures popped + AllLines(held + b) == AllLines(input + b) && Tail(held + b) == Tail(input + b)
  {
    LinesSplit(held, b);
    LinesSplit(input, b);
    Regroup(popped, AllLines(held), AllLines(Tail(held) + b));
  }

  /** The lines before the first blank one. */
  function BeforeBlank(lines: seq<seq<Byte>>): seq<seq<Byte>> {
    if lines == [] || lines[0] == [] then [] else [lines[0]] + BeforeBlank(lines[1..])
  }

  function AfterBlank(lines: seq<seq<Byte>>): seq<seq<Byte>> {
    if lines == [] then [] else if lines[0] == [] then lines[1..] else AfterBlank(lines[1..])
  }

  /** What a stream has to read: complete lines, the unfinished rest, chunks queued. */
  datatype Backlog = Backlog(lines: seq<seq<Byte>>, tail: seq<Byte>, queue: seq<seq<Byte>>)

  function BacklogOf(pending: seq<Byte>, queue: seq<seq<Byte>>): Backlog {
    Backlog(AllLines(pending), Tail(pending), queue)
  }

  /** The backlog once reading has gone past a blank line, or out of lines, to the next
      chunk. */
  function Advanced(b: Backlog): Backlog
    requires b.queue != []
  {
    var p := b.tail + b.queue[0];
    Backlog(AfterBlank(b.lines) + AllLines(p), Tail(p), b.queue[1..])
  }

  /** The lines that reading until it blocks gets: up to a blank line, then on from the
      next chunk. */
  function Served(b: Backlog): seq<seq<Byte>>
    decreases |b.queue|
  {
    BeforeBlank(b.lines) + if b.queue == [] then [] else Served(Advanced(b))
  }

  /** The complete lines it leaves pending. */
  function Unserved(b: Backlog): seq<seq<Byte>>
    decreases |b.queue|
  {
    if b.queue == [] then AfterBlank(b.lines) else Unserved(Advanced(b))
  }

  /** Reading on from b gives these lines, then what reading on from c gives. */
  ghost predicate Gives(b: Backlog, lines: seq<seq<Byte>>, c: Backlog) {
    Served(b) == lines + Served(c) && Unserved(b) == Unserved(c)
  }

  ghost predicate SameBacklog(b: Backlog, c: Backlog) {
    Served(b) == Served(c) && Unserved(b) == Unserved(c)
  }

  lemma GivesMore(b: Backlog, lines: seq<seq<Byte>>, c: Backlog, more: seq<seq<Byte>>, d: Backlog)
    requires Gives(b, lines, c) && Gives(c, more, d)
    ensures Gives(b, lines + more, d)
  {
    hide Served, Unserved;
    Regroup(lines, more, Served(d));
  }

  lemma AllGiven(b: Backlog, lines: seq<seq<Byte>>, c: Backlog)
    requires Gives(b, lines, c) && Served(c) == []
    ensures Served(b) == lines && Unserved(b) == Unserved(c)
  {
  }

  lemma LineServed(b: Backlog, c: Backlog)
    requires b.lines != [] && b.lines[0] != [] && c == b.(lines := b.lines[1..])
    ensures Gives(b, [b.lines[0]], c)
  {
    hide AllLines, Tail;
    assert b.queue != [] ==> Advanced(b) == Advanced(c);
  }

  /** At a blank line or without lines: the next chunk, or the end. */
  lemma {:induction false} ChunkServed(pending: seq<Byte>, queue: seq<seq<Byte>>, b: Backlog)
    requires b.tail == Tail(pending) && b.queue == queue
    requires AllLines(pending) == (if b.lines == [] then [] else b.lines[1..]) && (b.lines == [] || b.lines[0] == [])
    ensures queue == [] ==> Served(b) == [] && Unserved(b) == AllLines(pending)
    ensures queue != [] ==> var c := BacklogOf(pending + queue[0], queue[1..]); Served(b) == Served(c) && Unserved(b) == Unserved(c)
  {
    if queue != [] {
      LinesSplit(pending, queue[0]);
      assert BacklogOf(pending + queue[0], queue[1..]) == Advanced(b);
    }
  }

  lemma {:induction false} NonBlankNone(lines: seq<seq<Byte>>)
    ensures NonBlank(lines) == [] <==> forall l :: l in lines ==> l == []
  {
    if lines != [] {
      NonBlankNone(lines[1..]);
      assert lines[0] in lines;
      assert forall l :: l in lines <==> l == lines[0] || l in lines[1..];
    }
  }

  lemma {:induction false} BlankSplits(lines: seq<seq<Byte>>)
    ensures NonBlank(lines) == BeforeBlank(lines) + NonBlank(AfterBlank(lines))
  {
    if lines != [] && lines[0] != [] {
      BlankSplits(lines[1..]);
    }
  }

  lemma {:induction false} TailHasNoLine(p: seq<Byte>)
    ensures AllLines(Tail(p)) == []
    decreases |p|
  {
    var i := FindLF(p);
    if i < |p| { TailHasNoLine(p[i + 1..]); }
  }

  lemma Exchange<T>(a: seq<T>, b: seq<T>, c: seq<T>, d: seq<T>, s: seq<T>, u: seq<T>)
    requires (b + c) + d == s + u
    ensures (a + b) + (c + d) == (a + s) + u
  {
    assert (a + b) + (c + d) == a + ((b + c) + d);
  }

  /** The next chunk taken in, what is owed stays the same. */
  lemma {:induction false} ServedNext(b: Backlog)
    requires b.queue != []
    ensures var c := Advanced(b);
            && AllLines(c.tail) == []
            && forall served, left :: NonBlank(c.lines) + Lines(c.tail + Flatten(c.queue)) == served + left ==>
                 NonBlank(b.lines) + Lines(b.tail + Flatten(b.queue)) == (BeforeBlank(b.lines) + served) + left
  {
    var p, rest, c := b.tail + b.queue[0], Flatten(b.queue[1..]), Advanced(b);
    TailHasNoLine(p);
    BlankSplits(b.lines);
    Regroup(b.tail, b.queue[0], rest);
    LinesSplit(p, rest);
    NonBlankConcat(AllLines(p), AllLines(Tail(p) + rest));
    NonBlankConcat(AfterBlank(b.lines), AllLines(p));
    hide AllLines, Tail, NonBlank, BeforeBlank, AfterBlank;
    forall served, left | NonBlank(c.lines) + Lines(c.tail + Flatten(c.queue)) == served + left
      ensures NonBlank(b.lines) + Lines(b.tail + Flatten(b.queue)) == (BeforeBlank(b.lines) + served) + left
    {
      Exchange(BeforeBlank(b.lines), NonBlank(AfterBlank(b.lines)), NonBlank(AllLines(p)), Lines(Tail(p) + rest), served, left);
    }
  }

  /** All that is owed of a backlog: what reading until it blocks gives, then the non-blank
      ones of the lines it leaves pending. */
  lemma {:induction false} ServedFirst(b: Backlog)
    requires AllLines(b.tail) == []
    ensures NonBlank(b.lines) + Lines(b.tail + Flatten(b.queue)) == Served(b) + NonBlank(Unserved(b))
    decreases |b.queue|
  {
    if b.queue == [] {
      BlankSplits(b.lines);
      assert b.tail + Flatten(b.queue) == b.tail;
    } else {
      ServedNext(b);
      ServedFirst(Advanced(b));
    }
  }

  /** The complete lines that each chunk of the queue brings, the unfinished one before it
      completed. */
  function Arriving(tail: seq<Byte>, queue: seq<seq<Byte>>): seq<seq<seq<Byte>>>
    decreases |queue|
  {
    if queue == [] then [] else [AllLines(tail + queue[0])] + Arriving(Tail(tail + queue[0]), queue[1..])
  }

  /** The complete lines pending, then those that each chunk of the queue brings. */
  function Arrivals(pending: seq<Byte>, queue: seq<seq<Byte>>): seq<seq<seq<Byte>>> {
    [AllLines(pending)] + Arriving(Tail(pending), queue)
  }

  function Joined(groups: seq<seq<seq<Byte>>>): seq<seq<Byte>> {
    if groups == [] then [] else groups[0] + Joined(groups[1..])
  }

  /** How many blank lines come before the last that is not. */
  function Gaps(lines: seq<seq<Byte>>): nat {
    if NonBlank(lines) == [] then 0 else (if lines[0] == [] then 1 else 0) + Gaps(lines[1..])
  }

  /** From whichever group on, at least as many groups follow as there are blank lines
      before the last that is not. */
  ghost predicate Paced(groups: seq<seq<seq<Byte>>>) {
    forall k :: 0 <= k < |groups| ==> Gaps(Joined(groups[k..])) < |groups| - k
  }

  lemma PacedTail(first: seq<seq<Byte>>, rest: seq<seq<seq<Byte>>>)
    ensures Paced([first] + rest) <==> Gaps(first + Joined(rest)) <= |rest| && Paced(rest)
  {
    var groups := [first] + rest;
    assert groups[0..] == groups && groups[1..] == rest;
    assert forall k :: 0 < k < |groups| ==> groups[k..] == rest[k - 1..];
    if Paced(groups) {
      forall k | 0 <= k < |rest| ensures Gaps(Joined(rest[k..])) < |rest| - k { assert groups[k + 1..] == rest[k..]; }
    }
  }

  /** Lines in front add their blank ones, if others follow. */
  lemma {:induction false} GapsOf(first: seq<seq<Byte>>, rest: seq<seq<Byte>>)
    ensures Gaps(rest) <= Gaps(first + rest)
    ensures [] !in first ==> Gaps(first + rest) == Gaps(rest)
    ensures [] in first ==> Gaps(first + rest) == if NonBlank(AfterBlank(first) + rest) == [] then 0 else 1 + Gaps(AfterBlank(first) + rest)
  {
    NonBlankConcat(first, rest);
    if first == [] {
      assert first + rest == rest;
    } else {
      assert (first + rest)[1..] == first[1..] + rest;
      NonBlankConcat(first[1..], rest);
      GapsOf(first[1..], rest);
    }
  }

  lemma {:induction false} NoGaps(lines: seq<seq<Byte>>)
    ensures Gaps(lines) == 0 <==> NonBlank(AfterBlank(lines)) == []
  {
    if lines != [] { NoGaps(lines[1..]); }
  }

  lemma {:induction false} NoBlankAfter(lines: seq<seq<Byte>>)
    requires [] !in lines
    ensures AfterBlank(lines) == []
  {
    if lines != [] { NoBlankAfter(lines[1..]); }
  }

  /** One chunk taken in, the groups stay as paced as they were. */
  lemma PacedNext(first: seq<seq<Byte>>, second: seq<seq<Byte>>, rest: seq<seq<seq<Byte>>>)
    ensures Paced([first] + ([second] + rest)) <==> Paced([AfterBlank(first) + second] + rest)
  {
    var more := second + Joined(rest);
    PacedTail(first, [second] + rest);
    PacedTail(second, rest);
    PacedTail(AfterBlank(first) + second, rest);
    assert Joined([second] + rest) == more && (AfterBlank(first) + second) + Joined(rest) == AfterBlank(first) + more;
    GapsOf(first, more);
    GapsOf(AfterBlank(first), more);
    if [] !in first {
      NoBlankAfter(first);
      assert AfterBlank(first) + more == more;
    }
  }

  /** Reading leaves only blank lines exactly if the lines are paced by the chunks. */
  lemma {:induction false} PacedServed(b: Backlog)
    ensures NonBlank(Unserved(b)) == [] <==> Paced([b.lines] + Arriving(b.tail, b.queue))
    decreases |b.queue|
  {
    hide AllLines, Tail;
    if b.queue == [] {
      PacedTail(b.lines, []);
      assert b.lines + Joined([]) == b.lines;
      NoGaps(b.lines);
    } else {
      var p := b.tail + b.queue[0];
      PacedServed(Advanced(b));
      PacedNext(b.lines, AllLines(p), Arriving(Tail(p), b.queue[1..]));
    }
  }

  /** Reading until it blocks, with whatever is pending and queued, gets all the lines
      exactly if it leaves nothing but blank ones pending, and so exactly if from no point
      on more blank lines come before the last that is not than chunks behind it. */
  lemma {:induction false} MissedLines(pending: seq<Byte>, queue: seq<seq<Byte>>)
    ensures var b := BacklogOf(pending, queue);
            && Lines(pending + Flatten(queue)) == Served(b) + NonBlank(Unserved(b))
            && (Served(b) == Lines(pending + Flatten(queue)) <==> forall l :: l in Unserved(b) ==> l == [])
            && (Served(b) == Lines(pending + Flatten(queue)) <==> Paced(Arrivals(pending, queue)))
  {
    var b := BacklogOf(pending, queue);
    TailHasNoLine(pending);
    ServedFirst(b);
    LinesSplit(pending, Flatten(queue));
    NonBlankConcat(AllLines(pending), AllLines(Tail(pending) + Flatten(queue)));
    NonBlankNone(Unserved(b));
    PacedServed(b);
  }

  lemma {:induction false} NonBlankAll(lines: seq<seq<Byte>>)
    requires [] !in lines
    ensures NonBlank(lines) == lines
  {
    if lines != [] {
      NonBlankAll(lines[1..]);
    }
  }

  /** Moving the head of the queue into pending changes nothing held. */
  lemma TakeChunk(pending: seq<Byte>, queue: seq<seq<Byte>>)
    requires queue != []
    ensures (pending + queue[0]) + Flatten(queue[1..]) == pending + Flatten(queue)
  {
    assert pending + (queue[0] + Flatten(queue[1..])) == (pending + queue[0]) + Flatten(queue[1..]);
  }

  /** A reader blocked on an empty queue has delivered all lines exactly if only blank ones
      are pending, as when the input had none. */
  lemma BlockedExactly(popped: seq<seq<Byte>>, pending: seq<Byte>, input: seq<Byte>, last: Option<seq<Byte>>)
    requires popped + AllLines(pending) == AllLines(input)
    requires if last.None? then AllLines(pending) == [] else last.value == [] && last.value in popped
    ensures NonBlank(popped) == Lines(input) <==> forall l :: l in AllLines(pending) ==> l == []
    ensures [] !in AllLines(input) ==> NonBlank(popped) == Lines(input) == AllLines(input)
  {
    NonBlankConcat(popped, AllLines(pending));
    NonBlankNone(AllLines(pending));
    assert last.Some? ==> last.value in popped + AllLines(pending);
    if [] !in AllLines(input) { NonBlankAll(AllLines(input)); }
  }

  /** What Read hands back: a numbered line, the end of a closed stream, or (in Go,
      blocking) nothing while the queue stays empty. */
  datatype Chunk = Line(sequence: nat, data: seq<Byte>) | Closed(reason: string) | Blocked

  const QUEUE_CAP := 256

  /** The stream object. The ghost fields record its history: the bytes accepted by
      push, the lines taken off pending, and the lines handed out by Read. */
  class Stream {
    var queue: seq<seq<Byte>>
    var seqNo: nat
    var pending: seq<Byte>
    var closed: bool
    var closeReason: string
    ghost var input: seq<Byte>
    ghost var popped: seq<seq<Byte>>
    ghost var delivered: seq<seq<Byte>>

    ghost function Held(): seq<Byte>
      reads this
    {
      pending + Flatten(queue)
    }

    ghost predicate Account()
      reads this
    {
      && popped + AllLines(Held()) == AllLines(input)
      && Tail(Held()) == Tail(input)
      && delivered == NonBlank(popped)
    }

    /** The lines popped, then the lines still held, are the lines of the input,
        however it was cut into chunks; those delivered are the non-blank ones
        popped, and Cursor counts them. */
    ghost predicate Valid()
      reads this
    {
      Account() && seqNo == |delivered|
    }

    constructor ()
      ensures Valid() && input == [] && delivered == [] && pending == [] && queue == [] && !closed
    {
      queue, seqNo, pending, closed, closeReason := [], 0, [], false, "";
      input, popped, delivered := [], [], [];
    }

    /** Delivered lines, then the non-blank lines still held, are the non-blank lines
        of the whole input. */
    lemma NothingLost()
      requires Valid()
      ensures delivered + Lines(Held()) == Lines(input)
    {
      NonBlankConcat(popped, AllLines(Held()));
    }

    /** push: accepted unless the stream is closed or the queue is full. */
    method Push(b: seq<Byte>) returns (accepted: bool)
      requires Valid()
      modifies this`queue, this`input
      ensures Valid() && accepted == (!closed && |old(queue)| < 256)
      ensures input == if accepted then old(input) + b else old(input)
      ensures queue == if accepted then old(queue) + [b] else old(queue)
    {
      accepted := !closed && |queue| < QUEUE_CAP;
      if accepted {
        FlattenSnoc(queue, b);
        LinesAfter(popped, Held(), input, b);
        assert pending + (Flatten(queue) + b) == Held() + b;
        queue := queue + [b];
        input := input + b;
      }
    }

    /** extractLine: pops one complete line off pending, even a blank one. */
    method ExtractLine() returns (line: Option<seq<Byte>>)
      requires Account()
      modifies this`pending, this`popped, this`delivered
      ensures Account()
      ensures line.None? ==> AllLines(pending) == [] && pending == old(pending)
      ensures line.None? ==> popped == old(popped) && delivered == old(delivered)
      ensures line.Some? ==> popped == old(popped) + [line.value] && AllLines(old(pending)) == [line.value] + AllLines(pending)
      ensures line.Some? ==> delivered == old(delivered) + (if line.value == [] then [] else [line.value])
      ensures Tail(pending) == Tail(old(pending))
    {
      hide AllLines, Tail, FindLF, TrimCR, Flatten, NonBlank;
      var i := FindLF(pending);
      LineOff(pending);
      if i == |pending| {
        return None;
      }
      var l := TrimCR(pending[..i]);
      LinePopped(popped, pending, Flatten(queue), input);
      NonBlankConcat(popped, [l]);
      NonBlankOne(l);
      pending := pending[i + 1..];
      popped := popped + [l];
      delivered := delivered + NonBlank([l]);
      line := Some(l);
    }

    method Number()
      requires Account()
      modifies this`seqNo
      ensures Account() && seqNo == old(seqNo) + 1
    {
      seqNo := seqNo + 1;
    }

    lemma Blocking(last: Option<seq<Byte>>)
      requires Account() && queue == []
      requires if last.None? then AllLines(pending) == [] else last.value == [] && last.value in popped
      ensures delivered == Lines(input) <==> forall l :: l in AllLines(pending) ==> l == []
      ensures [] !in AllLines(input) ==> delivered == Lines(input) == AllLines(input)
    {
      assert Held() == pending;
      BlockedExactly(popped, pending, input, last);
    }

    /** The receive from the queue. */
    method NextChunk()
      requires Account() && queue != []
      modifies this`queue, this`pending
      ensures Account() && pending == old(pending + queue[0]) && queue == old(queue[1..])
    {
      TakeChunk(pending, queue);
      pending := pending + queue[0];
      queue := queue[1..];
    }

    /** One turn of Read's loop: a line, the end of what there is, or a chunk more. */
    method Look() returns (more: bool, c: Chunk)
      requires Account() && seqNo == |delivered| && !closed
      modifies this`queue, this`seqNo, this`pending, this`popped, this`delivered
      ensures Account() && seqNo == |delivered| && |popped| >= |old(popped)|
      ensures old(queue) == [] ==> queue == []
      ensures more ==> |queue| < |old(queue)| && delivered == old(delivered)
      ensures more ==> SameBacklog(BacklogOf(pending, queue), old(BacklogOf(pending, queue)))
      ensures !more ==> !c.Closed? && (c.Blocked? ==> queue == [] && delivered == old(delivered))
      ensures !more && c.Line? ==> c.data != [] && delivered == old(delivered) + [c.data] && c.sequence == seqNo && |popped| > |old(popped)|
      ensures !more && c.Line? ==> Gives(old(BacklogOf(pending, queue)), [c.data], BacklogOf(pending, queue))
      ensures !more && c.Blocked? ==> Served(old(BacklogOf(pending, queue))) == [] && Unserved(old(BacklogOf(pending, queue))) == AllLines(pending)
      ensures !more && c.Blocked? ==> (delivered == Lines(input) <==> forall l :: l in AllLines(pending) ==> l == [])
      ensures !more && c.Blocked? && [] !in AllLines(input) ==> delivered == Lines(input) == AllLines(input)
    {
      hide AllLines, Tail, Served, Unserved, Account, NonBlank, Lines;
      ghost var b := BacklogOf(pending, queue);
      var line := ExtractLine();
      if line.Some? && line.value != [] {
        LineServed(b, BacklogOf(pending, queue));
        Number();
        return false, Line(seqNo, line.value);
      }
      ChunkServed(pending, queue, b);
      if queue == [] {
        Blocking(line);
        return false, Blocked;
      }
      NextChunk();
      more, c := true, Blocked;
    }

    /** Read. bytes.Trim yields nil for a line that trims to nothing and Read takes
        nil for "no line yet", so a blank line makes it wait for the next chunk even
        when more lines are already pending: blocked, it has delivered all lines exactly if
        only blank ones are pending, as always when the input had none. */
    method Read() returns (c: Chunk)
      requires Valid()
      modifies this`queue, this`seqNo, this`pending, this`popped, this`delivered
      ensures Valid()
      ensures c.Closed? <==> closed
      ensures c.Closed? ==> c.reason == closeReason && delivered == old(delivered)
      ensures c.Line? ==> c.data != [] && delivered == old(delivered) + [c.data] && c.sequence == seqNo == old(seqNo) + 1
      ensures c.Blocked? ==> queue == [] && delivered == old(delivered)
      ensures c.Blocked? ==> (delivered == Lines(input) <==> forall l :: l in AllLines(pending) ==> l == [])
      ensures c.Blocked? && [] !in AllLines(input) ==> delivered == Lines(input) == AllLines(input)
      ensures c.Line? ==> |popped| > |old(popped)|
      ensures c.Line? ==> Gives(old(BacklogOf(pending, queue)), [c.data], BacklogOf(pending, queue))
      ensures c.Blocked? ==> Served(old(BacklogOf(pending, queue))) == [] && Unserved(old(BacklogOf(pending, queue))) == AllLines(pending)
    {
      if closed {
        return Closed(closeReason);
      }
      hide AllLines, Tail, Served, Unserved, Account, NonBlank, Lines, BacklogOf;
      while true
        invariant Account() && delivered == old(delivered) && seqNo == old(seqNo) == |delivered| && !closed && |popped| >= |old(popped)|
        invariant SameBacklog(BacklogOf(pending, queue), old(BacklogOf(pending, queue)))
        decreases |queue|
      {
        var more;
        more, c := Look();
        if !more {
          return;
        }
      }
    }

    lemma PoppedWithin()
      requires Valid()
      ensures |popped| <= |AllLines(input)|
    {
      assert popped + AllLines(Held()) == AllLines(input);
    }

    /** Reading until the stream blocks: from what is pending the lines before the first
        blank one, and from there on again with each chunk queued; a closed stream
        gives nothing. */
    method ReadAllPending() returns (lines: seq<seq<Byte>>)
      requires Valid()
      modifies this`queue, this`seqNo, this`pending, this`popped, this`delivered
      ensures Valid() && delivered == old(delivered) + lines
      ensures closed ==> lines == []
      ensures !closed ==> lines == Served(old(BacklogOf(pending, queue))) && AllLines(pending) == Unserved(old(BacklogOf(pending, queue)))
      ensures !closed ==> (lines == Lines(old(pending + Flatten(queue))) <==> forall l :: l in AllLines(pending) ==> l == [])
      ensures !closed ==> (lines == Lines(old(pending + Flatten(queue))) <==> Paced(Arrivals(old(pending), old(queue))))
      ensures !closed && old(queue) == [] ==> lines == BeforeBlank(AllLines(old(pending)))
    {
      lines := [];
      ghost var b := BacklogOf(pending, queue);
      assert Gives(b, [], b) && (queue == [] ==> Served(b) == BeforeBlank(AllLines(pending)));
      PoppedWithin();
      MissedLines(pending, queue);
      hide AllLines, BeforeBlank, AfterBlank, Served, Unserved, BacklogOf, Gives, Valid, Account, Held, NonBlank, Lines;
      hide Flatten, Tail, Arrivals, Paced;
      ghost var d0, total := delivered, |AllLines(input)|;
      while true
        invariant Valid() && |popped| <= total && delivered == d0 + lines
        invariant closed ==> lines == []
        invariant Gives(b, lines, BacklogOf(pending, queue))
        decreases total - |popped|
      {
        ghost var before := BacklogOf(pending, queue);
        var c := Read();
        PoppedWithin();
        match c {
          case Line(_, data) =>
            GivesMore(b, lines, before, [data], BacklogOf(pending, queue));
            Regroup(d0, lines, [data]);
            lines := lines + [data];
          case Closed(_) =>
            return;
          case Blocked =>
            AllGiven(b, lines, before);
            return;
        }
      }
    }

    method Close(reason: string)
      requires Valid()
      modifies this`closed, this`closeReason
      ensures Valid() && closed && closeReason == reason
    {
      closed, closeReason := true, reason;
    }

    method Cursor() returns (n: nat)
      requires Valid()
      ensures n == |delivered|
    {
      n := seqNo;
    }
  }
}

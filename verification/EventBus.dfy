/** core/event/bus.go: the append-only event store and cursor-based resume. */
module EventBus {
  datatype Event = Event(sequence: nat, typ: string, operation: string, device: string)

  datatype Filter = Filter(device: string, operation: string, typ: string) {
    predicate Matches(e: Event) {
      && (device == "" || e.device == device)
      && (operation == "" || e.operation == operation)
      && (typ == "" || e.typ == typ)
    }
  }

  /** Sequences are 1, 2, 3, ... in storage order. */
  ghost predicate Numbered(events: seq<Event>) {
    forall i :: 0 <= i < |events| ==> events[i].sequence == i + 1
  }

  /** The stored events past the cursor that match, in order. */
  function Select(events: seq<Event>, f: Filter, cursor: nat): seq<Event> {
    if events == [] then []
    else
      var n := |events| - 1;
      Select(events[..n], f, cursor) + (if events[n].sequence > cursor && f.Matches(events[n]) then [events[n]] else [])
  }

  /** What is selected: exactly the stored events past the cursor whose device, operation
      and type are those asked for, if any is asked for; and in storage order. */
  lemma {:induction false} SelectMeans(events: seq<Event>, f: Filter, cursor: nat)
    ensures forall e :: e in Select(events, f, cursor) <==>
              e in events && e.sequence > cursor && f.device in {"", e.device} && f.operation in {"", e.operation} && f.typ in {"", e.typ}
    ensures Numbered(events) ==>
              var got := Select(events, f, cursor);
              (forall i, j :: 0 <= i < j < |got| ==> got[i].sequence < got[j].sequence) && forall e :: e in got ==> e.sequence <= |events|
  {
    if events != [] {
      var n := |events| - 1;
      SelectMeans(events[..n], f, cursor);
      assert forall e :: e in events <==> e in events[..n] || e == events[n];
    }
  }

  class Bus {
    var seqNo: nat
    var events: seq<Event>

    ghost predicate Valid()
      reads this
    {
      seqNo == |events| && Numbered(events)
    }

    constructor ()
      ensures Valid() && events == []
    {
      seqNo, events := 0, [];
    }

    method Publish(e: Event) returns (stored: Event)
      requires Valid()
      modifies this
      ensures Valid() && stored == e.(sequence := |old(events)| + 1) && events == old(events) + [stored]
    {
      seqNo := seqNo + 1;
      stored := e.(sequence := seqNo);
      events := events + [stored];
    }

    method Events(f: Filter) returns (out: seq<Event>)
      requires Valid()
      ensures out == Select(events, f, 0)
    {
      out := [];
      var i := 0;
      while i < |events|
        invariant 0 <= i <= |events|
        invariant out == Select(events[..i], f, 0)
      {
        assert events[..i + 1][..i] == events[..i];
        if f.Matches(events[i]) {
          out := out + [events[i]];
        }
        i := i + 1;
      }
      assert events[..i] == events;
    }

    method EventsAfter(f: Filter, cursor: nat) returns (out: seq<Event>)
      requires Valid()
      ensures out == Select(events, f, cursor)
      ensures forall e :: e in out <==>
                e in events && e.sequence > cursor && f.device in {"", e.device} && f.operation in {"", e.operation} && f.typ in {"", e.typ}
      ensures forall i, j :: 0 <= i < j < |out| ==> out[i].sequence < out[j].sequence
    {
      SelectMeans(events, f, cursor);
      out := [];
      var i := 0;
      while i < |events|
        invariant 0 <= i <= |events|
        invariant out == Select(events[..i], f, cursor)
      {
        assert events[..i + 1][..i] == events[..i];
        if events[i].sequence > cursor && f.Matches(events[i]) {
          out := out + [events[i]];
        }
        i := i + 1;
      }
      assert events[..i] == events;
    }
  }

  // ----- a consumer that polls while others publish

  datatype Action = Publish(e: Event) | Poll

  /** What one consumer has received, and the last sequence it saw. */
  datatype Consumer = Consumer(received: seq<Event>, cursor: nat)

  datatype State = State(events: seq<Event>, consumer: Consumer)

  function Step(s: State, f: Filter, a: Action): State {
    match a
    case Publish(e) => s.(events := s.events + [e.(sequence := |s.events| + 1)])
    case Poll =>
      var got := Select(s.events, f, s.consumer.cursor);
      s.(consumer := Consumer(s.consumer.received + got,
                              if got == [] then s.consumer.cursor else got[|got| - 1].sequence))
  }

  function Run(s: State, f: Filter, acts: seq<Action>): State {
    if acts == [] then s else Step(Run(s, f, acts[..|acts| - 1]), f, acts[|acts| - 1])
  }

  const START := State([], Consumer([], 0))

  /** The consumer holds exactly the matching events among the first cursor ones. */
  ghost predicate Caught(s: State, f: Filter) {
    && Numbered(s.events)
    && s.consumer.cursor <= |s.events|
    && s.consumer.received == Select(s.events[..s.consumer.cursor], f, 0)
  }

  lemma {:induction false} SelectNone(events: seq<Event>, f: Filter, c: nat)
    requires Numbered(events) && |events| <= c
    ensures Select(events, f, c) == []
  {
    if events != [] { SelectNone(events[..|events| - 1], f, c); }
  }

  lemma {:induction false} SelectSplit(events: seq<Event>, f: Filter, c: nat)
    requires Numbered(events) && c <= |events|
    ensures Select(events, f, 0) == Select(events[..c], f, 0) + Select(events, f, c)
    decreases |events|
  {
    var n := |events| - 1;
    if c == |events| {
      SelectNone(events, f, c);
      assert events[..c] == events;
    } else {
      assert events[..n][..c] == events[..c];
      SelectSplit(events[..n], f, c);
    }
  }

  /** The last event selected is the last match: nothing behind it matches. */
  lemma {:induction false} SelectEnds(events: seq<Event>, f: Filter, c: nat)
    requires Numbered(events) && Select(events, f, c) != []
    ensures var got := Select(events, f, c);
            var last := got[|got| - 1].sequence;
            c < last <= |events| && Select(events[..last], f, 0) == Select(events, f, 0)
    decreases |events|
  {
    var n := |events| - 1;
    if events[n].sequence > c && f.Matches(events[n]) {
      assert events[..n + 1] == events;
    } else {
      SelectEnds(events[..n], f, c);
      var got := Select(events[..n], f, c);
      var last := got[|got| - 1].sequence;
      assert events[..n][..last] == events[..last];
    }
  }

  lemma CaughtStep(s: State, f: Filter, a: Action)
    requires Caught(s, f)
    ensures Caught(Step(s, f, a), f)
    ensures a.Poll? ==> Step(s, f, a).consumer.received == Select(s.events, f, 0)
  {
    match a
    case Publish(_) =>
      assert Step(s, f, a).events[..s.consumer.cursor] == s.events[..s.consumer.cursor];
    case Poll =>
      SelectSplit(s.events, f, s.consumer.cursor);
      if Select(s.events, f, s.consumer.cursor) != [] { SelectEnds(s.events, f, s.consumer.cursor); }
  }

  /** However publishing and polling interleave, the consumer has received, in order,
      without loss or repetition, a prefix of the matching events; right after a poll
      it has received all of them. */
  lemma {:induction false} ResumeLosesNothing(f: Filter, acts: seq<Action>)
    ensures Caught(Run(START, f, acts), f)
    ensures acts != [] && acts[|acts| - 1].Poll? ==>
              Run(START, f, acts).consumer.received == Select(Run(START, f, acts).events, f, 0)
  {
    if acts != [] {
      ResumeLosesNothing(f, acts[..|acts| - 1]);
      CaughtStep(Run(START, f, acts[..|acts| - 1]), f, acts[|acts| - 1]);
    }
  }
}

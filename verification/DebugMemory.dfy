/** fake/device.go: word-addressed debug memory, read and written in runs of words
    four bytes apart, with 32-bit addresses that wrap. */
module DebugMemory {
  import opened MachineInts
  import opened Results

  const WORD := 0x1_0000_0000
  const SPAN := 0x4000_0000   // distinct word addresses four bytes apart: 2^30

  datatype DeviceError = Offline | Failing

  /** addr + uint32(i)*4 */
  function Addr(start: U32, i: nat): U32 {
    (start + 4 * i) % WORD
  }

  function Get(m: map<U32, U32>, a: U32): U32 {
    if a in m then m[a] else 0
  }

  /** The words stored one after the other, a later word winning its address. */
  function Written(m: map<U32, U32>, start: U32, words: seq<U32>): map<U32, U32> {
    if words == [] then m
    else
      var n := |words| - 1;
      Written(m, start, words[..n])[Addr(start, n) := words[n]]
  }

  function ReadBack(m: map<U32, U32>, start: U32, count: nat): seq<U32> {
    seq<U32>(count, i requires 0 <= i => Get(m, Addr(start, i)))
  }

  lemma SameResidue(j: int, k: int)
    ensures (j + SPAN * k) % SPAN == j % SPAN
  {
  }

  lemma SameWord(b: int, k: int)
    ensures (b + WORD * k) % WORD == b % WORD
  {
  }

  lemma AddrCollision(start: U32, i: nat, j: nat)
    ensures Addr(start, i) == Addr(start, j) <==> i % SPAN == j % SPAN
  {
    var a, b := start + 4 * i, start + 4 * j;
    var p, q := a / WORD, b / WORD;
    if a % WORD == b % WORD {
      assert a - b == WORD * (p - q);
      assert i == j + SPAN * (p - q);
      SameResidue(j, p - q);
    }
    if i % SPAN == j % SPAN {
      var k := i / SPAN - j / SPAN;
      assert a == b + WORD * k;
      SameWord(b, k);
    }
  }

  /** Word i stands four times i bytes on, past the end from the beginning again. */
  lemma AddrMeans(start: U32, i: nat)
    requires i < SPAN
    ensures Addr(start, i) == var a := start + 4 * i; if a < 0x1_0000_0000 then a else a - 0x1_0000_0000
  {
  }

  /** Words that share an address agree. */
  ghost predicate Agree(words: seq<U32>) {
    forall i: nat, j: nat :: i < |words| && j < |words| && i % SPAN == j % SPAN ==> words[i] == words[j]
  }

  lemma {:induction false} WrittenHolds(m: map<U32, U32>, start: U32, words: seq<U32>, i: nat)
    requires Agree(words) && i < |words|
    ensures Get(Written(m, start, words), Addr(start, i)) == words[i]
  {
    var n := |words| - 1;
    AddrCollision(start, i, n);
    if Addr(start, i) != Addr(start, n) {
      WrittenHolds(m, start, words[..n], i);
    }
  }

  lemma {:induction false} OthersKept(m: map<U32, U32>, start: U32, words: seq<U32>, a: U32)
    requires forall i: nat :: i < |words| ==> a != Addr(start, i)
    ensures Get(Written(m, start, words), a) == Get(m, a)
  {
    if words != [] {
      OthersKept(m, start, words[..|words| - 1], a);
    }
  }

  /** Reading back what was written gives it back exactly when words that land on one
      address are equal ... */
  lemma ReadAfterWriteExactly(m: map<U32, U32>, start: U32, words: seq<U32>)
    ensures ReadBack(Written(m, start, words), start, |words|) == words <==> Agree(words)
  {
    var back := ReadBack(Written(m, start, words), start, |words|);
    if Agree(words) {
      forall i: nat | i < |words| ensures back[i] == words[i] { WrittenHolds(m, start, words, i); }
    }
    if back == words {
      forall i: nat, j: nat | i < |words| && j < |words| && i % SPAN == j % SPAN ensures words[i] == words[j] {
        AddrCollision(start, i, j);
        assert back[i] == back[j];
      }
    }
  }

  /** ... which up to 2^30 words is always, wherever the run starts or wraps. */
  lemma {:induction false} ReadAfterWrite(m: map<U32, U32>, start: U32, words: seq<U32>)
    requires |words| <= SPAN
    ensures ReadBack(Written(m, start, words), start, |words|) == words
    ensures forall i: nat :: i < |words| ==>
              var a := start + 4 * i; Get(Written(m, start, words), if a < 0x1_0000_0000 then a else a - 0x1_0000_0000) == words[i]
  {
    ReadAfterWriteExactly(m, start, words);
    hide Addr, Written, ReadBack;
    forall i: nat | i < |words|
      ensures var a := start + 4 * i; Get(Written(m, start, words), if a < 0x1_0000_0000 then a else a - 0x1_0000_0000) == words[i]
    {
      WrittenHolds(m, start, words, i);
      AddrMeans(start, i);
    }
  }

  class Device {
    var memory: map<U32, U32>
    var online: bool
    var failNext: bool

    constructor ()
      ensures memory == map[] && online && !failNext
    {
      memory, online, failNext := map[], true, false;
    }

    /** guard: an offline or fault-injected device refuses. */
    function Guard(): Option<DeviceError>
      reads this
    {
      if !online then Some(Offline) else if failNext then Some(Failing) else None
    }

    method WriteMemory(addr: U32, values: seq<U32>) returns (err: Option<DeviceError>)
      modifies this`memory
      ensures err == old(Guard()) && (err == Some(Offline) <==> !old(online)) && (err == Some(Failing) <==> old(online && failNext))
      ensures memory == if err.Some? then old(memory) else Written(old(memory), addr, values)
    {
      if Guard().Some? {
        return Guard();
      }
      var i := 0;
      while i < |values|
        invariant 0 <= i <= |values|
        invariant memory == Written(old(memory), addr, values[..i])
      {
        assert values[..i + 1][..i] == values[..i];
        memory := memory[Addr(addr, i) := values[i]];
        i := i + 1;
      }
      assert values[..i] == values;
      err := None;
    }

    lemma WordsRead(addr: U32, count: nat)
      ensures forall i: nat :: i < count && i < 0x4000_0000 ==>
                var b := addr + 4 * i; var a := if b < 0x1_0000_0000 then b else b - 0x1_0000_0000;
                ReadBack(memory, addr, count)[i] == if a in memory then memory[a] else 0
    {
      forall i: nat | i < count && i < 0x4000_0000
        ensures var b := addr + 4 * i; var a := if b < 0x1_0000_0000 then b else b - 0x1_0000_0000;
                ReadBack(memory, addr, count)[i] == if a in memory then memory[a] else 0
      {
        AddrMeans(addr, i);
      }
    }

    method ReadMemory(addr: U32, count: nat) returns (r: Result<seq<U32>, DeviceError>)
      ensures r.Err? ==> r.error == if online then Failing else Offline
      ensures r.Ok? <==> online && !failNext
      ensures r.Ok? ==> |r.value| == count && forall i: nat :: i < count && i < 0x4000_0000 ==>
                var b := addr + 4 * i; var a := if b < 0x1_0000_0000 then b else b - 0x1_0000_0000;
                r.value[i] == if a in memory then memory[a] else 0
      ensures r == if Guard().Some? then Err(Guard().value) else Ok(ReadBack(memory, addr, count))
    {
      if Guard().Some? {
        return Err(Guard().value);
      }
      var out: seq<U32> := [];
      var i := 0;
      while i < count
        invariant 0 <= i <= count
        invariant out == ReadBack(memory, addr, i)
      {
        out := out + [Get(memory, Addr(addr, i))];
        i := i + 1;
      }
      WordsRead(addr, count);
      r := Ok(out);
    }
  }
}

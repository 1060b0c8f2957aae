/** core/resolver/resolver.go: choosing a channel for a capability. */
module Resolver {
  import opened RegistryStore
  import opened Results
  import opened Sorting
  import Strings

  /** The comparator: healthy first, then cheaper, then by channel ID. */
  predicate Better(channels: map<ID, Channel>, a: ID, b: ID)
    requires a in channels && b in channels
  {
    if channels[a].healthy != channels[b].healthy then channels[a].healthy
    else if channels[a].cost != channels[b].cost then channels[a].cost < channels[b].cost
    else Strings.Less(a, b)
  }

  /** It is a strict total order on the channels of any registry. */
  lemma BetterIsTotalOrder(channels: map<ID, Channel>, a: ID, b: ID, c: ID)
    requires a in channels && b in channels && c in channels
    ensures !Better(channels, a, a)
    ensures Better(channels, a, b) && Better(channels, b, c) ==> Better(channels, a, c)
    ensures a != b ==> (Better(channels, a, b) <==> !Better(channels, b, a))
    ensures !Better(channels, a, b) && !Better(channels, b, c) ==> !Better(channels, a, c)
  {
    Strings.LessIrreflexive(a);
    Strings.LessTotal(a, b);
    if Strings.Less(a, b) && Strings.Less(b, a) { Strings.LessTransitive(a, b, a); }
    if Strings.Less(a, b) && Strings.Less(b, c) { Strings.LessTransitive(a, b, c); }
    if !Strings.Less(a, b) && !Strings.Less(b, c) { Strings.LessNegTransitive(a, b, c); }
  }

  ghost predicate Candidate(channels: map<ID, Channel>, c: ID, device: ID, cap: string, channelType: string) {
    Offers(channels, c, device, cap) && (channelType == "" || channels[c].channelType == channelType)
  }

  /** c is the candidate that is better than every other. */
  ghost predicate IsChoice(channels: map<ID, Channel>, c: ID, device: ID, cap: string, channelType: string) {
    && Candidate(channels, c, device, cap, channelType)
    && forall d :: Candidate(channels, d, device, cap, channelType) && d != c ==> Better(channels, c, d)
  }

  /** So the choice is a function of the registry's contents. */
  lemma ChoiceIsUnique(channels: map<ID, Channel>, c: ID, d: ID, device: ID, cap: string, channelType: string)
    requires IsChoice(channels, c, device, cap, channelType) && IsChoice(channels, d, device, cap, channelType)
    ensures c == d
  {
    if c != d { BetterIsTotalOrder(channels, c, d, c); }
  }

  /** What that means, by the channels' own fields: a READY channel of the device that
      advertises the capability and has the type, if one is asked for; and among all
      these a healthy one if any is, then one of least cost, then the first by ID. */
  lemma ChoiceMeans(channels: map<ID, Channel>, c: ID, device: ID, cap: string, channelType: string)
    requires IsChoice(channels, c, device, cap, channelType)
    ensures c in channels && channels[c].state == Ready && channels[c].device == device && cap in channels[c].capabilities
    ensures channelType == "" || channels[c].channelType == channelType
    ensures forall d | d in channels && d != c && channels[d].state == Ready && channels[d].device == device &&
                         cap in channels[d].capabilities && (channelType == "" || channels[d].channelType == channelType) ::
              && (channels[d].healthy ==> channels[c].healthy)
              && (channels[d].healthy == channels[c].healthy ==> channels[c].cost <= channels[d].cost)
              && (channels[d].healthy == channels[c].healthy && channels[c].cost == channels[d].cost ==> Strings.Less(c, d))
  {
    forall d | d in channels && d != c && channels[d].state == Ready && channels[d].device == device &&
      cap in channels[d].capabilities && (channelType == "" || channels[d].channelType == channelType)
      ensures Better(channels, c, d)
    {
      assert Candidate(channels, d, device, cap, channelType);
    }
  }

  /** Among any of the channels there is a best candidate, or none at all. */
  lemma {:induction false} BestAmong(channels: map<ID, Channel>, some: set<ID>, device: ID, cap: string, channelType: string)
    returns (r: Option<ID>)
    requires some <= channels.Keys
    ensures r.Some? ==> r.value in some && Candidate(channels, r.value, device, cap, channelType)
    ensures forall d :: d in some && Candidate(channels, d, device, cap, channelType) ==>
              r.Some? && (d == r.value || Better(channels, r.value, d))
    decreases |some|
  {
    r := None;
    if some != {} {
      var c :| c in some;
      r := BestAmong(channels, some - {c}, device, cap, channelType);
      if Candidate(channels, c, device, cap, channelType) && (r.None? || Better(channels, c, r.value)) {
        forall d | d in some && Candidate(channels, d, device, cap, channelType) ensures d == c || Better(channels, c, d) {
          if r.Some? && d != c { BetterIsTotalOrder(channels, c, r.value, d); }
        }
        r := Some(c);
      } else if r.Some? {
        BetterIsTotalOrder(channels, c, r.value, c);
      }
    }
  }

  lemma ChoiceOrNone(channels: map<ID, Channel>, device: ID, cap: string, channelType: string) returns (r: Option<ID>)
    ensures if r.Some? then IsChoice(channels, r.value, device, cap, channelType)
            else forall c :: !Candidate(channels, c, device, cap, channelType)
  {
    r := BestAmong(channels, channels.Keys, device, cap, channelType);
  }

  lemma NoneMeans(channels: map<ID, Channel>, device: ID, cap: string, channelType: string)
    requires forall c :: !Candidate(channels, c, device, cap, channelType)
    ensures forall c :: c in channels ==>
              !(channels[c].state == Ready && channels[c].device == device && cap in channels[c].capabilities &&
                (channelType == "" || channels[c].channelType == channelType))
  {
    forall c | c in channels
      ensures !(channels[c].state == Ready && channels[c].device == device && cap in channels[c].capabilities &&
                (channelType == "" || channels[c].channelType == channelType))
    {
      assert !Candidate(channels, c, device, cap, channelType);
    }
  }

  /** The comparator on arbitrary strings, for the sort. */
  function Comparator(channels: map<ID, Channel>): (ID, ID) -> bool {
    (a: ID, b: ID) => if a in channels && b in channels then Better(channels, a, b) else a in channels && b !in channels
  }

  lemma ComparatorIsOrder(channels: map<ID, Channel>)
    ensures StrictWeakOrder(Comparator(channels))
  {
    var less := Comparator(channels);
    forall x ensures !less(x, x) {
      if x in channels { BetterIsTotalOrder(channels, x, x, x); }
    }
    forall x, y | less(x, y) ensures !less(y, x) {
      if x in channels && y in channels {
        BetterIsTotalOrder(channels, x, y, x);
      }
    }
    forall x, y, z | !less(x, y) && !less(y, z) ensures !less(x, z) {
      if x in channels && y in channels && z in channels { BetterIsTotalOrder(channels, x, y, z); }
    }
  }

  /** ResolveChannel: filter, stable sort, first. The result depends neither on the
      order in which the registry's map was walked nor on anything but its contents;
      there is an error exactly when no channel qualifies. */
  method ResolveChannel(reg: Registry, device: ID, cap: string, channelType: string) returns (r: Option<ID>)
    ensures r.Some? ==> IsChoice(reg.channels, r.value, device, cap, channelType)
    ensures r.None? <==> forall c :: !Candidate(reg.channels, c, device, cap, channelType)
    ensures r.None? <==> forall c :: c in reg.channels ==>
              !(reg.channels[c].state == Ready && reg.channels[c].device == device && cap in reg.channels[c].capabilities &&
                (channelType == "" || reg.channels[c].channelType == channelType))
    ensures r.Some? ==>
              var chs, c := reg.channels, r.value;
              forall d | d in chs && d != c && chs[d].state == Ready && chs[d].device == device &&
                         cap in chs[d].capabilities && (channelType == "" || chs[d].channelType == channelType) ::
                   && (chs[d].healthy ==> chs[c].healthy)
                   && (chs[d].healthy == chs[c].healthy ==> chs[c].cost <= chs[d].cost)
                   && (chs[d].healthy == chs[c].healthy && chs[c].cost == chs[d].cost ==> Strings.Less(c, d))
  {
    var cands := reg.ChannelsByDeviceCapability(device, cap);
    if channelType != "" {
      var filtered: seq<ID> := [];
      var i := 0;
      while i < |cands|
        invariant 0 <= i <= |cands|
        invariant forall c :: c in filtered <==> c in cands[..i] && Candidate(reg.channels, c, device, cap, channelType)
      {
        assert Offers(reg.channels, cands[i], device, cap);
        if reg.channels[cands[i]].channelType == channelType {
          filtered := filtered + [cands[i]];
        }
        i := i + 1;
      }
      assert cands[..i] == cands;
      cands := filtered;
    }
    if cands == [] {
      NoneMeans(reg.channels, device, cap, channelType);
      return None;
    }
    var less := Comparator(reg.channels);
    var sorted := Sort(less, cands);
    SortPermutes(less, cands);
    ComparatorIsOrder(reg.channels);
    SortSorts(less, cands);
    assert forall c :: c in sorted <==> c in multiset(sorted);
    assert forall c :: c in cands <==> c in multiset(cands);
    forall d | Candidate(reg.channels, d, device, cap, channelType) && d != sorted[0]
      ensures Better(reg.channels, sorted[0], d)
    {
      var k :| 0 <= k < |sorted| && sorted[k] == d;
      assert !less(sorted[k], sorted[0]);
      BetterIsTotalOrder(reg.channels, sorted[0], d, d);
    }
    r := Some(sorted[0]);
    ChoiceMeans(reg.channels, sorted[0], device, cap, channelType);
  }
}

/** core/resource/registry.go and the engine's resolveResourceIDs: governed resources,
    one per device and type, and the order in which an operation asks for them. */
module Resources {
  import Identifiers
  import opened Results
  import Sorting
  import Strings

  type ID = string

  datatype Resource = Resource(id: ID, typ: string, device: ID)

  /** These are the resources of the device for these types, in order. */
  ghost predicate Named(byID: map<ID, Resource>, device: ID, types: seq<string>, ids: seq<ID>) {
    |ids| == |types| && forall i :: 0 <= i < |ids| ==> ids[i] in byID && byID[ids[i]] == Resource(ids[i], types[i], device)
  }

  /** No two resources of one device and one type. */
  ghost predicate OneEach(byID: map<ID, Resource>) {
    forall r, s :: r in byID && s in byID && byID[r].typ == byID[s].typ && byID[r].device == byID[s].device ==> r == s
  }

  /** Each type comes strictly after the one before. */
  ghost predicate Ascending(types: seq<string>) {
    forall i, j :: 0 <= i < j < |types| ==> Strings.Less(types[i], types[j])
  }

  ghost predicate Distinct(types: seq<string>) {
    forall i, j :: 0 <= i < j < |types| ==> types[i] != types[j]
  }

  type Index = map<ID, map<string, ID>>

  ghost function LookupIn(index: Index, device: ID, typ: string): Option<ID> {
    if device in index && typ in index[device] then Some(index[device][typ]) else None
  }

  /** The nested index names, under a device and a type, a resource of just those, and
      names every resource. */
  ghost predicate Indexed(byID: map<ID, Resource>, index: Index) {
    && (forall d, t :: LookupIn(index, d, t).Some? ==>
         var id := LookupIn(index, d, t).value; id in byID && byID[id] == Resource(id, t, d))
    && (forall id :: id in byID ==> LookupIn(index, byID[id].device, byID[id].typ) == Some(id))
  }

  /** A new resource under a device and type that had none. */
  lemma IndexedMore(byID: map<ID, Resource>, index: Index, device: ID, typ: string, id: ID, index': Index)
    requires Indexed(byID, index) && LookupIn(index, device, typ).None? && id !in byID
    requires LookupIn(index', device, typ) == Some(id)
    requires forall d, t :: (d, t) != (device, typ) ==> LookupIn(index', d, t) == LookupIn(index, d, t)
    ensures Indexed(byID[id := Resource(id, typ, device)], index')
  {
    hide LookupIn;
  }

  class ResourceRegistry {
    var byID: map<ID, Resource>
    var byDeviceType: Index

    ghost predicate Valid()
      reads this
    {
      Indexed(byID, byDeviceType)
    }

    constructor ()
      ensures Valid() && byID == map[] && byDeviceType == map[]
    {
      byID, byDeviceType := map[], map[];
    }

    ghost function Lookup(device: ID, typ: string): Option<ID>
      reads this
    {
      LookupIn(byDeviceType, device, typ)
    }

    /** Different devices or types never share a resource. */
    lemma Injective(d: ID, t: string, e: ID, u: string)
      requires Valid() && Lookup(d, t).Some? && Lookup(d, t) == Lookup(e, u)
      ensures d == e && t == u
    {
      assert byID[Lookup(d, t).value] == byID[Lookup(e, u).value];
    }

    lemma OneResourceEach()
      requires Valid()
      ensures OneEach(byID)
    {
      hide LookupIn;
    }

    lemma SameIndex(byID: map<ID, Resource>, index: Index, index': Index)
      requires Indexed(byID, index) && forall d, t :: LookupIn(index', d, t) == LookupIn(index, d, t)
      ensures Indexed(byID, index')
    {
      hide LookupIn;
    }

    /** Ensure: the resource already there, or a new one that changes no other answer. */
    method Ensure(device: ID, typ: string) returns (res: Resource)
      requires Valid()
      modifies this
      ensures Valid() && res.typ == typ && res.device == device
      ensures Lookup(device, typ) == Some(res.id) && res.id in byID && byID[res.id] == res
      ensures old(Lookup(device, typ)).Some? ==> byID == old(byID) && Lookup(device, typ) == old(Lookup(device, typ))
      ensures old(Lookup(device, typ)).None? ==> res.id !in old(byID) && byID == old(byID)[res.id := res]
      ensures forall d, t :: (d, t) != (device, typ) ==> Lookup(d, t) == old(Lookup(d, t))
    {
      ghost var before := byDeviceType;
      if device !in byDeviceType {
        byDeviceType := byDeviceType[device := map[]];
      }
      assert forall d, t :: LookupIn(byDeviceType, d, t) == LookupIn(before, d, t);
      if typ in byDeviceType[device] {
        SameIndex(byID, before, byDeviceType);
        assert LookupIn(before, device, typ).Some?;
        return byID[byDeviceType[device][typ]];
      }
      assert LookupIn(before, device, typ).None?;
      hide Indexed;
      var id := Identifiers.NewID("res-", byID.Keys);
      res := Resource(id, typ, device);
      var inner := byDeviceType[device][typ := id];
      byDeviceType := byDeviceType[device := inner];
      IndexedMore(byID, before, device, typ, id, byDeviceType);
      byID := byID[id := res];
    }

    /** resolveResourceIDs: the types in ascending order, each turned into its resource,
        the same one for the same type. */
    method ResolveResourceIDs(device: ID, types: seq<string>) returns (ids: seq<ID>)
      requires Valid()
      modifies this
      ensures Valid() && old(byID.Keys) <= byID.Keys && forall id :: id in old(byID) ==> byID[id] == old(byID)[id]
      ensures forall d, t :: old(Lookup(d, t)).Some? ==> Lookup(d, t) == old(Lookup(d, t))
      ensures Named(byID, device, Sorting.Sort(Strings.Less, types), ids)
      ensures forall i :: 0 <= i < |ids| ==> Lookup(device, Sorting.Sort(Strings.Less, types)[i]) == Some(ids[i])
    {
      hide Indexed, LookupIn;
      var ordered := Sorting.Sort(Strings.Less, types);
      ids := [];
      var i := 0;
      while i < |ordered|
        invariant 0 <= i <= |ordered| && Valid()
        invariant old(byID.Keys) <= byID.Keys && forall id :: id in old(byID) ==> byID[id] == old(byID)[id]
        invariant forall d, t :: old(Lookup(d, t)).Some? ==> Lookup(d, t) == old(Lookup(d, t))
        invariant Named(byID, device, ordered[..i], ids)
        invariant forall k :: 0 <= k < i ==> Lookup(device, ordered[k]) == Some(ids[k])
      {
        var res := Ensure(device, ordered[i]);
        assert ordered[..i + 1] == ordered[..i] + [ordered[i]];
        ids := ids + [res.id];
        i := i + 1;
      }
      assert ordered[..i] == ordered;
    }
  }

  lemma LessAsymmetric(a: string, b: string)
    requires Strings.Less(a, b)
    ensures !Strings.Less(b, a)
  {
    hide Strings.Less;
    if Strings.Less(b, a) {
      Strings.LessTransitive(a, b, a);
      Strings.LessIrreflexive(a);
    }
  }

  lemma LessIsOrder()
    ensures Sorting.StrictWeakOrder(Strings.Less)
  {
    hide Strings.Less;
    forall a ensures !Strings.Less(a, a) { Strings.LessIrreflexive(a); }
    forall a, b | Strings.Less(a, b) ensures !Strings.Less(b, a) { LessAsymmetric(a, b); }
    forall a, b, c | !Strings.Less(a, b) && !Strings.Less(b, c) ensures !Strings.Less(a, c) { Strings.LessNegTransitive(a, b, c); }
  }

  /** Distinctness is a property of the multiset. */
  lemma {:induction false} DistinctCounts(s: seq<string>)
    ensures Distinct(s) <==> forall x :: multiset(s)[x] <= 1
  {
    if s != [] {
      var n := |s| - 1;
      assert s == s[..n] + [s[n]];
      DistinctCounts(s[..n]);
      if Distinct(s) {
        assert Distinct(s[..n]) && s[n] !in s[..n];
        assert s[n] !in multiset(s[..n]);
      } else if Distinct(s[..n]) {
        var i, j :| 0 <= i < j < |s| && s[i] == s[j];
        assert j == n && s[..n][i] == s[n];
        assert s[n] in multiset(s[..n]) && multiset(s)[s[n]] > 1;
      } else {
        var x :| multiset(s[..n])[x] > 1;
        assert multiset(s)[x] > 1;
      }
    }
  }

  /** The order asked for is strict exactly when no type is required twice: the code
      sorts but does not remove duplicates. */
  lemma AscendingExactly(types: seq<string>)
    ensures Ascending(Sorting.Sort(Strings.Less, types)) <==> Distinct(types)
  {
    var s := Sorting.Sort(Strings.Less, types);
    Sorting.SortPermutes(Strings.Less, types);
    LessIsOrder();
    Sorting.SortSorts(Strings.Less, types);
    DistinctCounts(types);
    DistinctCounts(s);
    if Distinct(s) {
      forall i, j | 0 <= i < j < |s| ensures Strings.Less(s[i], s[j]) {
        Strings.LessTotal(s[i], s[j]);
      }
    }
    if Ascending(s) {
      forall i, j | 0 <= i < j < |s| ensures s[i] != s[j] { Strings.LessIrreflexive(s[i]); }
    }
  }
}

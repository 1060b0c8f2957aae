/** core/registry/registry.go: the stores of devices, endpoints and channels that the
    discovery, resolver, recovery and operation layers share. Go hands out pointers
    to the stored records; here a record is reached through its ID, so an update
    through such a pointer is an update of the map entry. */
module RegistryStore {
  import Identifiers
  import opened Results

  type ID = string

  datatype DeviceState = Online | Offline | Recovering | Quarantined
  datatype Device = Device(serial: string, hardwareID: string, state: DeviceState, endpoints: seq<ID>)

  datatype Endpoint = Endpoint(device: ID, locator: string, available: bool)

  datatype ChannelState = Unresolved | Resolving | Opening | Ready | Degraded | Reconnecting | Closed | Failed
  datatype Channel = Channel(plugin: string, channelType: string, endpoint: ID, device: ID,
                             state: ChannelState, healthy: bool, cost: int, capabilities: set<string>)

  /** Once a channel is created only its state and health change. */
  ghost predicate SameChannel(a: Channel, b: Channel) {
    b == a.(state := b.state, healthy := b.healthy)
  }

  /** Each serial in the index names a device with that serial. */
  ghost predicate SerialIndex(devices: map<ID, Device>, bySerial: map<string, ID>) {
    forall s :: s in bySerial ==> s != "" && bySerial[s] in devices && devices[bySerial[s]].serial == s
  }

  /** At most one endpoint per locator. */
  ghost predicate UniqueLocators(endpoints: map<ID, Endpoint>) {
    forall e, f :: e in endpoints && f in endpoints && endpoints[e].locator == endpoints[f].locator ==> e == f
  }

  predicate SameSeat(a: Channel, b: Channel) {
    a.endpoint == b.endpoint && a.plugin == b.plugin
  }

  /** At most one channel of a plugin on an endpoint. */
  ghost predicate OneChannelPerSeat(channels: map<ID, Channel>) {
    forall c, d :: c in channels && d in channels && SameSeat(channels[c], channels[d]) ==> c == d
  }

  ghost predicate Placed(channels: map<ID, Channel>, endpoints: map<ID, Endpoint>) {
    forall c :: c in channels ==> channels[c].endpoint in endpoints
  }

  /** Storing a channel keeps one channel per seat exactly if no other channel has its
      seat; an update that keeps the channel's identity always does. */
  lemma PutChannel(channels: map<ID, Channel>, c: ID, ch: Channel)
    requires OneChannelPerSeat(channels)
    ensures OneChannelPerSeat(channels[c := ch]) <==> forall d :: d in channels && d != c ==> !SameSeat(channels[d], ch)
    ensures c in channels && SameChannel(channels[c], ch) ==> OneChannelPerSeat(channels[c := ch])
  {
    var after := channels[c := ch];
    if forall d :: d in channels && d != c ==> !SameSeat(channels[d], ch) {
      forall a, b | a in after && b in after && SameSeat(after[a], after[b]) ensures a == b {
        if a != c && b != c { assert SameSeat(channels[a], channels[b]); }
      }
    } else {
      var d :| d in channels && d != c && SameSeat(channels[d], ch);
      assert SameSeat(after[d], after[c]);
    }
    if c in channels && SameChannel(channels[c], ch) {
      forall d | d in channels && d != c ensures !SameSeat(channels[d], ch) {
        assert SameSeat(channels[d], channels[c]) <==> SameSeat(channels[d], ch);
      }
    }
  }

  /** Channels are only ever added; those there keep their identity. */
  ghost predicate Grows(before: map<ID, Channel>, after: map<ID, Channel>) {
    forall c :: c in before ==> c in after && SameChannel(before[c], after[c])
  }

  ghost predicate Offers(channels: map<ID, Channel>, c: ID, device: ID, cap: string) {
    c in channels && channels[c].device == device && channels[c].state == Ready && cap in channels[c].capabilities
  }

  lemma UniqueExactly(endpoints: map<ID, Endpoint>, id: ID, e: Endpoint)
    requires UniqueLocators(endpoints)
    ensures UniqueLocators(endpoints[id := e]) <==> forall f :: f in endpoints && f != id ==> endpoints[f].locator != e.locator
  {
    var after := endpoints[id := e];
    if f :| f in endpoints && f != id && endpoints[f].locator == e.locator {
      assert after[f].locator == after[id].locator;
    }
  }

  class Registry {
    var devices: map<ID, Device>
    var bySerial: map<string, ID>
    var endpoints: map<ID, Endpoint>
    var channels: map<ID, Channel>
    var minted: set<ID>

    /** Every stored record's ID was minted here and the indices are sound. */
    ghost predicate Valid()
      reads this
    {
      && SerialIndex(devices, bySerial)
      && UniqueLocators(endpoints)
      && OneChannelPerSeat(channels) && Placed(channels, endpoints)
      && devices.Keys + endpoints.Keys + channels.Keys <= minted
    }

    constructor ()
      ensures Valid() && devices == map[] && endpoints == map[] && channels == map[] && bySerial == map[]
    {
      devices, bySerial, endpoints, channels, minted := map[], map[], map[], map[], {};
    }

    /** A new identifier, remembered as minted. */
    method NewID() returns (id: ID)
      modifies this`minted
      ensures id !in old(minted) && minted == old(minted) + {id}
    {
      id := Identifiers.NewID("", minted);
      minted := minted + {id};
    }

    /** The serial index stays sound exactly if no other serial was indexed under the
        device: an upsert does not take an old serial out. */
    method UpsertDevice(id: ID, d: Device)
      requires Valid() && id in minted
      modifies this`devices, this`bySerial
      ensures devices == old(devices)[id := d]
      ensures Valid() <==> forall s :: s in old(bySerial) && old(bySerial)[s] == id ==> s == d.serial
      ensures bySerial == if d.serial != "" then old(bySerial)[d.serial := id] else old(bySerial)
    {
      hide UniqueLocators, OneChannelPerSeat, Placed;
      ghost var before := bySerial;
      devices := devices[id := d];
      if d.serial != "" {
        bySerial := bySerial[d.serial := id];
      }
      if s :| s in before && before[s] == id && s != d.serial {
        assert s in bySerial && bySerial[s] == id;
      }
    }

    /** d.State = st through the stored pointer. */
    method SetDeviceState(id: ID, st: DeviceState)
      requires Valid() && id in devices
      modifies this`devices
      ensures Valid() && devices == old(devices)[id := old(devices)[id].(state := st)]
    {
      devices := devices[id := devices[id].(state := st)];
    }

    method DeviceBySerial(serial: string) returns (id: Option<ID>)
      requires Valid()
      ensures id == if serial in bySerial then Some(bySerial[serial]) else None
      ensures id.Some? ==> id.value in devices && devices[id.value].serial == serial
    {
      if serial !in bySerial {
        return None;
      }
      id := Some(bySerial[serial]);
    }

    /** The loop over the endpoint map in any order: locators being unique, the answer
        does not depend on it. */
    method EndpointByLocator(locator: string) returns (id: Option<ID>)
      ensures id.Some? ==> id.value in endpoints && endpoints[id.value].locator == locator
      ensures id.None? ==> forall e :: e in endpoints ==> endpoints[e].locator != locator
    {
      var left := endpoints.Keys;
      while left != {}
        invariant left <= endpoints.Keys
        invariant forall e :: e in endpoints && e !in left ==> endpoints[e].locator != locator
        decreases |left|
      {
        var e :| e in left;
        left := left - {e};
        if endpoints[e].locator == locator {
          return Some(e);
        }
      }
      id := None;
    }

    /** Locators stay unique exactly if no other endpoint has this one. */
    method AddEndpoint(id: ID, e: Endpoint)
      requires Valid() && id in minted
      modifies this`endpoints, this`devices
      ensures endpoints == old(endpoints)[id := e]
      ensures Valid() <==> forall f :: f in old(endpoints) && f != id ==> old(endpoints)[f].locator != e.locator
      ensures devices.Keys == old(devices).Keys
      ensures forall d :: d in devices ==> devices[d] == old(devices)[d].(endpoints := devices[d].endpoints)
      ensures e.device in devices ==> id in devices[e.device].endpoints
    {
      hide OneChannelPerSeat;
      UniqueExactly(endpoints, id, e);
      endpoints := endpoints[id := e];
      hide UniqueLocators;
      if e.device in devices {
        var d := devices[e.device];
        if id !in d.endpoints {
          devices := devices[e.device := d.(endpoints := d.endpoints + [id])];
        }
      }
    }

    /** One channel per seat is kept exactly if no other channel has this one's seat. */
    method AddChannel(c: ID, ch: Channel)
      requires Valid() && c in minted
      modifies this`channels
      ensures channels == old(channels)[c := ch]
      ensures Valid() <==> ch.endpoint in endpoints && forall d :: d in old(channels) && d != c ==> !SameSeat(old(channels)[d], ch)
    {
      hide SerialIndex, UniqueLocators;
      PutChannel(channels, c, ch);
      hide OneChannelPerSeat, SameSeat;
      channels := channels[c := ch];
      assert c in channels && channels[c] == ch;
    }

    /** c.State = st, c.Healthy = healthy through the stored pointer. */
    method SetChannelState(c: ID, st: ChannelState, healthy: bool)
      requires Valid() && c in channels
      modifies this`channels
      ensures Valid() && channels == old(channels)[c := old(channels)[c].(state := st, healthy := healthy)]
      ensures Grows(old(channels), channels)
    {
      hide SerialIndex, UniqueLocators;
      var ch := channels[c].(state := st, healthy := healthy);
      PutChannel(channels, c, ch);
      hide OneChannelPerSeat;
      channels := channels[c := ch];
    }

    /** findChannel: the channel of a plugin on an endpoint. */
    method FindChannel(endpoint: ID, plugin: string) returns (id: Option<ID>)
      requires Valid()
      ensures id.Some? ==> id.value in channels && channels[id.value].endpoint == endpoint && channels[id.value].plugin == plugin
      ensures id.None? ==> forall c :: c in channels ==> channels[c].endpoint != endpoint || channels[c].plugin != plugin
    {
      var left := channels.Keys;
      while left != {}
        invariant left <= channels.Keys
        invariant forall c :: c in channels && c !in left ==> channels[c].endpoint != endpoint || channels[c].plugin != plugin
        decreases |left|
      {
        var c :| c in left;
        left := left - {c};
        if channels[c].endpoint == endpoint && channels[c].plugin == plugin {
          return Some(c);
        }
      }
      id := None;
    }

    /** ChannelsByDeviceCapability: the READY channels of a device that advertise a
        capability, in whatever order the map is walked. */
    method ChannelsByDeviceCapability(device: ID, cap: string) returns (out: seq<ID>)
      ensures forall c :: c in out <==> Offers(channels, c, device, cap)
    {
      out := [];
      var left := channels.Keys;
      while left != {}
        invariant left <= channels.Keys
        invariant forall c :: c in out <==> c !in left && Offers(channels, c, device, cap)
        decreases |left|
      {
        var c :| c in left;
        left := left - {c};
        if channels[c].device == device && channels[c].state == Ready && cap in channels[c].capabilities {
          out := out + [c];
        }
      }
    }
  }
}

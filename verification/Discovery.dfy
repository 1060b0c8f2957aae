/** core/discovery/service.go: scanning, identity correlation and hotplug refresh. The
    scanners' and plugins' answers are inputs: whatever they say, the registry's
    indices stay sound and refreshing tracks removals. */
module Discovery {
  import opened RegistryStore
  import opened Results

  datatype Hints = Hints(serial: string, hardwareID: string)

  /** One plugin asked about an endpoint: its probe's answer, what it would offer, and
      whether opening the channel succeeds. */
  datatype Visit = Visit(plugin: string, hints: Option<Hints>, channelType: string, cost: int,
                         capabilities: set<string>, opens: bool)

  /** An endpoint a scanner reports, with the plugins in the order they are asked. */
  datatype Sighting = Sighting(locator: string, visits: seq<Visit>)

  ghost function Locators(scan: seq<Sighting>): set<string> {
    set s | s in scan :: s.locator
  }

  // ----- what is said about endpoints and channels, as values

  type Endpoints = map<ID, Endpoint>
  type Channels = map<ID, Channel>

  /** A READY channel sits on an available endpoint. */
  ghost predicate ReadyAvailable(eps: Endpoints, chs: Channels) {
    forall c :: c in chs && chs[c].state == Ready ==> chs[c].endpoint in eps && eps[chs[c].endpoint].available
  }

  /** READY channels sit only at these locators. */
  ghost predicate ReadyOnlyAt(eps: Endpoints, chs: Channels, locs: set<string>) {
    forall c :: c in chs && chs[c].state == Ready ==> chs[c].endpoint in eps && eps[chs[c].endpoint].locator in locs
  }

  /** Endpoints are only added, and keep their locators. */
  ghost predicate LocatorsKept(eps: Endpoints, eps': Endpoints) {
    forall e :: e in eps ==> e in eps' && eps'[e].locator == eps[e].locator
  }

  /** Nothing at any other locator changed. */
  ghost predicate OnlyAt(eps: Endpoints, chs: Channels, eps': Endpoints, chs': Channels, locs: set<string>) {
    && (forall e :: e in eps && eps[e].locator !in locs ==> e in eps' && eps'[e] == eps[e])
    && (forall c :: c in chs && chs[c].endpoint in eps && eps[chs[c].endpoint].locator !in locs ==>
          c in chs' && chs'[c] == chs[c])
  }

  /** What any discovery does: channels and endpoints are only added and keep their
      identity, nothing outside the given locators changes, and READY channels stay
      on available endpoints at seen locators if that is where they were. */
  ghost predicate Advance(eps: Endpoints, chs: Channels, eps': Endpoints, chs': Channels, locs: set<string>, seen: set<string>) {
    && Grows(chs, chs')
    && LocatorsKept(eps, eps')
    && OnlyAt(eps, chs, eps', chs', locs)
    && (ReadyAvailable(eps, chs) ==> ReadyAvailable(eps', chs'))
    && (ReadyOnlyAt(eps, chs, seen) ==> ReadyOnlyAt(eps', chs', seen))
  }

  lemma AdvanceRefl(eps: Endpoints, chs: Channels, locs: set<string>, seen: set<string>)
    ensures Advance(eps, chs, eps, chs, locs, seen)
  {
  }

  predicate SameDevice(a: Device, b: Device) {
    a.serial == b.serial && a.hardwareID == b.hardwareID && a.state == b.state
  }

  /** Devices are only added; those there keep all but their endpoint list. */
  ghost predicate DevicesKept(ds: map<ID, Device>, ds': map<ID, Device>) {
    forall d :: d in ds ==> d in ds' && SameDevice(ds[d], ds'[d])
  }

  lemma DevicesKeptRefl(d0: map<ID, Device>)
    ensures DevicesKept(d0, d0)
  {
  }

  lemma AdvanceTrans(e0: Endpoints, c0: Channels, e1: Endpoints, c1: Channels, e2: Endpoints, c2: Channels,
                     locs: set<string>, more: set<string>, seen: set<string>)
    requires Advance(e0, c0, e1, c1, locs, seen) && Advance(e1, c1, e2, c2, more, seen) && more <= locs
    ensures Advance(e0, c0, e2, c2, locs, seen)
  {
    forall c | c in c0 ensures c in c2 && SameChannel(c0[c], c2[c]) { assert c in c1; }
    forall e | e in e0 ensures e in e2 && e2[e].locator == e0[e].locator { assert e in e1; }
    forall e | e in e0 && e0[e].locator !in locs ensures e in e2 && e2[e] == e0[e] { assert e1[e] == e0[e]; }
    forall c | c in c0 && c0[c].endpoint in e0 && e0[c0[c].endpoint].locator !in locs
      ensures c in c2 && c2[c] == c0[c]
    {
      assert c1[c] == c0[c] && c0[c].endpoint in e1;
    }
  }

  /** One plugin's visit: the locator's endpoint is made available, and one channel on
      it is stored. */
  lemma VisitAdvances(eps: Endpoints, chs: Channels, e: ID, ep: Endpoint, c: ID, ch: Channel, seen: set<string>)
    requires Placed(chs, eps) && ep.available && ch.endpoint == e && ep.locator in seen
    requires e in eps ==> eps[e].locator == ep.locator
    requires c in chs ==> SameChannel(chs[c], ch)
    ensures Advance(eps, chs, eps[e := ep], chs[c := ch], {ep.locator}, seen)
  {
  }

  /** The channel's device is that of its endpoint. */
  ghost predicate AtHome(eps: Endpoints, chs: Channels, c: ID) {
    c in chs && chs[c].endpoint in eps && chs[c].device == eps[chs[c].endpoint].device
  }

  /** Binding a locator to a device leaves a channel at home exactly if it sits at another
      locator or is that device's already: the endpoint's device is overwritten, the
      channel's is not. */
  ghost predicate HomesAfter(eps: Endpoints, chs: Channels, eps': Endpoints, chs': Channels, locator: string, device: ID) {
    forall c :: AtHome(eps, chs, c) ==>
      (AtHome(eps', chs', c) <==> (eps[chs[c].endpoint].locator == locator ==> chs[c].device == device))
  }

  lemma VisitHomes(eps: Endpoints, chs: Channels, e: ID, ep: Endpoint, c: ID, ch: Channel)
    requires UniqueLocators(eps) && (e in eps ==> eps[e].locator == ep.locator)
    requires e !in eps ==> forall f :: f in eps ==> eps[f].locator != ep.locator
    requires c in chs ==> SameChannel(chs[c], ch)
    ensures HomesAfter(eps, chs, eps[e := ep], chs[c := ch], ep.locator, ep.device)
  {
  }

  /** The visit both recognises the endpoint and opens a channel. */
  predicate Succeeds(v: Visit) {
    v.hints.Some? && v.opens
  }

  /** The first visit that succeeds. */
  function Winner(visits: seq<Visit>): Option<Visit> {
    if visits == [] then None else if Succeeds(visits[0]) then Some(visits[0]) else Winner(visits[1..])
  }

  /** Some plugin recognised and opened it. */
  predicate Opens(s: Sighting) {
    Winner(s.visits).Some?
  }

  lemma DevicesKeptTrans(d0: map<ID, Device>, d1: map<ID, Device>, d2: map<ID, Device>)
    requires DevicesKept(d0, d1) && DevicesKept(d1, d2)
    ensures DevicesKept(d0, d2) && d1.Keys <= d2.Keys
  {
  }

  /** A channel after its endpoint e was lost. */
  function Lost(ch: Channel, e: ID): Channel {
    if ch.endpoint == e && (ch.state == Ready || ch.state == Degraded)
    then ch.(state := Degraded, healthy := false) else ch
  }

  lemma LostKeeps(chs: Channels, after: Channels, eps: Endpoints, e: ID)
    requires chs.Keys == after.Keys && forall c :: c in chs ==> after[c] == Lost(chs[c], e)
    requires OneChannelPerSeat(chs) && Placed(chs, eps)
    ensures OneChannelPerSeat(after) && Placed(after, eps) && Grows(chs, after)
  {
    forall a, b | a in after && b in after && SameSeat(after[a], after[b]) ensures a == b {
      assert SameSeat(chs[a], chs[b]);
    }
  }

  /** After a locator's endpoint was marked, or found absent or already unavailable,
      no READY channel is left there. */
  lemma LocatorGone(eps: Endpoints, chs: Channels, eps': Endpoints, chs': Channels, loc: string, e: Option<ID>, locs: set<string>)
    requires UniqueLocators(eps) && ReadyAvailable(eps, chs) && ReadyOnlyAt(eps, chs, locs)
    requires if e.Some? then e.value in eps && eps[e.value].locator == loc
             else forall f :: f in eps ==> eps[f].locator != loc
    requires if e.Some? && eps[e.value].available
             then eps' == eps[e.value := eps[e.value].(available := false)] && chs'.Keys == chs.Keys &&
                  forall c :: c in chs ==> chs'[c] == Lost(chs[c], e.value)
             else eps' == eps && chs' == chs
    ensures ReadyAvailable(eps', chs') && ReadyOnlyAt(eps', chs', locs - {loc})
  {
    forall c | c in chs' && chs'[c].state == Ready
      ensures chs'[c].endpoint in eps' && eps'[chs'[c].endpoint].available && eps'[chs'[c].endpoint].locator in locs - {loc}
    {
      assert c in chs && chs[c].state == Ready && chs[c].endpoint in eps;
    }
  }

  /** The removed devices, and no others, went offline. */
  ghost predicate OfflineFor(before: map<ID, Device>, after: map<ID, Device>, removed: seq<ID>) {
    && before.Keys == after.Keys
    && (forall d :: d in removed ==> d in before)
    && (forall d :: d in before ==> after[d] == if d in removed then before[d].(state := Offline) else before[d])
  }

  lemma OfflineMore(ds0: map<ID, Device>, ds1: map<ID, Device>, ds2: map<ID, Device>, removed: seq<ID>, d: ID)
    requires OfflineFor(ds0, ds1, removed) && d in ds1 && ds2 == ds1[d := ds1[d].(state := Offline)]
    ensures OfflineFor(ds0, ds2, removed + [d])
  {
  }

  lemma GrowsRefl(chs: Channels)
    ensures Grows(chs, chs)
  {
  }

  lemma GrowsTrans(c0: Channels, c1: Channels, c2: Channels)
    requires Grows(c0, c1) && Grows(c1, c2)
    ensures Grows(c0, c2)
  {
  }

  /** The hinted serial belongs to a healthy device with another hardware ID. */
  ghost predicate Conflict(devices: map<ID, Device>, bySerial: map<string, ID>, h: Hints) {
    && h.serial in bySerial && bySerial[h.serial] in devices
    && var d := devices[bySerial[h.serial]];
       h.serial != "" && d.state != Quarantined && d.hardwareID != "" && h.hardwareID != "" && d.hardwareID != h.hardwareID
  }

  /** A channel of the plugin, in this state, sits on the available endpoint of the
      locator, which names the device. */
  ghost predicate Seated(eps: Endpoints, chs: Channels, locator: string, device: ID, plugin: string, st: ChannelState) {
    exists c :: c in chs && chs[c].state == st && chs[c].plugin == plugin && chs[c].endpoint in eps &&
                eps[chs[c].endpoint] == Endpoint(device, locator, true)
  }

  /** A channel as first created for a visit: what the plugin offered, on the device. */
  ghost predicate MadeFor(ch: Channel, v: Visit, device: ID) {
    ch == Channel(v.plugin, v.channelType, ch.endpoint, device, if v.opens then Ready else Failed, v.opens, v.cost, v.capabilities)
  }

  /** The device has the hinted serial, and no other hardware ID than the hinted one. */
  ghost predicate Identified(devices: map<ID, Device>, d: ID, h: Hints) {
    && d in devices && devices[d].serial == h.serial
    && (devices[d].hardwareID == "" || h.hardwareID == "" || devices[d].hardwareID == h.hardwareID)
  }

  /** The hinted serial is that of a device that is not quarantined. */
  ghost predicate Known(devices: map<ID, Device>, bySerial: map<string, ID>, h: Hints) {
    && h.serial != "" && h.serial in bySerial && bySerial[h.serial] in devices
    && devices[bySerial[h.serial]].state != Quarantined
  }

  /** d is the device for the hints: the known one, unless the hints conflict with it, and
      otherwise a new one, quarantined exactly on a conflict; the serial names it. */
  ghost predicate Correlated(ds: map<ID, Device>, index: map<string, ID>, ds': map<ID, Device>, index': map<string, ID>, h: Hints, d: ID) {
    && Identified(ds', d, h)
    && (d in ds <==> Known(ds, index, h) && !Conflict(ds, index, h))
    && (d in ds ==> index' == index && index[h.serial] == d)
    && (d !in ds ==> ds'[d].hardwareID == h.hardwareID && ds'[d].state == if Conflict(ds, index, h) then Quarantined else Online)
    && index' == if h.serial != "" then index[h.serial := d] else index
  }

  /** The hinted serial names a device that is not quarantined, and the hardware IDs agree or
      one is missing: the device is recognised. */
  ghost predicate Recognised(ds: map<ID, Device>, index: map<string, ID>, h: Hints) {
    && h.serial != "" && h.serial in index && index[h.serial] in ds && ds[index[h.serial]].state != Quarantined
    && (ds[index[h.serial]].hardwareID == "" || h.hardwareID == "" || ds[index[h.serial]].hardwareID == h.hardwareID)
  }

  /** A recognised device is the answer, and nothing is added; any other gets a new one. */
  lemma RecognisedExactly(ds: map<ID, Device>, index: map<string, ID>, ds': map<ID, Device>, index': map<string, ID>, h: Hints, d: ID)
    requires Correlated(ds, index, ds', index', h, d)
    ensures d in ds <==> Recognised(ds, index, h)
    ensures Recognised(ds, index, h) ==> d == index[h.serial] && index' == index
  {
  }

  /** Asked again at once, the hints give the same device exactly if they have a serial and
      it was not the conflict of hardware IDs that made the first answer a new one. */
  lemma SameAgain(ds: map<ID, Device>, index: map<string, ID>, ds': map<ID, Device>, index': map<string, ID>,
                  ds'': map<ID, Device>, index'': map<string, ID>, h: Hints, d: ID, e: ID)
    requires DevicesKept(ds, ds') && Correlated(ds, index, ds', index', h, d) && Correlated(ds', index', ds'', index'', h, e)
    ensures d == e <==>
              h.serial != "" && (h.serial in index && index[h.serial] in ds && ds[index[h.serial]].state != Quarantined ==>
                                   var known := ds[index[h.serial]].hardwareID; known == "" || h.hardwareID == "" || known == h.hardwareID)
  {
    RecognisedExactly(ds, index, ds', index', h, d);
    RecognisedExactly(ds', index', ds'', index'', h, e);
  }

  /** Every plugin that recognises an endpoint of the scan hints at a recognised device. */
  ghost predicate AllRecognised(ds: map<ID, Device>, index: map<string, ID>, visits: seq<Visit>) {
    forall v :: v in visits && v.hints.Some? ==> Recognised(ds, index, v.hints.value)
  }

  ghost predicate ScanRecognised(ds: map<ID, Device>, index: map<string, ID>, scan: seq<Sighting>) {
    forall s :: s in scan ==> AllRecognised(ds, index, s.visits)
  }

  lemma StillRecognised(ds: map<ID, Device>, ds': map<ID, Device>, index: map<string, ID>, h: Hints)
    requires DevicesKept(ds, ds') && Recognised(ds, index, h)
    ensures Recognised(ds', index, h)
  {
  }

  lemma AllStillRecognised(ds: map<ID, Device>, ds': map<ID, Device>, index: map<string, ID>, visits: seq<Visit>)
    requires DevicesKept(ds, ds') && AllRecognised(ds, index, visits)
    ensures AllRecognised(ds', index, visits)
  {
    hide DevicesKept, Recognised;
    forall v | v in visits && v.hints.Some? ensures Recognised(ds', index, v.hints.value) {
      StillRecognised(ds, ds', index, v.hints.value);
    }
  }

  lemma OfflineRecognised(ds: map<ID, Device>, ds': map<ID, Device>, index: map<string, ID>, removed: seq<ID>, scan: seq<Sighting>)
    requires OfflineFor(ds, ds', removed)
    ensures ScanRecognised(ds, index, scan) ==> ScanRecognised(ds', index, scan)
  {
    if ScanRecognised(ds, index, scan) {
      forall s, v | s in scan && v in s.visits && v.hints.Some? ensures Recognised(ds', index, v.hints.value) {
        assert AllRecognised(ds, index, s.visits);
      }
    }
  }

  /** No device was added, and the serials name the devices they named. */
  ghost predicate NoneAdded(ds: map<ID, Device>, index: map<string, ID>, ds': map<ID, Device>, index': map<string, ID>) {
    ds'.Keys == ds.Keys && index' == index
  }

  lemma {:induction false} WinnerIsFirst(visits: seq<Visit>, i: nat)
    requires i <= |visits| && forall j :: 0 <= j < i ==> !Succeeds(visits[j])
    ensures i < |visits| && Succeeds(visits[i]) ==> Winner(visits) == Some(visits[i])
    ensures i == |visits| ==> Winner(visits) == None
    decreases i
  {
    if i > 0 { WinnerIsFirst(visits[1..], i - 1); }
  }

  /** The last the scan says of this locator. */
  predicate LastAt(scan: seq<Sighting>, i: nat) {
    i < |scan| && forall j :: i < j < |scan| ==> scan[j].locator != scan[i].locator
  }

  /** The device fits what the first plugin to open the endpoint said of it. */
  ghost predicate Fits(ds: map<ID, Device>, d: ID, s: Sighting) {
    Opens(s) && Winner(s.visits).value.hints.Some? && Identified(ds, d, Winner(s.visits).value.hints.value)
  }

  ghost predicate Served(eps: Endpoints, chs: Channels, ds: map<ID, Device>, s: Sighting, found: seq<ID>)
    requires Opens(s)
  {
    exists d :: d in found && Fits(ds, d, s) && Seated(eps, chs, s.locator, d, Winner(s.visits).value.plugin, Ready)
  }

  /** What a scan brings in: where the last sighting of a locator was opened by some
      plugin, the first such plugin's channel is READY on the locator's endpoint, for one of
      these devices; and all of these fit the identity hints of some sighting. */
  ghost predicate Brought(eps: Endpoints, chs: Channels, ds: map<ID, Device>, scan: seq<Sighting>, found: seq<ID>) {
    && (forall i: nat :: LastAt(scan, i) && Opens(scan[i]) ==> Served(eps, chs, ds, scan[i], found))
    && (forall d :: d in found ==> exists s :: s in scan && Fits(ds, d, s))
  }

  lemma {:induction false} WinnerOpens(visits: seq<Visit>)
    ensures Winner(visits).Some? <==> exists v :: v in visits && v.hints.Some? && v.opens
    ensures Winner(visits).Some? ==> var v := Winner(visits).value; v in visits && v.hints.Some? && v.opens
  {
    if visits != [] {
      WinnerOpens(visits[1..]);
      assert forall v :: v in visits <==> v == visits[0] || v in visits[1..];
    }
  }

  /** So every device found is one that some plugin opened and hinted at, and where a locator's
      last sighting was opened there is a READY channel to a device found. */
  lemma BroughtMeans(eps: Endpoints, chs: Channels, ds: map<ID, Device>, scan: seq<Sighting>, found: seq<ID>)
    requires Brought(eps, chs, ds, scan, found)
    ensures forall d :: d in found ==> d in ds && exists s, v ::
              && s in scan && v in s.visits && v.hints.Some? && v.opens && ds[d].serial == v.hints.value.serial
              && (ds[d].hardwareID == "" || v.hints.value.hardwareID == "" || ds[d].hardwareID == v.hints.value.hardwareID)
    ensures forall i, v :: 0 <= i < |scan| && (forall j :: i < j < |scan| ==> scan[j].locator != scan[i].locator) &&
                           v in scan[i].visits && v.hints.Some? && v.opens ==>
              exists c :: c in chs && chs[c].state == Ready && chs[c].endpoint in eps && eps[chs[c].endpoint].available &&
                eps[chs[c].endpoint].locator == scan[i].locator && eps[chs[c].endpoint].device in found
  {
    forall d | d in found
      ensures d in ds && exists s, v ::
                && s in scan && v in s.visits && v.hints.Some? && v.opens && ds[d].serial == v.hints.value.serial
                && (ds[d].hardwareID == "" || v.hints.value.hardwareID == "" || ds[d].hardwareID == v.hints.value.hardwareID)
    {
      var s :| s in scan && Fits(ds, d, s);
      WinnerOpens(s.visits);
      assert Winner(s.visits).value in s.visits;
    }
    forall i, v | 0 <= i < |scan| && (forall j :: i < j < |scan| ==> scan[j].locator != scan[i].locator) &&
                  v in scan[i].visits && v.hints.Some? && v.opens
      ensures exists c :: c in chs && chs[c].state == Ready && chs[c].endpoint in eps && eps[chs[c].endpoint].available &&
                eps[chs[c].endpoint].locator == scan[i].locator && eps[chs[c].endpoint].device in found
    {
      WinnerOpens(scan[i].visits);
      assert LastAt(scan, i) && Served(eps, chs, ds, scan[i], found);
    }
  }

  /** Changes at other locators leave what is served as it is. */
  lemma {:induction false} ServedStill(eps: Endpoints, chs: Channels, ds: map<ID, Device>, eps': Endpoints, chs': Channels, ds': map<ID, Device>,
                                       locs: set<string>, seen: set<string>, s: Sighting, found: seq<ID>, more: seq<ID>)
    requires Advance(eps, chs, eps', chs', locs, seen) && DevicesKept(ds, ds') && s.locator !in locs
    requires Opens(s) && Served(eps, chs, ds, s, found) && found <= more
    ensures Served(eps', chs', ds', s, more)
  {
    var v := Winner(s.visits).value;
    var d :| d in found && Fits(ds, d, s) && Seated(eps, chs, s.locator, d, v.plugin, Ready);
    var c :| c in chs && chs[c].state == Ready && chs[c].plugin == v.plugin && chs[c].endpoint in eps &&
             eps[chs[c].endpoint] == Endpoint(d, s.locator, true);
    assert chs'[c] == chs[c] && eps'[chs[c].endpoint] == eps[chs[c].endpoint];
    assert d in more && Fits(ds', d, s) && Seated(eps', chs', s.locator, d, v.plugin, Ready);
  }

  lemma {:induction false} ServedAmong(eps: Endpoints, chs: Channels, ds: map<ID, Device>, s: Sighting, d: ID, found: seq<ID>)
    requires Opens(s) && Served(eps, chs, ds, s, [d]) && d in found
    ensures Served(eps, chs, ds, s, found)
  {
  }

  lemma {:induction false} FitsStill(ds: map<ID, Device>, ds': map<ID, Device>, d: ID, s: Sighting)
    requires DevicesKept(ds, ds') && Fits(ds, d, s)
    ensures Fits(ds', d, s)
  {
  }

  /** One sighting more. */
  lemma {:induction false} BroughtMore(eps: Endpoints, chs: Channels, ds: map<ID, Device>, eps': Endpoints, chs': Channels, ds': map<ID, Device>,
                                       seen: set<string>, scan: seq<Sighting>, s: Sighting, found: seq<ID>, more: seq<ID>)
    requires Brought(eps, chs, ds, scan, found) && found <= more && Advance(eps, chs, eps', chs', {s.locator}, seen) && DevicesKept(ds, ds')
    requires Opens(s) ==> Served(eps', chs', ds', s, more)
    requires forall d :: d in more ==> d in found || Fits(ds', d, s)
    ensures Brought(eps', chs', ds', scan + [s], more)
  {
    hide Advance, Served, Opens, DevicesKept, Fits;
    var all := scan + [s];
    forall d | d in more ensures exists x :: x in all && Fits(ds', d, x) {
      if d in found {
        var x :| x in scan && Fits(ds, d, x);
        FitsStill(ds, ds', d, x);
        assert x in all;
      } else {
        assert s in all;
      }
    }
    forall i: nat | LastAt(all, i) && Opens(all[i]) ensures Served(eps', chs', ds', all[i], more) {
      if i < |scan| {
        assert all[|scan|] == s && all[i] == scan[i];
        assert forall j :: i < j < |scan| ==> all[j] == scan[j];
        assert LastAt(scan, i);
        ServedStill(eps, chs, ds, eps', chs', ds', {s.locator}, seen, scan[i], found, more);
      }
    }
  }

  lemma BroughtNone(eps: Endpoints, chs: Channels, ds: map<ID, Device>)
    ensures Brought(eps, chs, ds, [], [])
  {
  }

  /** The endpoints once these locators were found gone. */
  ghost function GoneEndpoints(eps: Endpoints, gone: set<string>): Endpoints {
    map e | e in eps :: if eps[e].locator in gone then eps[e].(available := false) else eps[e]
  }

  /** The channels then: those of endpoints that were available until then degrade. */
  ghost function GoneChannels(eps: Endpoints, chs: Channels, gone: set<string>): Channels {
    map c | c in chs :: if chs[c].endpoint in eps && eps[chs[c].endpoint].available && eps[chs[c].endpoint].locator in gone
                        then Lost(chs[c], chs[c].endpoint) else chs[c]
  }

  /** The devices that had an available endpoint there. */
  ghost function GoneDevices(eps: Endpoints, devices: set<ID>, gone: set<string>): set<ID> {
    set e | e in eps && eps[e].available && eps[e].locator in gone && eps[e].device in devices :: eps[e].device
  }

  lemma GoneNone(eps: Endpoints, chs: Channels, devices: set<ID>)
    ensures GoneEndpoints(eps, {}) == eps && GoneChannels(eps, chs, {}) == chs && GoneDevices(eps, devices, {}) == {}
  {
  }

  /** A locator's endpoint e, if there is one and it is available, is marked: it becomes
      unavailable and its usable channels degrade. */
  ghost predicate Marks(eps: Endpoints, chs: Channels, loc: string, e: Option<ID>, eps': Endpoints, chs': Channels) {
    && (if e.Some? then e.value in eps && eps[e.value].locator == loc else forall f :: f in eps ==> eps[f].locator != loc)
    && if e.Some? && eps[e.value].available
       then eps' == eps[e.value := eps[e.value].(available := false)] && chs'.Keys == chs.Keys &&
            forall c :: c in chs ==> chs'[c] == Lost(chs[c], e.value)
       else eps' == eps && chs' == chs
  }

  /** The device that loses its endpoint by that. */
  ghost function Loses(eps: Endpoints, devices: set<ID>, e: Option<ID>): Option<ID>
    requires e.Some? ==> e.value in eps
  {
    if e.Some? && eps[e.value].available && eps[e.value].device in devices then Some(eps[e.value].device) else None
  }

  lemma GoneOneEndpoint(eps: Endpoints, chs: Channels, gone: set<string>, loc: string, e: Option<ID>, eps': Endpoints, chs': Channels)
    requires UniqueLocators(eps) && Marks(GoneEndpoints(eps, gone), GoneChannels(eps, chs, gone), loc, e, eps', chs')
    ensures eps' == GoneEndpoints(eps, gone + {loc})
  {
    hide GoneChannels, Lost;
    var now := GoneEndpoints(eps, gone);
    assert forall f :: f in eps ==> now[f].locator == eps[f].locator;
  }

  lemma OneAt(eps: Endpoints, gone: set<string>, loc: string, e: Option<ID>, f: ID)
    requires UniqueLocators(eps) && f in eps && eps[f].locator == loc
    requires var now := GoneEndpoints(eps, gone);
             if e.Some? then e.value in now && now[e.value].locator == loc else forall f :: f in now ==> now[f].locator != loc
    ensures e == Some(f)
  {
    assert GoneEndpoints(eps, gone)[f].locator == loc;
  }

  lemma GoneAtChannel(eps: Endpoints, chs: Channels, gone: set<string>, loc: string, e: Option<ID>, eps': Endpoints, chs': Channels, c: ID)
    requires UniqueLocators(eps) && Marks(GoneEndpoints(eps, gone), GoneChannels(eps, chs, gone), loc, e, eps', chs')
    requires loc !in gone && c in chs
    ensures chs'.Keys == chs.Keys && chs'[c] == GoneChannels(eps, chs, gone + {loc})[c]
  {
    hide UniqueLocators;
    var now, f := GoneEndpoints(eps, gone), chs[c].endpoint;
    if f in eps {
      assert now[f].locator == eps[f].locator;
      if eps[f].locator == loc { OneAt(eps, gone, loc, e, f); }
    }
  }

  lemma GoneOneChannel(eps: Endpoints, chs: Channels, gone: set<string>, loc: string, e: Option<ID>, eps': Endpoints, chs': Channels)
    requires UniqueLocators(eps) && Marks(GoneEndpoints(eps, gone), GoneChannels(eps, chs, gone), loc, e, eps', chs')
    requires loc !in gone
    ensures chs' == GoneChannels(eps, chs, gone + {loc})
  {
    assert chs'.Keys == chs.Keys == GoneChannels(eps, chs, gone + {loc}).Keys;
    hide Marks, GoneChannels, GoneEndpoints, UniqueLocators;
    forall c | c in chs ensures chs'[c] == GoneChannels(eps, chs, gone + {loc})[c] {
      GoneAtChannel(eps, chs, gone, loc, e, eps', chs', c);
    }
  }

  lemma GoneOneDevice(eps: Endpoints, chs: Channels, devices: set<ID>, gone: set<string>, loc: string, e: Option<ID>,
                      eps': Endpoints, chs': Channels)
    requires UniqueLocators(eps) && Marks(GoneEndpoints(eps, gone), GoneChannels(eps, chs, gone), loc, e, eps', chs')
    requires loc !in gone
    ensures var lost := Loses(GoneEndpoints(eps, gone), devices, e);
            GoneDevices(eps, devices, gone + {loc}) == GoneDevices(eps, devices, gone) + if lost.Some? then {lost.value} else {}
  {
    hide GoneChannels, Lost;
    var now, all := GoneEndpoints(eps, gone), gone + {loc};
    var lost := Loses(now, devices, e);
    assert forall f :: f in eps ==> now[f].locator == eps[f].locator && now[f].device == eps[f].device;
    forall f | f in eps && eps[f].available && eps[f].locator in all && eps[f].device in devices
      ensures eps[f].device in GoneDevices(eps, devices, gone) || lost == Some(eps[f].device)
    {
      if eps[f].locator == loc { assert e == Some(f) && now[f] == eps[f]; }
    }
    if lost.Some? { assert now[e.value] == eps[e.value]; }
  }

  /** The removals of a refresh once these locators were gone through. */
  ghost predicate Removals(eps: Endpoints, chs: Channels, ds: map<ID, Device>, gone: set<string>,
                           eps': Endpoints, chs': Channels, ds': map<ID, Device>, removed: seq<ID>)
  {
    && eps' == GoneEndpoints(eps, gone) && chs' == GoneChannels(eps, chs, gone)
    && (forall d :: d in removed <==> d in GoneDevices(eps, ds.Keys, gone))
    && OfflineFor(ds, ds', removed)
  }

  lemma RemovalsStart(eps: Endpoints, chs: Channels, ds: map<ID, Device>)
    ensures Removals(eps, chs, ds, {}, eps, chs, ds, [])
  {
  }

  lemma RemovalsMore(eps: Endpoints, chs: Channels, ds: map<ID, Device>, gone: set<string>,
                     e1: Endpoints, c1: Channels, d1: map<ID, Device>, removed: seq<ID>,
                     loc: string, e: Option<ID>, e2: Endpoints, c2: Channels, d2: map<ID, Device>)
    requires UniqueLocators(eps) && Removals(eps, chs, ds, gone, e1, c1, d1, removed) && loc !in gone
    requires Marks(e1, c1, loc, e, e2, c2)
    requires var lost := Loses(e1, d1.Keys, e); d2 == if lost.Some? then d1[lost.value := d1[lost.value].(state := Offline)] else d1
    ensures var lost := Loses(e1, d1.Keys, e);
            Removals(eps, chs, ds, gone + {loc}, e2, c2, d2, removed + if lost.Some? then [lost.value] else [])
  {
    GoneOneEndpoint(eps, chs, gone, loc, e, e2, c2);
    GoneOneChannel(eps, chs, gone, loc, e, e2, c2);
    GoneOneDevice(eps, chs, ds.Keys, gone, loc, e, e2, c2);
    var lost := Loses(e1, d1.Keys, e);
    hide GoneEndpoints, GoneChannels, GoneDevices, Marks, Loses, UniqueLocators;
    if lost.Some? { OfflineMore(ds, d1, d2, removed, lost.value); }
  }

  lemma OneLess(all: set<string>, left: set<string>, kept: set<string>, loc: string)
    requires loc in left && left <= all && all !! kept
    ensures (left + kept) - {loc} == (left - {loc}) + kept
    ensures (all - left) + {loc} == all - (left - {loc}) && loc !in all - left
  {
  }

  lemma NotBeyond(eps: Endpoints, chs: Channels, locs: set<string>, more: set<string>)
    requires locs <= more
    ensures ReadyOnlyAt(eps, chs, locs) ==> ReadyOnlyAt(eps, chs, more)
  {
  }

  lemma CorrelatedStill(ds: map<ID, Device>, index: map<string, ID>, ds': map<ID, Device>, ds'': map<ID, Device>,
                        index': map<string, ID>, h: Hints, d: ID)
    requires Correlated(ds, index, ds', index', h, d) && DevicesKept(ds', ds'')
    ensures Correlated(ds, index, ds'', index', h, d)
  {
  }

  class Service {
    const reg: Registry
    var lastSeen: set<string>

    constructor (reg: Registry)
      ensures this.reg == reg && lastSeen == {}
    {
      this.reg := reg;
      lastSeen := {};
    }

    /** Every READY channel is on an available endpoint seen in the latest scan. */
    ghost predicate UpToDate()
      reads this, reg
    {
      ReadyAvailable(reg.endpoints, reg.channels) && ReadyOnlyAt(reg.endpoints, reg.channels, lastSeen)
    }

    /** correlate: the device with the hinted serial, or a new one. A serial claimed
        with another hardware ID is never merged: it gets a quarantined device of its
        own. */
    method Correlate(h: Hints) returns (id: ID)
      requires reg.Valid()
      modifies reg`devices, reg`bySerial, reg`minted
      ensures reg.Valid() && forall d :: d in old(reg.devices) ==> d in reg.devices && reg.devices[d] == old(reg.devices)[d]
      ensures Correlated(old(reg.devices), old(reg.bySerial), reg.devices, reg.bySerial, h, id)
      ensures var ds, index := old(reg.devices), old(reg.bySerial);
              && (id in ds <==>
                    && h.serial != "" && h.serial in index && index[h.serial] in ds && ds[index[h.serial]].state != Quarantined
                    && (ds[index[h.serial]].hardwareID == "" || h.hardwareID == "" || ds[index[h.serial]].hardwareID == h.hardwareID))
              && (id in ds ==> id == index[h.serial] && reg.devices == ds && reg.bySerial == index)
              && (id !in ds ==>
                    && reg.bySerial == (if h.serial != "" then index[h.serial := id] else index)
                    && reg.devices == ds[id := Device(h.serial, h.hardwareID, reg.devices[id].state, [])]
                    && reg.devices[id].state ==
                         if h.serial != "" && h.serial in index && index[h.serial] in ds && ds[index[h.serial]].state != Quarantined
                         then Quarantined else Online)
      ensures reg.devices[id].serial == h.serial
    {
      if h.serial != "" {
        var found := reg.DeviceBySerial(h.serial);
        if found.Some? && reg.devices[found.value].state != Quarantined {
          var d := reg.devices[found.value];
          if d.hardwareID != "" && h.hardwareID != "" && d.hardwareID != h.hardwareID {
            id := reg.NewID();
            reg.UpsertDevice(id, Device(h.serial, h.hardwareID, Quarantined, []));
            return;
          }
          return found.value;
        }
      }
      id := reg.NewID();
      reg.UpsertDevice(id, Device(h.serial, h.hardwareID, Online, []));
    }

    /** The endpoint of a locator, created on first sight, available and bound to the
        device. */
    method PlaceEndpoint(locator: string, device: ID) returns (id: ID)
      requires reg.Valid() && device in reg.devices
      modifies reg`endpoints, reg`devices, reg`minted
      ensures reg.Valid() && DevicesKept(old(reg.devices), reg.devices) && reg.devices.Keys == old(reg.devices.Keys)
      ensures id in reg.endpoints && reg.endpoints[id] == Endpoint(device, locator, true)
      ensures reg.endpoints == old(reg.endpoints)[id := reg.endpoints[id]]
      ensures id in old(reg.endpoints) ==> old(reg.endpoints)[id].locator == locator
      ensures id !in old(reg.endpoints) ==> id !in old(reg.minted)
      ensures id !in old(reg.endpoints) ==> forall f :: f in old(reg.endpoints) ==> old(reg.endpoints)[f].locator != locator
    {
      var known := reg.EndpointByLocator(locator);
      if known.None? {
        id := reg.NewID();
        reg.AddEndpoint(id, Endpoint(device, locator, true));
      } else {
        id := known.value;
        reg.endpoints := reg.endpoints[id := reg.endpoints[id].(available := true, device := device)];
      }
    }

    /** The plugin's channel on an endpoint, created on first use, after opening it:
        READY on success (the plugin contract), FAILED otherwise. */
    method OpenChannel(endpoint: ID, device: ID, v: Visit) returns (c: ID)
      requires reg.Valid() && endpoint in reg.endpoints
      modifies reg`channels, reg`minted
      ensures reg.Valid() && c in reg.channels && reg.channels == old(reg.channels)[c := reg.channels[c]]
      ensures reg.channels[c].endpoint == endpoint && reg.channels[c].plugin == v.plugin
      ensures reg.channels[c].state == if v.opens then Ready else Failed
      ensures c in old(reg.channels) ==> SameChannel(old(reg.channels)[c], reg.channels[c])
      ensures c !in old(reg.channels) ==> MadeFor(reg.channels[c], v, device)
    {
      var known := reg.FindChannel(endpoint, v.plugin);
      var ch: Channel;
      if known.None? {
        c := reg.NewID();
        ch := Channel(v.plugin, v.channelType, endpoint, device, Opening, false, v.cost, v.capabilities);
      } else {
        c, ch := known.value, reg.channels[known.value];
      }
      ch := if v.opens then ch.(state := Ready, healthy := true) else ch.(state := Failed, healthy := false);
      reg.AddChannel(c, ch);
    }

    /** The endpoint and the channel for a device. */
    method Settle(locator: string, device: ID, v: Visit, ghost seen: set<string>)
      requires reg.Valid() && locator in seen && device in reg.devices
      modifies reg`endpoints, reg`channels, reg`devices, reg`minted
      ensures reg.Valid() && DevicesKept(old(reg.devices), reg.devices) && reg.devices.Keys == old(reg.devices.Keys)
      ensures Advance(old(reg.endpoints), old(reg.channels), reg.endpoints, reg.channels, {locator}, seen)
      ensures Seated(reg.endpoints, reg.channels, locator, device, v.plugin, if v.opens then Ready else Failed)
      ensures forall c :: c in reg.channels && c !in old(reg.channels) ==> MadeFor(reg.channels[c], v, device)
      ensures HomesAfter(old(reg.endpoints), old(reg.channels), reg.endpoints, reg.channels, locator, device)
    {
      ghost var eps, chs := reg.endpoints, reg.channels;
      var e := PlaceEndpoint(locator, device);
      var c := OpenChannel(e, device, v);
      VisitAdvances(eps, chs, e, reg.endpoints[e], c, reg.channels[c], seen);
      VisitHomes(eps, chs, e, reg.endpoints[e], c, reg.channels[c]);
      hide Registry.Valid, Advance, HomesAfter, MadeFor, Grows, DevicesKept, LocatorsKept, OnlyAt, Placed, UniqueLocators;
    }

    /** A plugin that recognised the endpoint: identity, endpoint, channel. */
    method Visit(locator: string, v: Visit, ghost seen: set<string>) returns (device: ID)
      requires reg.Valid() && locator in seen && v.hints.Some?
      modifies reg
      ensures reg.Valid() && DevicesKept(old(reg.devices), reg.devices) && device in reg.devices
      ensures Advance(old(reg.endpoints), old(reg.channels), reg.endpoints, reg.channels, {locator}, seen)
      ensures Correlated(old(reg.devices), old(reg.bySerial), reg.devices, reg.bySerial, v.hints.value, device)
      ensures Seated(reg.endpoints, reg.channels, locator, device, v.plugin, if v.opens then Ready else Failed)
      ensures forall c :: c in reg.channels && c !in old(reg.channels) ==> MadeFor(reg.channels[c], v, device)
      ensures HomesAfter(old(reg.endpoints), old(reg.channels), reg.endpoints, reg.channels, locator, device)
      ensures Recognised(old(reg.devices), old(reg.bySerial), v.hints.value) ==>
                NoneAdded(old(reg.devices), old(reg.bySerial), reg.devices, reg.bySerial)
    {
      hide Registry.Valid, Advance, HomesAfter, MadeFor, Seated;
      ghost var ds, index := reg.devices, reg.bySerial;
      device := Correlate(v.hints.value);
      ghost var mid := reg.devices;
      Settle(locator, device, v, seen);
      CorrelatedStill(ds, index, mid, reg.devices, reg.bySerial, v.hints.value, device);
    }

    /** discoverEndpoint: ask the plugins in turn; the first that recognises the
        endpoint and opens a channel on it decides its device. */
    method DiscoverEndpoint(s: Sighting, ghost seen: set<string>) returns (found: Option<ID>)
      requires reg.Valid() && s.locator in seen
      modifies reg
      ensures reg.Valid() && DevicesKept(old(reg.devices), reg.devices)
      ensures Advance(old(reg.endpoints), old(reg.channels), reg.endpoints, reg.channels, {s.locator}, seen)
      ensures found.Some? <==> Opens(s)
      ensures found.Some? ==> found.value in reg.devices && Fits(reg.devices, found.value, s)
      ensures found.Some? ==> Served(reg.endpoints, reg.channels, reg.devices, s, [found.value])
      ensures AllRecognised(old(reg.devices), old(reg.bySerial), s.visits) ==>
                NoneAdded(old(reg.devices), old(reg.bySerial), reg.devices, reg.bySerial)
    {
      hide Winner, Identified, Recognised, Seated, MadeFor, Advance, DevicesKept, Registry.Valid;
      AdvanceRefl(reg.endpoints, reg.channels, {s.locator}, seen);
      DevicesKeptRefl(reg.devices);
      var i := 0;
      while i < |s.visits|
        invariant 0 <= i <= |s.visits| && forall j :: 0 <= j < i ==> !Succeeds(s.visits[j])
        invariant reg.Valid() && DevicesKept(old(reg.devices), reg.devices)
        invariant Advance(old(reg.endpoints), old(reg.channels), reg.endpoints, reg.channels, {s.locator}, seen)
        invariant AllRecognised(old(reg.devices), old(reg.bySerial), s.visits) ==>
                    NoneAdded(old(reg.devices), old(reg.bySerial), reg.devices, reg.bySerial)
      {
        var v := s.visits[i];
        i := i + 1;
        if v.hints.None? {
          continue;
        }
        ghost var eps, chs, devs := reg.endpoints, reg.channels, reg.devices;
        if AllRecognised(old(reg.devices), old(reg.bySerial), s.visits) {
          assert v in s.visits;
          StillRecognised(old(reg.devices), reg.devices, reg.bySerial, v.hints.value);
        }
        var device := Visit(s.locator, v, seen);
        AdvanceTrans(old(reg.endpoints), old(reg.channels), eps, chs, reg.endpoints, reg.channels, {s.locator}, {s.locator}, seen);
        DevicesKeptTrans(old(reg.devices), devs, reg.devices);
        if v.opens {
          WinnerIsFirst(s.visits, i - 1);
          assert device in [device];
          return Some(device);
        }
      }
      WinnerIsFirst(s.visits, i);
      found := None;
    }

    /** discoverEndpoints over a whole scan. */
    method DiscoverEndpoints(scan: seq<Sighting>, ghost seen: set<string>) returns (found: seq<ID>)
      requires reg.Valid() && Locators(scan) <= seen
      modifies reg
      ensures reg.Valid() && DevicesKept(old(reg.devices), reg.devices)
      ensures Advance(old(reg.endpoints), old(reg.channels), reg.endpoints, reg.channels, Locators(scan), seen)
      ensures forall d :: d in found ==> d in reg.devices
      ensures forall i, j :: 0 <= i < j < |found| ==> found[i] != found[j]
      ensures found == [] <==> forall s :: s in scan ==> !Opens(s)
      ensures Brought(reg.endpoints, reg.channels, reg.devices, scan, found)
      ensures ScanRecognised(old(reg.devices), old(reg.bySerial), scan) ==>
                NoneAdded(old(reg.devices), old(reg.bySerial), reg.devices, reg.bySerial)
    {
      hide Advance, DevicesKept, Registry.Valid, Brought, Served, Opens, Fits, AllRecognised;
      AdvanceRefl(reg.endpoints, reg.channels, Locators(scan), seen);
      BroughtNone(reg.endpoints, reg.channels, reg.devices);
      DevicesKeptRefl(reg.devices);
      found := [];
      var i := 0;
      while i < |scan|
        invariant 0 <= i <= |scan|
        invariant reg.Valid() && DevicesKept(old(reg.devices), reg.devices)
        invariant Advance(old(reg.endpoints), old(reg.channels), reg.endpoints, reg.channels, Locators(scan), seen)
        invariant forall d :: d in found ==> d in reg.devices
        invariant forall i, j :: 0 <= i < j < |found| ==> found[i] != found[j]
        invariant found == [] <==> forall j :: 0 <= j < i ==> !Opens(scan[j])
        invariant Brought(reg.endpoints, reg.channels, reg.devices, scan[..i], found)
        invariant ScanRecognised(old(reg.devices), old(reg.bySerial), scan) ==>
                    NoneAdded(old(reg.devices), old(reg.bySerial), reg.devices, reg.bySerial)
      {
        var s := scan[i];
        assert s in scan && s.locator in Locators(scan);
        ghost var eps, chs, devs, before := reg.endpoints, reg.channels, reg.devices, found;
        if ScanRecognised(old(reg.devices), old(reg.bySerial), scan) {
          AllStillRecognised(old(reg.devices), reg.devices, reg.bySerial, s.visits);
        }
        var d := DiscoverEndpoint(s, seen);
        DevicesKeptTrans(old(reg.devices), devs, reg.devices);
        AdvanceTrans(old(reg.endpoints), old(reg.channels), eps, chs, reg.endpoints, reg.channels, Locators(scan), {s.locator}, seen);
        if d.Some? && d.value !in found {
          found := found + [d.value];
        }
        if d.Some? { ServedAmong(reg.endpoints, reg.channels, reg.devices, s, d.value, found); }
        BroughtMore(eps, chs, devs, reg.endpoints, reg.channels, reg.devices, seen, scan[..i], s, before, found);
        i := i + 1;
        assert scan[..i] == scan[..i - 1] + [s];
      }
      assert scan[..i] == scan;
    }

    method ScanLocators(scan: seq<Sighting>) returns (locs: set<string>)
      ensures locs == Locators(scan)
    {
      locs := {};
      var i := 0;
      while i < |scan|
        invariant 0 <= i <= |scan| && locs == Locators(scan[..i])
      {
        assert scan[..i + 1] == scan[..i] + [scan[i]];
        locs := locs + {scan[i].locator};
        i := i + 1;
      }
      assert scan[..i] == scan;
    }

    /** Discover. It brings in what the scan reports, and records the scan without comparing
        it to the one before, so it leaves the registry up to date exactly when no READY
        channel sits at a locator that the scan no longer reports. */
    method Discover(scan: seq<Sighting>) returns (found: seq<ID>)
      requires reg.Valid()
      modifies this`lastSeen, reg
      ensures reg.Valid() && lastSeen == Locators(scan) && Grows(old(reg.channels), reg.channels)
      ensures DevicesKept(old(reg.devices), reg.devices)
      ensures old(UpToDate()) ==> (UpToDate() <==> ReadyOnlyAt(old(reg.endpoints), old(reg.channels), Locators(scan)))
      ensures OnlyAt(old(reg.endpoints), old(reg.channels), reg.endpoints, reg.channels, Locators(scan))
      ensures Brought(reg.endpoints, reg.channels, reg.devices, scan, found) && (forall d :: d in found ==> d in reg.devices)
      ensures found == [] <==> forall s :: s in scan ==> !Opens(s)
      ensures var ds, index := old(reg.devices), old(reg.bySerial);
              (forall s, v :: s in scan && v in s.visits && v.hints.Some? ==>
                 var h := v.hints.value;
                 && h.serial != "" && h.serial in index && index[h.serial] in ds && ds[index[h.serial]].state != Quarantined
                 && (ds[index[h.serial]].hardwareID == "" || h.hardwareID == "" || ds[index[h.serial]].hardwareID == h.hardwareID)) ==>
                reg.devices.Keys == ds.Keys && reg.bySerial == index
    {
      hide Registry.Valid, Grows, DevicesKept, Brought;
      lastSeen := ScanLocators(scan);
      ghost var eps, chs := reg.endpoints, reg.channels;
      found := DiscoverEndpoints(scan, Locators(scan));
      if c :| c in chs && chs[c].state == Ready && chs[c].endpoint in eps && eps[chs[c].endpoint].locator !in lastSeen {
        assert reg.channels[c] == chs[c] && reg.endpoints[chs[c].endpoint] == eps[chs[c].endpoint];
      }
    }

    /** The loop over the endpoint's channels. */
    static method Degrade(before: Channels, e: ID) returns (chs: Channels)
      ensures chs.Keys == before.Keys && forall c :: c in before ==> chs[c] == Lost(before[c], e)
      ensures forall c :: c in before ==>
                chs[c] == if before[c].endpoint == e && before[c].state in {Ready, Degraded} then before[c].(state := Degraded, healthy := false)
                          else before[c]
    {
      chs := before;
      var left := chs.Keys;
      while left != {}
        invariant left <= chs.Keys == before.Keys
        invariant forall c :: c in before ==> chs[c] == if c in left then before[c] else Lost(before[c], e)
        decreases |left|
      {
        var c :| c in left;
        left := left - {c};
        var ch := chs[c];
        if ch.endpoint == e && (ch.state == Ready || ch.state == Degraded) {
          chs := chs[c := ch.(state := Degraded, healthy := false)];
        }
      }
    }

    /** markUnavailable: the endpoint is gone, its usable channels degrade. */
    method MarkUnavailable(e: ID)
      requires reg.Valid() && e in reg.endpoints
      modifies reg`endpoints, reg`channels
      ensures reg.Valid() && reg.endpoints == old(reg.endpoints)[e := old(reg.endpoints)[e].(available := false)]
      ensures reg.channels.Keys == old(reg.channels).Keys
      ensures forall c :: c in reg.channels ==> reg.channels[c] == Lost(old(reg.channels)[c], e)
      ensures Grows(old(reg.channels), reg.channels)
    {
      UniqueExactly(reg.endpoints, e, reg.endpoints[e].(available := false));
      reg.endpoints := reg.endpoints[e := reg.endpoints[e].(available := false)];
      assert Placed(reg.channels, reg.endpoints);
      hide UniqueLocators, OneChannelPerSeat, Placed, Grows, SerialIndex;
      var chs := Degrade(reg.channels, e);
      LostKeeps(reg.channels, chs, reg.endpoints, e);
      reg.channels := chs;
    }

    /** One locator that is no longer seen. */
    method MarkLocator(loc: string, ghost locs: set<string>) returns (e: Option<ID>, gone: Option<ID>)
      requires reg.Valid()
      modifies reg`endpoints, reg`channels, reg`devices
      ensures reg.Valid() && Grows(old(reg.channels), reg.channels)
      ensures ReadyAvailable(old(reg.endpoints), old(reg.channels)) && ReadyOnlyAt(old(reg.endpoints), old(reg.channels), locs) ==>
                ReadyAvailable(reg.endpoints, reg.channels) && ReadyOnlyAt(reg.endpoints, reg.channels, locs - {loc})
      ensures Marks(old(reg.endpoints), old(reg.channels), loc, e, reg.endpoints, reg.channels)
      ensures gone == Loses(old(reg.endpoints), old(reg.devices).Keys, e)
      ensures reg.devices == if gone.None? then old(reg.devices)
                             else old(reg.devices)[gone.value := old(reg.devices)[gone.value].(state := Offline)]
    {
      gone := None;
      ghost var eps, chs := reg.endpoints, reg.channels;
      assert UniqueLocators(eps);
      hide Registry.Valid, UniqueLocators, ReadyAvailable, ReadyOnlyAt, SameChannel;
      e := reg.EndpointByLocator(loc);
      if e.Some? && reg.endpoints[e.value].available {
        MarkUnavailable(e.value);
        var d := reg.endpoints[e.value].device;
        if d in reg.devices {
          reg.SetDeviceState(d, Offline);
          gone := Some(d);
        }
      }
      if ReadyAvailable(eps, chs) && ReadyOnlyAt(eps, chs, locs) {
        LocatorGone(eps, chs, reg.endpoints, reg.channels, loc, e, locs);
      }
      GrowsRefl(chs);
    }

    /** Part of the way through the locators that were lost: left are still to come. */
    ghost predicate Marked(eps: Endpoints, chs: Channels, ds: map<ID, Device>, locs: set<string>, left: set<string>,
                           kept: set<string>, removed: seq<ID>)
      reads reg
    {
      && reg.Valid() && Grows(chs, reg.channels) && left <= locs && locs !! kept && UniqueLocators(eps)
      && (ReadyAvailable(eps, chs) && ReadyOnlyAt(eps, chs, locs + kept) ==>
            ReadyAvailable(reg.endpoints, reg.channels) && ReadyOnlyAt(reg.endpoints, reg.channels, left + kept))
      && Removals(eps, chs, ds, locs - left, reg.endpoints, reg.channels, reg.devices, removed)
    }

    method MarkNext(ghost eps: Endpoints, ghost chs: Channels, ghost ds: map<ID, Device>, ghost locs: set<string>, ghost left: set<string>,
                    ghost kept: set<string>, removed: seq<ID>, loc: string) returns (removed': seq<ID>)
      requires Marked(eps, chs, ds, locs, left, kept, removed) && loc in left
      modifies reg`endpoints, reg`channels, reg`devices
      ensures Marked(eps, chs, ds, locs, left - {loc}, kept, removed')
    {
      hide Registry.Valid, Removals, ReadyAvailable, ReadyOnlyAt, UniqueLocators, Grows, Marks, Loses;
      ghost var e1, c1, d1 := reg.endpoints, reg.channels, reg.devices;
      OneLess(locs, left, kept, loc);
      var e, d := MarkLocator(loc, left + kept);
      RemovalsMore(eps, chs, ds, locs - left, e1, c1, d1, removed, loc, e, reg.endpoints, reg.channels, reg.devices);
      removed' := removed + if d.Some? then [d.value] else [];
      GrowsTrans(chs, c1, reg.channels);
    }

    method MarkAll(locs: set<string>, ghost kept: set<string>) returns (removed: seq<ID>)
      requires reg.Valid() && locs !! kept
      modifies reg`endpoints, reg`channels, reg`devices
      ensures Marked(old(reg.endpoints), old(reg.channels), old(reg.devices), locs, {}, kept, removed)
    {
      ghost var eps, chs, ds := reg.endpoints, reg.channels, reg.devices;
      removed := [];
      var left := locs;
      RemovalsStart(eps, chs, ds);
      GrowsRefl(chs);
      assert locs - left == {};
      assert Marked(eps, chs, ds, locs, left, kept, removed);
      hide Marked, Registry.Valid;
      while left != {}
        invariant Marked(eps, chs, ds, locs, left, kept, removed)
        decreases |left|
      {
        var loc :| loc in left;
        removed := MarkNext(eps, chs, ds, locs, left, kept, removed, loc);
        left := left - {loc};
      }
    }

    /** Refresh's first half, the loop over the locators of the previous scan: exactly the
        endpoints there become unavailable, exactly their usable channels degrade, and
        exactly the devices that lost one go offline. */
    method MarkGone(current: set<string>) returns (removed: seq<ID>)
      requires reg.Valid()
      modifies reg`endpoints, reg`channels, reg`devices
      ensures reg.Valid() && Grows(old(reg.channels), reg.channels)
      ensures old(UpToDate()) ==> ReadyAvailable(reg.endpoints, reg.channels) && ReadyOnlyAt(reg.endpoints, reg.channels, current)
      ensures Removals(old(reg.endpoints), old(reg.channels), old(reg.devices), lastSeen - current,
                       reg.endpoints, reg.channels, reg.devices, removed)
    {
      ghost var kept, clean := lastSeen * current, UpToDate();
      removed := MarkAll(lastSeen - current, kept);
      assert (lastSeen - current) + kept == lastSeen && (lastSeen - current) - {} == lastSeen - current && {} + kept == kept;
      if clean { NotBeyond(reg.endpoints, reg.channels, kept, current); }
    }

    /** Refresh: what the last scan saw and this one does not becomes unavailable; then
        the scan is discovered. From an up-to-date registry it yields an up-to-date
        one, whatever the plugins answer. A device that was marked offline stays so,
        even when its endpoint is back. */
    method Refresh(scan: seq<Sighting>) returns (added: seq<ID>, removed: seq<ID>)
      requires reg.Valid()
      modifies this`lastSeen, reg
      ensures reg.Valid() && lastSeen == Locators(scan) && Grows(old(reg.channels), reg.channels)
      ensures old(UpToDate()) ==> UpToDate()
      ensures forall d :: d in old(reg.devices) ==>
                && d in reg.devices
                && (reg.devices[d].state == if d in removed then Offline else old(reg.devices)[d].state)
      ensures var eps, gone := old(reg.endpoints), old(lastSeen) - Locators(scan);
              && OnlyAt(GoneEndpoints(eps, gone), GoneChannels(eps, old(reg.channels), gone), reg.endpoints, reg.channels, Locators(scan))
              && (forall d :: d in removed <==> d in GoneDevices(eps, old(reg.devices).Keys, gone))
      ensures Brought(reg.endpoints, reg.channels, reg.devices, scan, added) && (forall d :: d in added ==> d in reg.devices)
      ensures added == [] <==> forall s :: s in scan ==> !Opens(s)
      ensures var ds, index := old(reg.devices), old(reg.bySerial);
              (forall s, v :: s in scan && v in s.visits && v.hints.Some? ==>
                 var h := v.hints.value;
                 && h.serial != "" && h.serial in index && index[h.serial] in ds && ds[index[h.serial]].state != Quarantined
                 && (ds[index[h.serial]].hardwareID == "" || h.hardwareID == "" || ds[index[h.serial]].hardwareID == h.hardwareID)) ==>
                reg.devices.Keys == ds.Keys && reg.bySerial == index
    {
      hide Registry.Valid, Brought, GoneEndpoints, GoneChannels, GoneDevices, Opens;
      var current := ScanLocators(scan);
      removed := MarkGone(current);
      OfflineRecognised(old(reg.devices), reg.devices, reg.bySerial, removed, scan);
      lastSeen := current;
      added := DiscoverEndpoints(scan, current);
    }
  }

  /** One Discover, then any number of Refreshes, with arbitrary scans and arbitrary
      plugin answers throughout: after each of them every READY channel is on an
      available endpoint that the latest scan reported, and every locator whose last
      sighting some plugin opened has one. */
  method Watch(reg: Registry, first: seq<Sighting>, scans: seq<seq<Sighting>>) returns (s: Service, found: seq<ID>)
    requires reg.Valid() && reg.channels == map[]
    modifies reg
    ensures fresh(s) && s.reg == reg && reg.Valid() && s.UpToDate()
    ensures var latest := if scans == [] then first else scans[|scans| - 1];
            s.lastSeen == Locators(latest) && Brought(reg.endpoints, reg.channels, reg.devices, latest, found)
  {
    hide Registry.Valid, Brought, OnlyAt;
    s := new Service(reg);
    found := s.Discover(first);
    var i := 0;
    while i < |scans|
      invariant 0 <= i <= |scans| && s.reg == reg && reg.Valid() && s.UpToDate()
      invariant var latest := if i == 0 then first else scans[i - 1];
                s.lastSeen == Locators(latest) && Brought(reg.endpoints, reg.channels, reg.devices, latest, found)
    {
      var removed;
      found, removed := s.Refresh(scans[i]);
      i := i + 1;
    }
  }
}

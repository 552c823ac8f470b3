/** ChannelImporter::GetDBTransports: match the scanned channels with the
    channels the database already holds for the video source, and collect
    the database channels the scan did not see. */
module DbMatch {
  import opened Util
  import opened Channels
  import opened Dedup

  /** ScanDTVTransport::FillFromDB(type, mplexid): whether loading worked,
      and the database multiplex with its channels. */
  type Loader = (TunerType, nat) -> (bool, Transport)

  /** Only the two database-link fields of `c` may differ in `d`. */
  predicate IdsOnly(c: Channel, d: Channel) {
    Unlinked(c) == Unlinked(d)
  }

  /** A channel with its database-link fields cleared. */
  function Unlinked(c: Channel): Channel {
    c.(dbMplexId := 0, channelId := 0)
  }

  /** Channel lists that differ only in the database-link fields. */
  predicate RelinkedOnly(cs: seq<Channel>, ds: seq<Channel>) {
    |ds| == |cs| && forall l :: 0 <= l < |cs| ==> IdsOnly(cs[l], ds[l])
  }

  /** Transport lists that differ only in the multiplex ids of the tunings
      and the database-link fields of the channels. */
  predicate SameShape(ts: seq<Transport>, us: seq<Transport>) {
    && |us| == |ts|
    && forall k :: 0 <= k < |ts| ==>
         && us[k].tuning.(mplex := ts[k].tuning.mplex) == ts[k].tuning
         && RelinkedOnly(ts[k].channels, us[k].channels)
  }

  /** Every scanned channel whose database-link fields changed from `ts`
      to `us` now carries one of the channel ids `ids`, and its multiplex
      id is the one it had or one of `mplexes`. */
  predicate LinkedFrom(ts: seq<Transport>, us: seq<Transport>, ids: set<nat>, mplexes: set<nat>) {
    forall k, l :: 0 <= k < |ts| && k < |us| && 0 <= l < |ts[k].channels| && l < |us[k].channels|
                   && us[k].channels[l] != ts[k].channels[l] ==>
      && us[k].channels[l].channelId in ids
      && (us[k].channels[l].dbMplexId == ts[k].channels[l].dbMplexId || us[k].channels[l].dbMplexId in mplexes)
  }

  /** The channel ids of every multiplex the loader returns for `mplexIds`. */
  function LoadedIds(load: Loader, tt: TunerType, mplexIds: seq<nat>): set<nat> {
    set i, c | 0 <= i < |mplexIds| && c in load(tt, mplexIds[i]).1.channels :: c.channelId
  }

  /** `e` is the multiplex `d` with a non-empty selection of its channels. */
  predicate PartOf(e: Transport, d: Transport) {
    && e.tuning == d.tuning
    && 0 < |e.channels| <= |d.channels|
    && forall c :: c in e.channels ==> c in d.channels
  }

  /** Every index in `s` is below n. */
  predicate Below(s: set<nat>, n: nat) {
    forall k :: k in s ==> k < n
  }

  /** The members of `s` below n. */
  function FoundBelow(s: set<nat>, n: nat): set<nat> {
    set k | k in s && k < n
  }

  /** The channel ids of a database multiplex. */
  function DbIds(dbChans: seq<Channel>): set<nat> {
    set k | 0 <= k < |dbChans| :: dbChans[k].channelId
  }

  /** Index of the first channel of `chs` that is the same channel as
      `dbChan` at the given relaxation level: the inner loop and its break. */
  function FirstSame(o: ScanOracles, level: nat, dbChan: Channel, chs: seq<Channel>, from: nat): (r: Option<nat>)
    requires from <= |chs|
    ensures r.Some? ==> from <= r.value < |chs| && o.sameChannel(dbChan, chs[r.value], level)
    ensures r.Some? ==> forall m :: from <= m < r.value ==> !o.sameChannel(dbChan, chs[m], level)
    ensures r.None? ==> forall m :: from <= m < |chs| ==> !o.sameChannel(dbChan, chs[m], level)
    decreases |chs| - from
  {
    if from == |chs| then None
    else if o.sameChannel(dbChan, chs[from], level) then Some(from)
    else FirstSame(o, level, dbChan, chs, from + 1)
  }

  /** The state of the search for one database multiplex: the scanned list
      as tagged so far, the indices of database channels found, whether some
      scanned transport is this multiplex, and the two found counters. */
  datatype Progress = Progress(ts: seq<Transport>, found: set<nat>, foundTransport: bool, same: nat, other: nat)

  /** Links the scanned channel at l to a database channel. */
  function Link(chs: seq<Channel>, l: nat, mplexId: nat, id: nat): (r: seq<Channel>)
    requires l < |chs|
    ensures RelinkedOnly(chs, r)
    ensures r[l].dbMplexId == mplexId && r[l].channelId == id
    ensures forall m :: 0 <= m < |chs| && m != l ==> r[m] == chs[m]
  {
    var c := chs[l].(dbMplexId := mplexId, channelId := id);
    assert Unlinked(c) == Unlinked(chs[l]);
    chs[l := c]
  }

  /** Tier 1 inside one scanned transport: each database channel not yet
      found takes the first same channel (relaxed level 2), which gets both
      the multiplex id and the channel id. */
  function Tier1Channels(o: ScanOracles, mplexId: nat, dbChans: seq<Channel>, jdc: nat,
                         found: set<nat>, chs: seq<Channel>, same: nat): (r: (set<nat>, seq<Channel>, nat))
    requires jdc <= |dbChans|
    requires Below(found, |dbChans|)
    ensures found <= r.0 && Below(r.0, |dbChans|)
    ensures r.2 + |found| == same + |r.0|
    ensures RelinkedOnly(chs, r.1)
    ensures forall l :: 0 <= l < |chs| && r.1[l] != chs[l] ==> r.1[l].dbMplexId == mplexId && r.1[l].channelId in DbIds(dbChans)
    ensures forall j :: j in r.0 && j !in found ==> jdc <= j
    ensures jdc < |dbChans| && jdc !in found ==> (jdc in r.0 <==> FirstSame(o, 2, dbChans[jdc], chs, 0).Some?)
    decreases |dbChans| - jdc
  {
    if jdc == |dbChans| then (found, chs, same)
    else if jdc in found then Tier1Channels(o, mplexId, dbChans, jdc + 1, found, chs, same)
    else
      match FirstSame(o, 2, dbChans[jdc], chs, 0)
      case None => Tier1Channels(o, mplexId, dbChans, jdc + 1, found, chs, same)
      case Some(l) =>
        assert dbChans[jdc].channelId in DbIds(dbChans);
        var tagged := Link(chs, l, mplexId, dbChans[jdc].channelId);
        Tier1Channels(o, mplexId, dbChans, jdc + 1, found + {jdc}, tagged, same + 1)
  }

  /** A scanned transport in the database multiplex's place. */
  predicate InScan(o: ScanOracles, tt: TunerType, tol: nat, ts: seq<Transport>, from: nat, db: Transport) {
    exists k :: from <= k < |ts| && o.isEqual(tt, ts[k].tuning, db.tuning, tol, true)
  }

  /** Tier 1 over the scanned transports from index s on: every scanned
      transport that is this multiplex (fuzzy comparison) takes its
      multiplex id and is searched. */
  function Tier1(o: ScanOracles, tt: TunerType, tol: nat, db: Transport, mplexId: nat,
                 s: nat, p: Progress): (r: Progress)
    requires s <= |p.ts|
    requires Below(p.found, |db.channels|)
    ensures p.found <= r.found && Below(r.found, |db.channels|)
    ensures r.other == p.other
    ensures r.same + |p.found| == p.same + |r.found|
    ensures r.foundTransport <==> p.foundTransport || InScan(o, tt, tol, p.ts, s, db)
    ensures !r.foundTransport ==> r == p
    ensures SameShape(p.ts, r.ts)
    ensures LinkedFrom(p.ts, r.ts, DbIds(db.channels), {mplexId})
    decreases |p.ts| - s
  {
    if s == |p.ts| then p
    else if !o.isEqual(tt, p.ts[s].tuning, db.tuning, tol, true) then
      var r := Tier1(o, tt, tol, db, mplexId, s + 1, p);
      assert InScan(o, tt, tol, p.ts, s, db) ==> InScan(o, tt, tol, p.ts, s + 1, db);
      r
    else
      var p' := Tier1Take(db, mplexId, s, Tier1Channels(o, mplexId, db.channels, 0, p.found, p.ts[s].channels, p.same), p);
      var r := Tier1(o, tt, tol, db, mplexId, s + 1, p');
      LinkedTransitive(p.ts, p'.ts, r.ts, DbIds(db.channels), {mplexId});
      SameShapeTransitive(p.ts, p'.ts, r.ts);
      r
  }

  /** Tier 1 in the scanned transport at s, which is this multiplex: it
      takes the multiplex id and the channels as `Tier1Channels` tagged
      them (`tagged`). */
  function Tier1Take(db: Transport, mplexId: nat, s: nat, tagged: (set<nat>, seq<Channel>, nat), p: Progress): (p': Progress)
    requires s < |p.ts|
    requires RelinkedOnly(p.ts[s].channels, tagged.1)
    requires forall l :: 0 <= l < |p.ts[s].channels| && tagged.1[l] != p.ts[s].channels[l] ==>
      tagged.1[l].dbMplexId == mplexId && tagged.1[l].channelId in DbIds(db.channels)
    ensures p'.found == tagged.0 && p'.same == tagged.2 && p'.other == p.other && p'.foundTransport
    ensures |p'.ts| == |p.ts| && p'.ts[s].channels == tagged.1
    ensures forall k :: 0 <= k < |p.ts| && k != s ==> p'.ts[k] == p.ts[k]
    ensures SameShape(p.ts, p'.ts)
    ensures LinkedFrom(p.ts, p'.ts, DbIds(db.channels), {mplexId})
  {
    var t := p.ts[s];
    var t' := Transport(t.tuning.(mplex := db.tuning.mplex), tagged.1);
    LinkedOne(p.ts, s, t', DbIds(db.channels), {mplexId});
    Progress(p.ts[s := t'], tagged.0, true, tagged.2, p.other)
  }

  /** Tier 2 for one database channel: the position of the first scanned
      channel that is the same channel (relaxed level 1), searching the
      scanned transports in order from jst on. */
  function Tier2Find(o: ScanOracles, dbChan: Channel, ts: seq<Transport>, jst: nat): (r: Option<(nat, nat)>)
    requires jst <= |ts|
    ensures r.Some? ==> jst <= r.value.0 < |ts| && r.value.1 < |ts[r.value.0].channels|
    ensures r.Some? ==> o.sameChannel(dbChan, ts[r.value.0].channels[r.value.1], 1)
    ensures r.None? ==> forall k, l :: jst <= k < |ts| && 0 <= l < |ts[k].channels| ==> !o.sameChannel(dbChan, ts[k].channels[l], 1)
    decreases |ts| - jst
  {
    if jst == |ts| then None
    else
      match FirstSame(o, 1, dbChan, ts[jst].channels, 0)
      case None => Tier2Find(o, dbChan, ts, jst + 1)
      case Some(l) => Some((jst, l))
  }

  /** Gives the channel at (k, l) the id of a database channel; its
      multiplex id and every other channel stay. */
  function SetChannelId(ts: seq<Transport>, k: nat, l: nat, id: nat): (r: seq<Transport>)
    requires k < |ts| && l < |ts[k].channels|
    ensures SameShape(ts, r)
    ensures forall j :: 0 <= j < |ts| ==> r[j].tuning == ts[j].tuning
    ensures r[k].channels[l] == ts[k].channels[l].(channelId := id)
    ensures LinkedFrom(ts, r, {id}, {})
    ensures forall j, m :: 0 <= j < |ts| && 0 <= m < |ts[j].channels| && (j != k || m != l) ==>
      r[j].channels[m] == ts[j].channels[m]
  {
    var chs := ts[k].channels;
    var chs' := chs[l := chs[l].(channelId := id)];
    RelinkAt(chs, l, id);
    RelinkOne(ts, k, chs');
    ts[k := ts[k].(channels := chs')]
  }

  /** Tier 2 (full channel search) for the database channels from idc on
      that tier 1 did not find. */
  function Tier2(o: ScanOracles, dbChans: seq<Channel>, idc: nat, p: Progress): (r: Progress)
    requires idc <= |dbChans|
    requires Below(p.found, |dbChans|)
    ensures p.found <= r.found && Below(r.found, |dbChans|)
    ensures r.same == p.same && r.foundTransport == p.foundTransport
    ensures r.other + |p.found| == p.other + |r.found|
    ensures SameShape(p.ts, r.ts)
    ensures forall k :: 0 <= k < |p.ts| ==> r.ts[k].tuning == p.ts[k].tuning
    ensures LinkedFrom(p.ts, r.ts, DbIds(dbChans), {})
    ensures forall j :: j in r.found && j !in p.found ==> idc <= j
    ensures idc < |dbChans| && idc !in p.found ==> (idc in r.found <==> Tier2Find(o, dbChans[idc], p.ts, 0).Some?)
    decreases |dbChans| - idc
  {
    if idc == |dbChans| then p
    else
      var p' := Tier2Visit(o, dbChans, idc, p);
      var r := Tier2(o, dbChans, idc + 1, p');
      Tier2Close(p.ts, p'.ts, r.ts, DbIds(dbChans));
      r
  }

  /** Tier 2 for database channel idc: skipped when tier 1 found it,
      otherwise the first level-1 same channel anywhere in the scan takes
      its channel id. */
  function Tier2Visit(o: ScanOracles, dbChans: seq<Channel>, idc: nat, p: Progress): (p': Progress)
    requires idc < |dbChans| && Below(p.found, |dbChans|)
    ensures Below(p'.found, |dbChans|)
    ensures forall j :: j != idc ==> (j in p'.found <==> j in p.found)
    ensures idc in p'.found <==> idc in p.found || Tier2Find(o, dbChans[idc], p.ts, 0).Some?
    ensures p'.other + |p.found| == p.other + |p'.found|
    ensures p'.same == p.same && p'.foundTransport == p.foundTransport
    ensures SameShape(p.ts, p'.ts)
    ensures forall k :: 0 <= k < |p.ts| ==> p'.ts[k].tuning == p.ts[k].tuning
    ensures LinkedFrom(p.ts, p'.ts, DbIds(dbChans), {})
  {
    if idc !in p.found && Tier2Find(o, dbChans[idc], p.ts, 0).Some? then Tier2Take(o, dbChans, idc, p)
    else
      assert SameShape(p.ts, p.ts) by {
        forall k | 0 <= k < |p.ts| ensures RelinkedOnly(p.ts[k].channels, p.ts[k].channels) {}
      }
      p
  }

  /** One database channel found by tier 2: the first level-1 same channel
      takes its channel id. */
  function Tier2Take(o: ScanOracles, dbChans: seq<Channel>, idc: nat, p: Progress): (p': Progress)
    requires idc < |dbChans| && Tier2Find(o, dbChans[idc], p.ts, 0).Some?
    ensures p'.found == p.found + {idc} && p'.other == p.other + 1
    ensures p'.same == p.same && p'.foundTransport == p.foundTransport
    ensures SameShape(p.ts, p'.ts)
    ensures forall k :: 0 <= k < |p.ts| ==> p'.ts[k].tuning == p.ts[k].tuning
    ensures LinkedFrom(p.ts, p'.ts, DbIds(dbChans), {})
  {
    var (k, l) := Tier2Find(o, dbChans[idc], p.ts, 0).value;
    var ts' := SetChannelId(p.ts, k, l, dbChans[idc].channelId);
    assert dbChans[idc].channelId in DbIds(dbChans);
    LinkedWeaken(p.ts, ts', {dbChans[idc].channelId}, {}, DbIds(dbChans), {});
    p.(ts := ts', found := p.found + {idc}, other := p.other + 1)
  }

  /** Two tier-2 steps in a row keep the tunings and link as one. */
  lemma Tier2Close(a: seq<Transport>, b: seq<Transport>, c: seq<Transport>, ids: set<nat>)
    requires SameShape(a, b) && SameShape(b, c)
    requires forall k :: 0 <= k < |a| ==> b[k].tuning == a[k].tuning
    requires forall k :: 0 <= k < |b| ==> c[k].tuning == b[k].tuning
    requires LinkedFrom(a, b, ids, {}) && LinkedFrom(b, c, ids, {})
    ensures SameShape(a, c)
    ensures forall k :: 0 <= k < |a| ==> c[k].tuning == a[k].tuning
    ensures LinkedFrom(a, c, ids, {})
  {
    LinkedTransitive(a, b, c, ids, {});
    SameShapeTransitive(a, b, c);
  }

  /** Giving one channel a new id relinks the list. */
  lemma RelinkAt(chs: seq<Channel>, l: nat, id: nat)
    requires l < |chs|
    ensures RelinkedOnly(chs, chs[l := chs[l].(channelId := id)])
  {
    var d := chs[l := chs[l].(channelId := id)];
    forall m | 0 <= m < |chs|
      ensures IdsOnly(chs[m], d[m])
    {
      if m == l {
        UnlinkedIgnoresId(chs[m], id);
      } else {
        assert d[m] == chs[m];
      }
    }
  }

  lemma UnlinkedIgnoresId(c: Channel, id: nat)
    ensures Unlinked(c.(channelId := id)) == Unlinked(c)
  {
  }

  /** Relinking the channels of one transport keeps the list's shape. */
  lemma RelinkOne(ts: seq<Transport>, k: nat, chs: seq<Channel>)
    requires k < |ts| && RelinkedOnly(ts[k].channels, chs)
    ensures SameShape(ts, ts[k := ts[k].(channels := chs)])
    ensures forall j :: 0 <= j < |ts| ==> ts[k := ts[k].(channels := chs)][j].tuning == ts[j].tuning
  {
    var r := ts[k := ts[k].(channels := chs)];
    forall j | 0 <= j < |ts|
      ensures r[j].tuning.(mplex := ts[j].tuning.mplex) == ts[j].tuning
      ensures RelinkedOnly(ts[j].channels, r[j].channels)
    {
      if j != k {
        assert r[j] == ts[j];
      }
    }
  }

  lemma SameShapeTransitive(a: seq<Transport>, b: seq<Transport>, c: seq<Transport>)
    requires SameShape(a, b) && SameShape(b, c)
    ensures SameShape(a, c)
  {
  }

  /** Replacing one transport whose changed channels are linked as stated. */
  lemma LinkedOne(ts: seq<Transport>, k: nat, u: Transport, ids: set<nat>, mplexes: set<nat>)
    requires k < |ts| && |u.channels| == |ts[k].channels|
    requires forall l :: 0 <= l < |u.channels| && u.channels[l] != ts[k].channels[l] ==>
      u.channels[l].channelId in ids && u.channels[l].dbMplexId in mplexes
    ensures LinkedFrom(ts, ts[k := u], ids, mplexes)
  {
  }

  lemma LinkedTransitive(a: seq<Transport>, b: seq<Transport>, c: seq<Transport>, ids: set<nat>, mplexes: set<nat>)
    requires SameShape(a, b)
    requires LinkedFrom(a, b, ids, mplexes) && LinkedFrom(b, c, ids, mplexes)
    ensures LinkedFrom(a, c, ids, mplexes)
  {
  }

  lemma LinkedWeaken(a: seq<Transport>, b: seq<Transport>, ids: set<nat>, mplexes: set<nat>,
                     ids': set<nat>, mplexes': set<nat>)
    requires ids <= ids' && mplexes <= mplexes'
    requires LinkedFrom(a, b, ids, mplexes)
    ensures LinkedFrom(a, b, ids', mplexes')
  {
  }

  /** The database channels whose index is below n and not found, in order. */
  function Unfound(dbChans: seq<Channel>, found: set<nat>, n: nat): seq<Channel>
    requires n <= |dbChans|
  {
    if n == 0 then []
    else Unfound(dbChans, found, n - 1) + (if n - 1 in found then [] else [dbChans[n - 1]])
  }

  /** The unfound list holds exactly the database channels below n whose
      index is not found. */
  lemma {:induction false} UnfoundMembers(dbChans: seq<Channel>, found: set<nat>, n: nat)
    requires n <= |dbChans|
    ensures forall k :: 0 <= k < n && k !in found ==> dbChans[k] in Unfound(dbChans, found, n)
    ensures forall c :: c in Unfound(dbChans, found, n) ==> exists k :: 0 <= k < n && k !in found && dbChans[k] == c
  {
    if n > 0 {
      UnfoundMembers(dbChans, found, n - 1);
    }
  }

  /** Every database channel below n is either found or unfound, never both. */
  lemma {:induction false} UnfoundCount(dbChans: seq<Channel>, found: set<nat>, n: nat)
    requires n <= |dbChans|
    ensures |Unfound(dbChans, found, n)| + |FoundBelow(found, n)| == n
  {
    if n > 0 {
      UnfoundCount(dbChans, found, n - 1);
      if n - 1 in found {
        assert FoundBelow(found, n) == FoundBelow(found, n - 1) + {n - 1};
      } else {
        assert FoundBelow(found, n) == FoundBelow(found, n - 1);
      }
    }
  }

  /** Every database channel is either found or unfound, never both. */
  lemma UnfoundCountAll(dbChans: seq<Channel>, found: set<nat>)
    requires Below(found, |dbChans|)
    ensures |Unfound(dbChans, found, |dbChans|)| + |found| == |dbChans|
  {
    UnfoundCount(dbChans, found, |dbChans|);
    assert FoundBelow(found, |dbChans|) == found;
  }

  /** The result of GetDBTransports: the tagged scan, the database
      multiplexes with their channels not in the scan, and the three
      diagnostic counters. */
  datatype MatchResult = MatchResult(
    transports: seq<Transport>, notInScan: seq<Transport>, sameCount: nat, otherCount: nat, nowhereCount: nat)

  /** Both tiers for one database multiplex: tier 2 only with the full
      search, and every database channel either found by one of them or
      unfound. */
  function Search(o: ScanOracles, fullSearch: bool, tt: TunerType, tol: nat, mplexId: nat, db: Transport,
                  ts: seq<Transport>): (p: Progress)
    ensures SameShape(ts, p.ts)
    ensures p.same + p.other == |p.found|
    ensures |Unfound(db.channels, p.found, |db.channels|)| + |p.found| == |db.channels|
    ensures !fullSearch ==> p.other == 0
    ensures p.foundTransport <==> InScan(o, tt, tol, ts, 0, db)
    ensures !p.foundTransport ==> p.same == 0
    ensures LinkedFrom(ts, p.ts, DbIds(db.channels), {mplexId})
  {
    var p0 := Progress(ts, {}, false, 0, 0);
    var p1 := Tier1(o, tt, tol, db, mplexId, 0, p0);
    var p2 := if fullSearch then Tier2(o, db.channels, 0, p1) else p1;
    LinkedWeaken(p1.ts, p2.ts, DbIds(db.channels), {}, DbIds(db.channels), {mplexId});
    LinkedTransitive(ts, p1.ts, p2.ts, DbIds(db.channels), {mplexId});
    SameShapeTransitive(ts, p1.ts, p2.ts);
    UnfoundCountAll(db.channels, p2.found);
    p2
  }

  /** Both tiers for one database multiplex, then the bookkeeping of what
      was not found. */
  function MatchMultiplex(o: ScanOracles, fullSearch: bool, tt: TunerType, tol: nat, mplexId: nat,
                          load: (bool, Transport), acc: MatchResult): (r: MatchResult)
    ensures SameShape(acc.transports, r.transports)
    ensures load.0 && |load.1.channels| == 0 ==> r == acc
    ensures !fullSearch ==> r.otherCount == acc.otherCount
    ensures r.sameCount >= acc.sameCount && r.otherCount >= acc.otherCount && r.nowhereCount >= acc.nowhereCount
    ensures acc.notInScan <= r.notInScan && |r.notInScan| <= |acc.notInScan| + 1
    ensures !InScan(o, tt, tol, acc.transports, 0, load.1) ==>
      && r.sameCount == acc.sameCount && r.nowhereCount == acc.nowhereCount && r.notInScan == acc.notInScan
      && r.otherCount <= acc.otherCount + |load.1.channels|
    ensures !(load.0 && |load.1.channels| == 0) && InScan(o, tt, tol, acc.transports, 0, load.1) ==>
      (r.sameCount - acc.sameCount) + (r.otherCount - acc.otherCount) + (r.nowhereCount - acc.nowhereCount)
      == |load.1.channels|
    ensures !(load.0 && |load.1.channels| == 0) ==>
      var unfound := Unfound(load.1.channels, Search(o, fullSearch, tt, tol, mplexId, load.1, acc.transports).found,
                             |load.1.channels|);
      r.notInScan == acc.notInScan +
        (if InScan(o, tt, tol, acc.transports, 0, load.1) && |unfound| > 0 then [load.1.(channels := unfound)] else [])
    ensures |r.notInScan| > |acc.notInScan| ==> PartOf(r.notInScan[|acc.notInScan|], load.1)
    ensures r.nowhereCount + |Flat(acc.notInScan)| == acc.nowhereCount + |Flat(r.notInScan)|
    ensures LinkedFrom(acc.transports, r.transports, DbIds(load.1.channels), {mplexId})
  {
    var (loaded, db) := load;
    if loaded && |db.channels| == 0 then acc
    else Record(acc, db, Search(o, fullSearch, tt, tol, mplexId, db, acc.transports))
  }

  /** The bookkeeping after searching database multiplex `db`: the counters
      grow by the search's, and when the multiplex was in the scan its
      unfound channels are not in the scan. */
  function Record(acc: MatchResult, db: Transport, p: Progress): (r: MatchResult)
    requires Below(p.found, |db.channels|)
    ensures r.transports == p.ts
    ensures r.sameCount == acc.sameCount + p.same && r.otherCount == acc.otherCount + p.other
    ensures var unfound := Unfound(db.channels, p.found, |db.channels|);
      && r.notInScan == acc.notInScan + (if p.foundTransport && |unfound| > 0 then [db.(channels := unfound)] else [])
      && r.nowhereCount == acc.nowhereCount + (if p.foundTransport then |unfound| else 0)
    ensures |r.notInScan| > |acc.notInScan| ==> PartOf(r.notInScan[|acc.notInScan|], db)
    ensures r.nowhereCount + |Flat(acc.notInScan)| == acc.nowhereCount + |Flat(r.notInScan)|
  {
    var unfound := Unfound(db.channels, p.found, |db.channels|);
    FlatPush(acc.notInScan, db.(channels := unfound));
    UnfoundMembers(db.channels, p.found, |db.channels|);
    UnfoundCountAll(db.channels, p.found);
    if p.foundTransport then
      var notInScan := if |unfound| > 0 then acc.notInScan + [db.(channels := unfound)] else acc.notInScan;
      MatchResult(p.ts, notInScan, acc.sameCount + p.same, acc.otherCount + p.other, acc.nowhereCount + |unfound|)
    else
      MatchResult(p.ts, acc.notInScan, acc.sameCount + p.same, acc.otherCount + p.other, acc.nowhereCount)
  }

  /** The loop over the database multiplexes of the source, from index m on. */
  function MatchAll(o: ScanOracles, fullSearch: bool, tt: TunerType, tol: nat, load: Loader,
                    mplexIds: seq<nat>, m: nat, acc: MatchResult): (r: MatchResult)
    requires m <= |mplexIds|
    ensures SameShape(acc.transports, r.transports)
    ensures !fullSearch ==> r.otherCount == acc.otherCount
    ensures acc.notInScan <= r.notInScan && |r.notInScan| - |acc.notInScan| <= |mplexIds| - m
    ensures FromLoaded(r.notInScan, |acc.notInScan|, load, tt, mplexIds, m)
    ensures r.nowhereCount + |Flat(acc.notInScan)| == acc.nowhereCount + |Flat(r.notInScan)|
    ensures LinkedFrom(acc.transports, r.transports, LoadedIds(load, tt, mplexIds), set x | x in mplexIds)
    decreases |mplexIds| - m
  {
    if m == |mplexIds| then acc
    else
      var acc' := MatchMultiplex(o, fullSearch, tt, tol, mplexIds[m], load(tt, mplexIds[m]), acc);
      var r := MatchAll(o, fullSearch, tt, tol, load, mplexIds, m + 1, acc');
      SameShapeTransitive(acc.transports, acc'.transports, r.transports);
      FromLoadedStep(acc.notInScan, acc'.notInScan, r.notInScan, load, tt, mplexIds, m);
      DbIdsLoaded(load, tt, mplexIds, m);
      LinkedWeaken(acc.transports, acc'.transports, DbIds(load(tt, mplexIds[m]).1.channels), {mplexIds[m]},
                   LoadedIds(load, tt, mplexIds), set x | x in mplexIds);
      LinkedTransitive(acc.transports, acc'.transports, r.transports, LoadedIds(load, tt, mplexIds), set x | x in mplexIds);
      r
  }

  /** `e` is part of the multiplex loaded for one of the ids from index m on. */
  predicate PartOfLoaded(e: Transport, load: Loader, tt: TunerType, mplexIds: seq<nat>, m: nat) {
    exists j :: m <= j < |mplexIds| && PartOf(e, load(tt, mplexIds[j]).1)
  }

  /** Every entry of `es` from index `from` on is part of a loaded multiplex
      from index m on. */
  predicate FromLoaded(es: seq<Transport>, from: nat, load: Loader, tt: TunerType, mplexIds: seq<nat>, m: nat) {
    forall i :: from <= i < |es| ==> PartOfLoaded(es[i], load, tt, mplexIds, m)
  }

  lemma FromLoadedStep(a: seq<Transport>, b: seq<Transport>, c: seq<Transport>, load: Loader, tt: TunerType,
                       mplexIds: seq<nat>, m: nat)
    requires m < |mplexIds|
    requires a <= b && |b| <= |a| + 1 && b <= c
    requires |b| > |a| ==> PartOf(b[|a|], load(tt, mplexIds[m]).1)
    requires FromLoaded(c, |b|, load, tt, mplexIds, m + 1)
    ensures FromLoaded(c, |a|, load, tt, mplexIds, m)
  {
    forall i | |a| <= i < |c|
      ensures PartOfLoaded(c[i], load, tt, mplexIds, m)
    {
      if i < |b| {
        assert c[i] == b[|a|];
        assert PartOf(c[i], load(tt, mplexIds[m]).1);
      } else {
        assert PartOfLoaded(c[i], load, tt, mplexIds, m + 1);
      }
    }
  }

  /** The ids of one loaded multiplex are among the ids of all of them. */
  lemma DbIdsLoaded(load: Loader, tt: TunerType, mplexIds: seq<nat>, m: nat)
    requires m < |mplexIds|
    ensures DbIds(load(tt, mplexIds[m]).1.channels) <= LoadedIds(load, tt, mplexIds)
  {
    var chs := load(tt, mplexIds[m]).1.channels;
    forall k | 0 <= k < |chs|
      ensures chs[k].channelId in LoadedIds(load, tt, mplexIds)
    {
      assert chs[k] in load(tt, mplexIds[m]).1.channels;
    }
  }

  /** ChannelImporter::GetDBTransports. `mplexIds` is the result of the
      multiplex query for the source, None when the query failed. The scan
      keeps its shape: only the database-link fields of its channels and the
      multiplex ids of its transports change. */
  function GetDBTransports(o: ScanOracles, fullSearch: bool, load: Loader, mplexIds: Option<seq<nat>>,
                           ts: seq<Transport>): (r: MatchResult)
    ensures SameShape(ts, r.transports)
    ensures mplexIds.None? ==> r == MatchResult(ts, [], 0, 0, 0)
    ensures !fullSearch ==> r.otherCount == 0
    ensures mplexIds.Some? ==> |r.notInScan| <= |mplexIds.value|
    ensures mplexIds.Some? ==> FromLoaded(r.notInScan, 0, load, ScanTunerType(ts), mplexIds.value, 0)
    ensures r.nowhereCount == |Flat(r.notInScan)|
    ensures mplexIds.Some? ==>
      LinkedFrom(ts, r.transports, LoadedIds(load, ScanTunerType(ts), mplexIds.value), set x | x in mplexIds.value)
  {
    var tt := ScanTunerType(ts);
    match mplexIds
    case None => MatchResult(ts, [], 0, 0, 0)
    case Some(ids) => MatchAll(o, fullSearch, tt, FrequencyTolerance(tt), load, ids, 0, MatchResult(ts, [], 0, 0, 0))
  }

  // Which database channels are found. ChannelInsertInfo::IsSameChannel and
  // DTVMultiplex::IsEqual are not part of this model; what follows assumes
  // only that they do not read the two database-link fields of a channel or
  // the multiplex id of a tuning, the fields the search itself writes.

  /** The oracles do not look at what the search writes: each answers for
      a channel as for the channel without its database links, and for a
      tuning as for the tuning without its multiplex id. */
  ghost predicate LinkBlind(o: ScanOracles) {
    && (forall d, c, level {:trigger o.sameChannel(d, Unlinked(c), level)} ::
          o.sameChannel(d, c, level) == o.sameChannel(d, Unlinked(c), level))
    && (forall tt, a, db, tol, fuzzy {:trigger o.isEqual(tt, Untuned(a), db, tol, fuzzy)} ::
          o.isEqual(tt, a, db, tol, fuzzy) == o.isEqual(tt, Untuned(a), db, tol, fuzzy))
  }

  /** A tuning with its multiplex id cleared. */
  function Untuned(a: Tuning): Tuning {
    a.(mplex := 0)
  }

  /** Some channel of `chs` is the same channel as `d` at the level. */
  predicate SameIn(o: ScanOracles, level: nat, d: Channel, chs: seq<Channel>) {
    exists l :: 0 <= l < |chs| && o.sameChannel(d, chs[l], level)
  }

  /** Tier 1's condition: a scanned transport from s on is the database
      multiplex and holds a level-2 same channel of `d`. */
  predicate SameInPlace(o: ScanOracles, tt: TunerType, tol: nat, db: Transport, d: Channel, ts: seq<Transport>, s: nat) {
    exists k :: s <= k < |ts| && o.isEqual(tt, ts[k].tuning, db.tuning, tol, true) && SameIn(o, 2, d, ts[k].channels)
  }

  /** Tier 2's condition: some scanned transport holds a level-1 same
      channel of `d`. */
  predicate SameAnywhere(o: ScanOracles, d: Channel, ts: seq<Transport>) {
    exists k :: 0 <= k < |ts| && SameIn(o, 1, d, ts[k].channels)
  }

  /** The database channel `d` of multiplex `db` is matched against the scan. */
  predicate Matched(o: ScanOracles, fullSearch: bool, tt: TunerType, tol: nat, db: Transport, d: Channel,
                    ts: seq<Transport>) {
    SameInPlace(o, tt, tol, db, d, ts, 0) || (fullSearch && SameAnywhere(o, d, ts))
  }

  /** The channels of `db` below n that are not matched, in order. */
  function NotMatched(o: ScanOracles, fullSearch: bool, tt: TunerType, tol: nat, db: Transport,
                      ts: seq<Transport>, n: nat): seq<Channel>
    requires n <= |db.channels|
  {
    if n == 0 then []
    else NotMatched(o, fullSearch, tt, tol, db, ts, n - 1)
         + (if Matched(o, fullSearch, tt, tol, db, db.channels[n - 1], ts) then [] else [db.channels[n - 1]])
  }

  lemma {:induction false} FirstSameBlind(o: ScanOracles, level: nat, d: Channel, chs: seq<Channel>,
                                          ds: seq<Channel>, from: nat)
    requires LinkBlind(o) && RelinkedOnly(chs, ds) && from <= |chs|
    ensures FirstSame(o, level, d, chs, from) == FirstSame(o, level, d, ds, from)
    decreases |chs| - from
  {
    if from < |chs| {
      SameBlind(o, level, d, chs[from], ds[from]);
      FirstSameBlind(o, level, d, chs, ds, from + 1);
    }
  }

  lemma SameBlind(o: ScanOracles, level: nat, d: Channel, c: Channel, e: Channel)
    requires LinkBlind(o) && IdsOnly(c, e)
    ensures o.sameChannel(d, c, level) == o.sameChannel(d, e, level)
  {
    assert o.sameChannel(d, Unlinked(c), level) == o.sameChannel(d, Unlinked(e), level);
  }

  lemma FirstSameIn(o: ScanOracles, level: nat, d: Channel, chs: seq<Channel>)
    ensures FirstSame(o, level, d, chs, 0).Some? <==> SameIn(o, level, d, chs)
  {
    var r := FirstSame(o, level, d, chs, 0);
    if r.Some? {
      assert o.sameChannel(d, chs[r.value], level);
    }
  }

  lemma {:induction false} Tier2FindAlike(o: ScanOracles, d: Channel, ts: seq<Transport>, us: seq<Transport>, jst: nat)
    requires |us| == |ts| && jst <= |ts|
    requires forall k :: jst <= k < |ts| ==> FirstSame(o, 1, d, ts[k].channels, 0) == FirstSame(o, 1, d, us[k].channels, 0)
    ensures Tier2Find(o, d, ts, jst) == Tier2Find(o, d, us, jst)
    decreases |ts| - jst
  {
    if jst < |ts| {
      Tier2FindAlike(o, d, ts, us, jst + 1);
    }
  }

  lemma Tier2FindBlind(o: ScanOracles, d: Channel, ts: seq<Transport>, us: seq<Transport>)
    requires LinkBlind(o) && SameShape(ts, us)
    ensures Tier2Find(o, d, ts, 0) == Tier2Find(o, d, us, 0)
  {
    forall k | 0 <= k < |ts|
      ensures FirstSame(o, 1, d, ts[k].channels, 0) == FirstSame(o, 1, d, us[k].channels, 0)
    {
      FirstSameBlind(o, 1, d, ts[k].channels, us[k].channels, 0);
    }
    Tier2FindAlike(o, d, ts, us, 0);
  }

  lemma Tier2FindAnywhere(o: ScanOracles, d: Channel, ts: seq<Transport>)
    ensures Tier2Find(o, d, ts, 0).Some? <==> SameAnywhere(o, d, ts)
  {
    var r := Tier2Find(o, d, ts, 0);
    if r.Some? {
      var (k, l) := r.value;
      assert o.sameChannel(d, ts[k].channels[l], 1);
      assert SameIn(o, 1, d, ts[k].channels);
    }
  }

  lemma SameInBlind(o: ScanOracles, level: nat, d: Channel, chs: seq<Channel>, ds: seq<Channel>)
    requires LinkBlind(o) && RelinkedOnly(chs, ds)
    ensures SameIn(o, level, d, chs) == SameIn(o, level, d, ds)
  {
    FirstSameBlind(o, level, d, chs, ds, 0);
    FirstSameIn(o, level, d, chs);
    FirstSameIn(o, level, d, ds);
  }

  lemma SameAnywhereBlind(o: ScanOracles, d: Channel, ts: seq<Transport>, us: seq<Transport>)
    requires LinkBlind(o) && SameShape(ts, us)
    ensures SameAnywhere(o, d, ts) == SameAnywhere(o, d, us)
  {
    Tier2FindBlind(o, d, ts, us);
    Tier2FindAnywhere(o, d, ts);
    Tier2FindAnywhere(o, d, us);
  }

  /** `r0` is `found` with every database channel from jdc on that has a
      level-2 same channel in `chs`. */
  ghost predicate FoundFrom(o: ScanOracles, dbChans: seq<Channel>, jdc: nat, found: set<nat>, chs: seq<Channel>,
                      r0: set<nat>) {
    forall j :: j in r0 <==> j in found || (jdc <= j < |dbChans| && FirstSame(o, 2, dbChans[j], chs, 0).Some?)
  }

  lemma FoundSkip(o: ScanOracles, dbChans: seq<Channel>, jdc: nat, found: set<nat>, chs: seq<Channel>, r0: set<nat>)
    requires jdc < |dbChans| && (jdc in found || FirstSame(o, 2, dbChans[jdc], chs, 0).None?)
    requires FoundFrom(o, dbChans, jdc + 1, found, chs, r0)
    ensures FoundFrom(o, dbChans, jdc, found, chs, r0)
  {
  }

  lemma FoundTake(o: ScanOracles, dbChans: seq<Channel>, jdc: nat, found: set<nat>, chs: seq<Channel>,
                  tagged: seq<Channel>, r0: set<nat>)
    requires jdc < |dbChans| && jdc !in found && FirstSame(o, 2, dbChans[jdc], chs, 0).Some?
    requires forall j :: 0 <= j < |dbChans| ==> FirstSame(o, 2, dbChans[j], tagged, 0) == FirstSame(o, 2, dbChans[j], chs, 0)
    requires FoundFrom(o, dbChans, jdc + 1, found + {jdc}, tagged, r0)
    ensures FoundFrom(o, dbChans, jdc, found, chs, r0)
  {
  }

  /** Linking one scanned channel changes no first same channel. */
  lemma LinkKeepsFirst(o: ScanOracles, dbChans: seq<Channel>, chs: seq<Channel>, tagged: seq<Channel>)
    requires LinkBlind(o) && RelinkedOnly(chs, tagged)
    ensures forall j :: 0 <= j < |dbChans| ==> FirstSame(o, 2, dbChans[j], tagged, 0) == FirstSame(o, 2, dbChans[j], chs, 0)
  {
    forall j | 0 <= j < |dbChans|
      ensures FirstSame(o, 2, dbChans[j], tagged, 0) == FirstSame(o, 2, dbChans[j], chs, 0)
    {
      FirstSameBlind(o, 2, dbChans[j], chs, tagged, 0);
    }
  }

  /** Tier 1 inside one scanned transport finds exactly the database
      channels from jdc on that have a level-2 same channel in it. */
  lemma {:induction false} Tier1ChannelsFound(o: ScanOracles, mplexId: nat, dbChans: seq<Channel>, jdc: nat,
                                              found: set<nat>, chs: seq<Channel>, same: nat)
    requires LinkBlind(o)
    requires jdc <= |dbChans| && Below(found, |dbChans|)
    ensures FoundFrom(o, dbChans, jdc, found, chs, Tier1Channels(o, mplexId, dbChans, jdc, found, chs, same).0)
    decreases |dbChans| - jdc
  {
    if jdc < |dbChans| {
      Tier1ChannelsUnfold(o, mplexId, dbChans, jdc, found, chs, same);
      if jdc in found || FirstSame(o, 2, dbChans[jdc], chs, 0).None? {
        var r := Tier1Channels(o, mplexId, dbChans, jdc + 1, found, chs, same);
        Tier1ChannelsFound(o, mplexId, dbChans, jdc + 1, found, chs, same);
        FoundSkip(o, dbChans, jdc, found, chs, r.0);
      } else {
        var l := FirstSame(o, 2, dbChans[jdc], chs, 0).value;
        var tagged := Link(chs, l, mplexId, dbChans[jdc].channelId);
        var r := Tier1Channels(o, mplexId, dbChans, jdc + 1, found + {jdc}, tagged, same + 1);
        Tier1ChannelsFound(o, mplexId, dbChans, jdc + 1, found + {jdc}, tagged, same + 1);
        LinkKeepsFirst(o, dbChans, chs, tagged);
        FoundTake(o, dbChans, jdc, found, chs, tagged, r.0);
      }
    }
  }

  /** One step of tier 1 inside a scanned transport. */
  lemma Tier1ChannelsUnfold(o: ScanOracles, mplexId: nat, dbChans: seq<Channel>, jdc: nat,
                            found: set<nat>, chs: seq<Channel>, same: nat)
    requires jdc < |dbChans| && Below(found, |dbChans|)
    ensures Tier1Channels(o, mplexId, dbChans, jdc, found, chs, same) ==
      if jdc in found || FirstSame(o, 2, dbChans[jdc], chs, 0).None? then
        Tier1Channels(o, mplexId, dbChans, jdc + 1, found, chs, same)
      else
        Tier1Channels(o, mplexId, dbChans, jdc + 1, found + {jdc},
                      Link(chs, FirstSame(o, 2, dbChans[jdc], chs, 0).value, mplexId, dbChans[jdc].channelId), same + 1)
  {
  }

  /** `found` is `p.found` with every database channel that tier 1 finds
      in the scanned transports from s on. */
  ghost predicate Tier1FoundFrom(o: ScanOracles, tt: TunerType, tol: nat, db: Transport, s: nat, p: Progress,
                                 found: set<nat>) {
    forall j: nat :: j in found <==>
      j in p.found || (j < |db.channels| && SameInPlace(o, tt, tol, db, db.channels[j], p.ts, s))
  }

  /** Tier 1 over the scanned transports from s on finds exactly the
      database channels that have a level-2 same channel in a scanned
      transport from s on that is this multiplex. */
  lemma {:induction false} Tier1Found(o: ScanOracles, tt: TunerType, tol: nat, db: Transport, mplexId: nat,
                                      s: nat, p: Progress)
    requires LinkBlind(o)
    requires s <= |p.ts| && Below(p.found, |db.channels|)
    ensures Tier1FoundFrom(o, tt, tol, db, s, p, Tier1(o, tt, tol, db, mplexId, s, p).found)
    decreases |p.ts| - s, 1
  {
    if s < |p.ts| {
      if !o.isEqual(tt, p.ts[s].tuning, db.tuning, tol, true) {
        var r := Tier1(o, tt, tol, db, mplexId, s, p);
        Tier1Unfold(o, tt, tol, db, mplexId, s, p);
        Tier1Found(o, tt, tol, db, mplexId, s + 1, p);
        Tier1Skip(o, tt, tol, db, s, p, r.found);
      } else {
        Tier1FoundTake(o, tt, tol, db, mplexId, s, p);
      }
    }
  }

  /** One step of tier 1. */
  lemma Tier1Unfold(o: ScanOracles, tt: TunerType, tol: nat, db: Transport, mplexId: nat, s: nat, p: Progress)
    requires s < |p.ts| && Below(p.found, |db.channels|)
    ensures Tier1(o, tt, tol, db, mplexId, s, p) ==
      if !o.isEqual(tt, p.ts[s].tuning, db.tuning, tol, true) then Tier1(o, tt, tol, db, mplexId, s + 1, p)
      else Tier1(o, tt, tol, db, mplexId, s + 1,
                 Tier1Take(db, mplexId, s, Tier1Channels(o, mplexId, db.channels, 0, p.found, p.ts[s].channels, p.same), p))
  {
  }

  /** Tier1Found for a scanned transport that is this multiplex. */
  lemma {:induction false} Tier1FoundTake(o: ScanOracles, tt: TunerType, tol: nat, db: Transport, mplexId: nat,
                                          s: nat, p: Progress)
    requires LinkBlind(o)
    requires s < |p.ts| && Below(p.found, |db.channels|) && o.isEqual(tt, p.ts[s].tuning, db.tuning, tol, true)
    ensures Tier1FoundFrom(o, tt, tol, db, s, p, Tier1(o, tt, tol, db, mplexId, s, p).found)
    decreases |p.ts| - s, 0
  {
    var r := Tier1(o, tt, tol, db, mplexId, s, p);
    var p' := Tier1Take(db, mplexId, s, Tier1Channels(o, mplexId, db.channels, 0, p.found, p.ts[s].channels, p.same), p);
    Tier1Unfold(o, tt, tol, db, mplexId, s, p);
    Tier1ChannelsFound(o, mplexId, db.channels, 0, p.found, p.ts[s].channels, p.same);
    Tier1Found(o, tt, tol, db, mplexId, s + 1, p');
    Tier1Join(o, tt, tol, db, s, p, p', r);
  }

  /** Tier 1's condition skips a transport that is not this multiplex. */
  lemma SameInPlaceSkip(o: ScanOracles, tt: TunerType, tol: nat, db: Transport, d: Channel, s: nat, ts: seq<Transport>)
    requires s < |ts| && !o.isEqual(tt, ts[s].tuning, db.tuning, tol, true)
    ensures SameInPlace(o, tt, tol, db, d, ts, s) == SameInPlace(o, tt, tol, db, d, ts, s + 1)
  {
    if SameInPlace(o, tt, tol, db, d, ts, s) {
      var k :| s <= k < |ts| && o.isEqual(tt, ts[k].tuning, db.tuning, tol, true) && SameIn(o, 2, d, ts[k].channels);
      assert k != s;
    }
  }

  /** A scanned transport that is not this multiplex adds nothing. */
  lemma Tier1Skip(o: ScanOracles, tt: TunerType, tol: nat, db: Transport, s: nat, p: Progress, found: set<nat>)
    requires s < |p.ts| && !o.isEqual(tt, p.ts[s].tuning, db.tuning, tol, true)
    requires Tier1FoundFrom(o, tt, tol, db, s + 1, p, found)
    ensures Tier1FoundFrom(o, tt, tol, db, s, p, found)
  {
    forall j | 0 <= j < |db.channels|
      ensures SameInPlace(o, tt, tol, db, db.channels[j], p.ts, s)
              == SameInPlace(o, tt, tol, db, db.channels[j], p.ts, s + 1)
    {
      SameInPlaceSkip(o, tt, tol, db, db.channels[j], s, p.ts);
    }
  }

  /** Tier 1's condition at s splits into transport s and the rest. */
  lemma SameInPlaceAt(o: ScanOracles, tt: TunerType, tol: nat, db: Transport, d: Channel, s: nat,
                      ts: seq<Transport>, ts': seq<Transport>)
    requires s < |ts| && o.isEqual(tt, ts[s].tuning, db.tuning, tol, true)
    requires |ts'| == |ts| && forall k :: s < k < |ts| ==> ts'[k] == ts[k]
    ensures SameInPlace(o, tt, tol, db, d, ts, s) <==>
      SameIn(o, 2, d, ts[s].channels) || SameInPlace(o, tt, tol, db, d, ts', s + 1)
  {
    if SameInPlace(o, tt, tol, db, d, ts', s + 1) {
      var k :| s + 1 <= k < |ts'| && o.isEqual(tt, ts'[k].tuning, db.tuning, tol, true) && SameIn(o, 2, d, ts'[k].channels);
      assert ts'[k] == ts[k];
    }
    if SameInPlace(o, tt, tol, db, d, ts, s) && !SameIn(o, 2, d, ts[s].channels) {
      var k :| s <= k < |ts| && o.isEqual(tt, ts[k].tuning, db.tuning, tol, true) && SameIn(o, 2, d, ts[k].channels);
      assert ts'[k] == ts[k];
    }
  }

  /** One scanned transport that is this multiplex, then the rest: what
      is found. */
  lemma Tier1Join(o: ScanOracles, tt: TunerType, tol: nat, db: Transport, s: nat,
                  p: Progress, p': Progress, r: Progress)
    requires s < |p.ts| && o.isEqual(tt, p.ts[s].tuning, db.tuning, tol, true)
    requires |p'.ts| == |p.ts| && forall k :: s < k < |p.ts| ==> p'.ts[k] == p.ts[k]
    requires FoundFrom(o, db.channels, 0, p.found, p.ts[s].channels, p'.found)
    requires Tier1FoundFrom(o, tt, tol, db, s + 1, p', r.found)
    ensures Tier1FoundFrom(o, tt, tol, db, s, p, r.found)
  {
    forall j | 0 <= j < |db.channels|
      ensures SameInPlace(o, tt, tol, db, db.channels[j], p.ts, s) <==>
        FirstSame(o, 2, db.channels[j], p.ts[s].channels, 0).Some?
        || SameInPlace(o, tt, tol, db, db.channels[j], p'.ts, s + 1)
    {
      FirstSameIn(o, 2, db.channels[j], p.ts[s].channels);
      SameInPlaceAt(o, tt, tol, db, db.channels[j], s, p.ts, p'.ts);
    }
  }


  /** Database channel j ends up found by tier 2 run from idc on. */
  predicate Tier2Has(o: ScanOracles, dbChans: seq<Channel>, idc: nat, p: Progress, j: nat)
    requires idc <= |dbChans| && Below(p.found, |dbChans|)
  {
    j in Tier2(o, dbChans, idc, p).found
  }

  /** Some scanned channel is the same channel as `d` at relaxation level 1. */
  predicate Tier2Sees(o: ScanOracles, d: Channel, ts: seq<Transport>) {
    Tier2Find(o, d, ts, 0).Some?
  }

  /** Under LinkBlind, tier 2 from idc on finds database channel j exactly
      when tier 1 found it or it is at idc or later and has a level-1 same
      channel somewhere in the scan as tier 2 starts. */
  lemma {:induction false} Tier2Member(o: ScanOracles, dbChans: seq<Channel>, idc: nat, p: Progress, j: nat)
    requires LinkBlind(o)
    requires idc <= |dbChans| && Below(p.found, |dbChans|) && j < |dbChans|
    ensures Tier2Has(o, dbChans, idc, p, j) <==> j in p.found || (idc <= j && Tier2Sees(o, dbChans[j], p.ts))
    decreases |dbChans| - idc, 1
  {
    if idc < j {
      Tier2Unfold(o, dbChans, idc, p);
      Tier2MemberLater(o, dbChans, idc, p, j);
    }
  }

  /** Tier2Member for a database channel after idc: visiting idc neither
      finds j nor changes what tier 2 sees of it. */
  lemma {:induction false} Tier2MemberLater(o: ScanOracles, dbChans: seq<Channel>, idc: nat, p: Progress, j: nat)
    requires LinkBlind(o)
    requires idc < j < |dbChans| && Below(p.found, |dbChans|)
    ensures Tier2Has(o, dbChans, idc + 1, Tier2Visit(o, dbChans, idc, p), j) <==>
      j in p.found || Tier2Sees(o, dbChans[j], p.ts)
    decreases |dbChans| - idc, 0
  {
    var p' := Tier2Visit(o, dbChans, idc, p);
    Tier2Member(o, dbChans, idc + 1, p', j);
    Tier2FindBlind(o, dbChans[j], p.ts, p'.ts);
  }

  /** One step of tier 2. */
  lemma Tier2Unfold(o: ScanOracles, dbChans: seq<Channel>, idc: nat, p: Progress)
    requires idc < |dbChans| && Below(p.found, |dbChans|)
    ensures Tier2(o, dbChans, idc, p) == Tier2(o, dbChans, idc + 1, Tier2Visit(o, dbChans, idc, p))
  {
  }

  /** Search finds exactly the database channels the scan matches: tier 1
      in a scanned transport that is this multiplex, or, with the full
      search, tier 2 anywhere. */
  lemma SearchFound(o: ScanOracles, fullSearch: bool, tt: TunerType, tol: nat, mplexId: nat, db: Transport,
                    ts: seq<Transport>)
    requires LinkBlind(o)
    ensures forall j: nat :: j in Search(o, fullSearch, tt, tol, mplexId, db, ts).found <==>
      j < |db.channels| && Matched(o, fullSearch, tt, tol, db, db.channels[j], ts)
  {
    var p0 := Progress(ts, {}, false, 0, 0);
    var p1 := Tier1(o, tt, tol, db, mplexId, 0, p0);
    Tier1Found(o, tt, tol, db, mplexId, 0, p0);
    if fullSearch {
      var p2 := Tier2(o, db.channels, 0, p1);
      forall j: nat | j < |db.channels|
        ensures j in p2.found <==> Matched(o, fullSearch, tt, tol, db, db.channels[j], ts)
      {
        Tier2Member(o, db.channels, 0, p1, j);
        assert Tier2Has(o, db.channels, 0, p1, j) == (j in p2.found);
        Tier2FindBlind(o, db.channels[j], ts, p1.ts);
        Tier2FindAnywhere(o, db.channels[j], ts);
      }
      assert p2 == Search(o, fullSearch, tt, tol, mplexId, db, ts);
    } else {
      assert p1 == Search(o, fullSearch, tt, tol, mplexId, db, ts);
    }
  }

  /** The database channels below n that `found` misses are exactly those
      the scan does not match, so Unfound is NotMatched. */
  lemma {:induction false} UnfoundNotMatched(o: ScanOracles, fullSearch: bool, tt: TunerType, tol: nat, db: Transport,
                                             ts: seq<Transport>, found: set<nat>, n: nat)
    requires n <= |db.channels|
    requires forall j: nat :: j < n ==> (j in found <==> Matched(o, fullSearch, tt, tol, db, db.channels[j], ts))
    ensures Unfound(db.channels, found, n) == NotMatched(o, fullSearch, tt, tol, db, ts, n)
  {
    if n > 0 {
      UnfoundNotMatched(o, fullSearch, tt, tol, db, ts, found, n - 1);
    }
  }

  /** The entry the source appends for multiplex `db` to the list of
      transports not in the scan: the multiplex with its unmatched channels,
      when a scanned transport is this multiplex and some channel is unmatched. */
  function NotInScanEntry(o: ScanOracles, fullSearch: bool, tt: TunerType, tol: nat, db: Transport,
                          ts: seq<Transport>): seq<Transport>
  {
    var nm := NotMatched(o, fullSearch, tt, tol, db, ts, |db.channels|);
    if InScan(o, tt, tol, ts, 0, db) && |nm| > 0 then [db.(channels := nm)] else []
  }

  /** The not-in-scan entries of the multiplexes from index m on, each
      matched against the scan `ts`. */
  function NotInScanOf(o: ScanOracles, fullSearch: bool, tt: TunerType, tol: nat, load: Loader,
                       mplexIds: seq<nat>, m: nat, ts: seq<Transport>): seq<Transport>
    requires m <= |mplexIds|
    decreases |mplexIds| - m
  {
    if m == |mplexIds| then []
    else NotInScanEntry(o, fullSearch, tt, tol, load(tt, mplexIds[m]).1, ts)
         + NotInScanOf(o, fullSearch, tt, tol, load, mplexIds, m + 1, ts)
  }

  /** MatchMultiplex appends exactly the reference entry. */
  lemma MatchMultiplexNotInScan(o: ScanOracles, fullSearch: bool, tt: TunerType, tol: nat, mplexId: nat,
                                load: (bool, Transport), acc: MatchResult)
    requires LinkBlind(o)
    ensures MatchMultiplex(o, fullSearch, tt, tol, mplexId, load, acc).notInScan
            == acc.notInScan + NotInScanEntry(o, fullSearch, tt, tol, load.1, acc.transports)
  {
    var db := load.1;
    var p := Search(o, fullSearch, tt, tol, mplexId, db, acc.transports);
    SearchFound(o, fullSearch, tt, tol, mplexId, db, acc.transports);
    UnfoundNotMatched(o, fullSearch, tt, tol, db, acc.transports, p.found, |db.channels|);
  }

  lemma IsEqualBlind(o: ScanOracles, tt: TunerType, a: Tuning, b: Tuning, db: Tuning, tol: nat)
    requires LinkBlind(o) && b.(mplex := a.mplex) == a
    ensures o.isEqual(tt, a, db, tol, true) == o.isEqual(tt, b, db, tol, true)
  {
    assert Untuned(a) == Untuned(b);
    assert o.isEqual(tt, Untuned(a), db, tol, true) == o.isEqual(tt, Untuned(b), db, tol, true);
  }

  /** Relinking the scan does not change whether a multiplex is in it. */
  lemma InScanBlind(o: ScanOracles, tt: TunerType, tol: nat, db: Transport, ts: seq<Transport>, us: seq<Transport>)
    requires LinkBlind(o) && SameShape(ts, us)
    ensures InScan(o, tt, tol, ts, 0, db) == InScan(o, tt, tol, us, 0, db)
  {
    forall k | 0 <= k < |ts|
      ensures o.isEqual(tt, ts[k].tuning, db.tuning, tol, true) == o.isEqual(tt, us[k].tuning, db.tuning, tol, true)
    {
      IsEqualBlind(o, tt, ts[k].tuning, us[k].tuning, db.tuning, tol);
    }
  }

  /** Relinking the scan does not change which database channels it matches. */
  lemma MatchedBlind(o: ScanOracles, fullSearch: bool, tt: TunerType, tol: nat, db: Transport, d: Channel,
                     ts: seq<Transport>, us: seq<Transport>)
    requires LinkBlind(o) && SameShape(ts, us)
    ensures Matched(o, fullSearch, tt, tol, db, d, ts) == Matched(o, fullSearch, tt, tol, db, d, us)
  {
    forall k | 0 <= k < |ts|
      ensures o.isEqual(tt, ts[k].tuning, db.tuning, tol, true) == o.isEqual(tt, us[k].tuning, db.tuning, tol, true)
      ensures SameIn(o, 2, d, ts[k].channels) == SameIn(o, 2, d, us[k].channels)
    {
      IsEqualBlind(o, tt, ts[k].tuning, us[k].tuning, db.tuning, tol);
      SameInBlind(o, 2, d, ts[k].channels, us[k].channels);
    }
    assert SameInPlace(o, tt, tol, db, d, ts, 0) == SameInPlace(o, tt, tol, db, d, us, 0);
    SameAnywhereBlind(o, d, ts, us);
  }

  lemma {:induction false} NotMatchedBlind(o: ScanOracles, fullSearch: bool, tt: TunerType, tol: nat, db: Transport,
                                           ts: seq<Transport>, us: seq<Transport>, n: nat)
    requires LinkBlind(o) && SameShape(ts, us) && n <= |db.channels|
    ensures NotMatched(o, fullSearch, tt, tol, db, ts, n) == NotMatched(o, fullSearch, tt, tol, db, us, n)
  {
    if n > 0 {
      NotMatchedBlind(o, fullSearch, tt, tol, db, ts, us, n - 1);
      MatchedBlind(o, fullSearch, tt, tol, db, db.channels[n - 1], ts, us);
    }
  }

  /** Relinking the scan does not change a multiplex's not-in-scan entry. */
  lemma NotInScanEntryBlind(o: ScanOracles, fullSearch: bool, tt: TunerType, tol: nat, db: Transport,
                            ts: seq<Transport>, us: seq<Transport>)
    requires LinkBlind(o) && SameShape(ts, us)
    ensures NotInScanEntry(o, fullSearch, tt, tol, db, ts) == NotInScanEntry(o, fullSearch, tt, tol, db, us)
  {
    InScanBlind(o, tt, tol, db, ts, us);
    NotMatchedBlind(o, fullSearch, tt, tol, db, ts, us, |db.channels|);
  }

  /** MatchAll from index m on appends to the list it is handed exactly the
      reference entries of its multiplexes, each matched against `ts`. */
  predicate AppendsNotInScan(o: ScanOracles, fullSearch: bool, tt: TunerType, tol: nat, load: Loader,
                             mplexIds: seq<nat>, m: nat, acc: MatchResult, ts: seq<Transport>)
    requires m <= |mplexIds|
  {
    MatchAll(o, fullSearch, tt, tol, load, mplexIds, m, acc).notInScan
    == acc.notInScan + NotInScanOf(o, fullSearch, tt, tol, load, mplexIds, m, ts)
  }

  /** One turn of the loop over the database multiplexes. */
  lemma MatchAllStep(o: ScanOracles, fullSearch: bool, tt: TunerType, tol: nat, load: Loader,
                     mplexIds: seq<nat>, m: nat, acc: MatchResult)
    requires m < |mplexIds|
    ensures MatchAll(o, fullSearch, tt, tol, load, mplexIds, m, acc)
            == MatchAll(o, fullSearch, tt, tol, load, mplexIds, m + 1,
                        MatchMultiplex(o, fullSearch, tt, tol, mplexIds[m], load(tt, mplexIds[m]), acc))
  {
  }

  /** The loop appends the reference entries of its multiplexes, each
      matched against the scan as it was before the loop: an earlier
      multiplex's tagging does not change what a later one finds. */
  lemma {:induction false} MatchAllNotInScan(o: ScanOracles, fullSearch: bool, tt: TunerType, tol: nat, load: Loader,
                                             mplexIds: seq<nat>, m: nat, acc: MatchResult, ts: seq<Transport>)
    requires LinkBlind(o)
    requires m <= |mplexIds| && SameShape(ts, acc.transports)
    ensures AppendsNotInScan(o, fullSearch, tt, tol, load, mplexIds, m, acc, ts)
    decreases |mplexIds| - m
  {
    if m < |mplexIds| {
      var db := load(tt, mplexIds[m]);
      var acc' := MatchMultiplex(o, fullSearch, tt, tol, mplexIds[m], db, acc);
      MatchAllStep(o, fullSearch, tt, tol, load, mplexIds, m, acc);
      MatchMultiplexNotInScan(o, fullSearch, tt, tol, mplexIds[m], db, acc);
      NotInScanEntryBlind(o, fullSearch, tt, tol, db.1, ts, acc.transports);
      SameShapeTransitive(ts, acc.transports, acc'.transports);
      MatchAllNotInScan(o, fullSearch, tt, tol, load, mplexIds, m + 1, acc', ts);
      NotInScanOfStep(o, fullSearch, tt, tol, load, mplexIds, m, ts);
      AppendChain(MatchAll(o, fullSearch, tt, tol, load, mplexIds, m, acc).notInScan, acc'.notInScan,
                  acc.notInScan, NotInScanEntry(o, fullSearch, tt, tol, db.1, acc.transports),
                  NotInScanOf(o, fullSearch, tt, tol, load, mplexIds, m + 1, ts),
                  NotInScanOf(o, fullSearch, tt, tol, load, mplexIds, m, ts));
    }
  }

  /** One entry of the reference list. */
  lemma NotInScanOfStep(o: ScanOracles, fullSearch: bool, tt: TunerType, tol: nat, load: Loader,
                        mplexIds: seq<nat>, m: nat, ts: seq<Transport>)
    requires m < |mplexIds|
    ensures NotInScanOf(o, fullSearch, tt, tol, load, mplexIds, m, ts)
            == NotInScanEntry(o, fullSearch, tt, tol, load(tt, mplexIds[m]).1, ts)
               + NotInScanOf(o, fullSearch, tt, tol, load, mplexIds, m + 1, ts)
  {
  }

  /** a = b + rest with b = c + e and n = e + rest give a = c + n. */
  lemma AppendChain<T>(a: seq<T>, b: seq<T>, c: seq<T>, e: seq<T>, rest: seq<T>, n: seq<T>)
    requires a == b + rest && b == c + e && n == e + rest
    ensures a == c + n
  {
    assert c + e + rest == c + (e + rest);
  }

  /** GetDBTransports reports exactly, for each multiplex of the source in
      order, the ones the scan holds with their channels the scan does not
      match. */
  lemma GetDBTransportsNotInScan(o: ScanOracles, fullSearch: bool, load: Loader, mplexIds: Option<seq<nat>>,
                                 ts: seq<Transport>)
    requires LinkBlind(o)
    ensures mplexIds.Some? ==>
      var tt := ScanTunerType(ts);
      GetDBTransports(o, fullSearch, load, mplexIds, ts).notInScan
      == NotInScanOf(o, fullSearch, tt, FrequencyTolerance(tt), load, mplexIds.value, 0, ts)
  {
    if mplexIds.Some? {
      var tt := ScanTunerType(ts);
      assert SameShape(ts, ts) by {
        forall k | 0 <= k < |ts| ensures RelinkedOnly(ts[k].channels, ts[k].channels) {}
      }
      MatchAllNotInScan(o, fullSearch, tt, FrequencyTolerance(tt), load, mplexIds.value, 0,
                        MatchResult(ts, [], 0, 0, 0), ts);
    }
  }
}

/** The records the channel importer works on: scanned transports
    (multiplexes) with their channels, and the abstract channel table of the
    database the importer reads and writes. */
module Channels {
  import opened Util

  datatype TunerType =
    | DVBS1 | DVBS2 | DVBC | DVBT | DVBT2 | ATSC | ASI | OCUR | IPTV | UnknownTuner

  /** The tuning half of a transport (a DTVMultiplex): what multiplex
      comparison looks at. `mplex` is the database multiplex id. */
  datatype Tuning = Tuning(tunerType: TunerType, frequency: nat, modulation: string, mplex: nat)

  const NoTuning := Tuning(UnknownTuner, 0, "", 0)

  datatype DecryptionStatus = EncUnknown | EncDecrypted | EncEncrypted

  datatype Visibility = AlwaysVisible | Visible | NotVisible | NeverVisible

  /** One channel found by the scan (ChannelInsertInfo). Integer fields hold
      the source's unsigned values. `channelId` and `dbMplexId` are zero
      until the channel is matched with, or inserted into, the database. */
  datatype Channel = Channel(
    dbMplexId: nat,
    sourceId: nat,
    channelId: nat,
    callSign: string,
    serviceName: string,
    chanNum: string,
    serviceId: nat,
    atscMajor: nat,
    atscMinor: nat,
    useOnAirGuide: bool,
    hidden: bool,
    visible: Visibility,
    freqId: string,
    siStandard: string,
    inChannelsConf: bool,
    inPat: bool,
    inPmt: bool,
    inVct: bool,
    inNit: bool,
    inSdt: bool,
    isEncrypted: bool,
    decryptionStatus: DecryptionStatus,
    isDataService: bool,
    isAudioService: bool,
    isOpencable: bool,
    couldBeOpencable: bool,
    netId: nat,
    origNetId: nat,
    patTsId: nat,
    sdtTsId: nat,
    vctTsId: nat,
    vctChanTsId: nat)

  /** A scanned transport (ScanDTVTransport): tuning plus channel list. */
  datatype Transport = Transport(tuning: Tuning, channels: seq<Channel>)

  /** All channels of a transport list, transport by transport. */
  function Flat(ts: seq<Transport>): seq<Channel>
  {
    if |ts| == 0 then [] else Flat(ts[..|ts| - 1]) + ts[|ts| - 1].channels
  }

  lemma {:induction false} FlatAppend(a: seq<Transport>, b: seq<Transport>)
    ensures Flat(a + b) == Flat(a) + Flat(b)
    decreases |b|
  {
    if |b| == 0 {
      assert a + b == a;
    } else {
      assert (a + b)[..|a + b| - 1] == a + b[..|b| - 1];
      FlatAppend(a, b[..|b| - 1]);
    }
  }

  lemma FlatPush(a: seq<Transport>, t: Transport)
    ensures Flat(a + [t]) == Flat(a) + t.channels
  {
    assert (a + [t])[..|a|] == a;
  }

  /** Appends a transport copy to a list only when it holds channels, as
      the importer does with each of its per-transport copies. */
  function PushIfAny(list: seq<Transport>, t: Transport): (r: seq<Transport>)
    ensures |Flat(r)| == |Flat(list)| + |t.channels|
    ensures Flat(r) == Flat(list) + t.channels
    ensures |list| <= |r| <= |list| + 1
    ensures r[..|list|] == list
    ensures forall k :: |list| <= k < |r| ==> r[k] == t && |t.channels| > 0
  {
    if |t.channels| == 0 then list else FlatPush(list, t); list + [t]
  }

  /** Adds a channel to a copy of a transport; an empty copy first takes the
      transport's tuning. */
  function AddChanToCopy(copy: Transport, t: Transport, chan: Channel): (r: Transport)
    ensures r.channels == copy.channels + [chan]
    ensures |copy.channels| == 0 || copy.tuning == t.tuning ==> r.tuning == t.tuning
    ensures |copy.channels| > 0 ==> r.tuning == copy.tuning
  {
    if |copy.channels| == 0 then Transport(t.tuning, [chan])
    else copy.(channels := copy.channels + [chan])
  }

  /** Number of channels satisfying `p`. */
  function CountIf(cs: seq<Channel>, p: Channel -> bool): (n: nat)
    ensures n <= |cs|
  {
    if |cs| == 0 then 0 else CountIf(cs[..|cs| - 1], p) + (if p(cs[|cs| - 1]) then 1 else 0)
  }

  lemma {:induction false} CountIfAppend(a: seq<Channel>, b: seq<Channel>, p: Channel -> bool)
    ensures CountIf(a + b, p) == CountIf(a, p) + CountIf(b, p)
    decreases |b|
  {
    if |b| == 0 {
      assert a + b == a;
    } else {
      assert (a + b)[..|a + b| - 1] == a + b[..|b| - 1];
      CountIfAppend(a, b[..|b| - 1], p);
    }
  }

  lemma {:induction false} CountIfMono(cs: seq<Channel>, p: Channel -> bool, q: Channel -> bool)
    requires forall c :: p(c) ==> q(c)
    ensures CountIf(cs, p) <= CountIf(cs, q)
  {
    if |cs| > 0 {
      CountIfMono(cs[..|cs| - 1], p, q);
    }
  }

  // ---------------------------------------------------------------------
  // The database, as far as the importer sees it: the channel table of
  // all video sources, keyed by channel id.

  datatype DbChannel = DbChannel(
    sourceId: nat, chanNum: string, mplexId: nat, visible: Visibility, useOnAirGuide: bool)

  type Db = map<nat, DbChannel>

  /** Channel ids are positive: zero means "no channel". */
  predicate DbWellFormed(db: Db) {
    0 !in db
  }

  /** ChannelUtil::IsConflicting: some other channel of the source already
      uses the number. `excluded` is the caller's own channel id, 0 for none. */
  predicate IsConflicting(db: Db, num: string, sourceId: nat, excluded: nat) {
    exists id :: id in db && id != excluded && db[id].sourceId == sourceId && db[id].chanNum == num
  }

  /** No two channels of one source share a channel number. */
  ghost predicate UniqueNumbers(db: Db) {
    forall a, b :: a in db && b in db && a != b && db[a].sourceId == db[b].sourceId ==>
      db[a].chanNum != db[b].chanNum
  }

  /** Storing a channel under a number no other channel of its source uses
      keeps the numbers unique. */
  lemma StoreKeepsUnique(db: Db, id: nat, entry: DbChannel)
    requires DbWellFormed(db) && UniqueNumbers(db)
    requires id != 0
    requires !IsConflicting(db, entry.chanNum, entry.sourceId, id)
    ensures DbWellFormed(db[id := entry]) && UniqueNumbers(db[id := entry])
  {
  }
}

/** The scan statistics (ChannelImporterBasicStats and
    ChannelImporterUniquenessStats), the ten channel types the insert and
    update passes work through, and the OpenCable relabelling that runs
    before the statistics are taken. */
module Classify {
  import opened Util
  import opened Channels

  // ---------------------------------------------------------------------
  // FixUpOpenCable

  /** A channel that is OpenCable, or could be and carries plain MPEG
      tables, and has no virtual channel table entry. */
  predicate LooksOpenCable(c: Channel) {
    ((c.couldBeOpencable && c.siStandard == "mpeg") || c.isOpencable) && !c.inVct
  }

  function FixUpChannel(c: Channel): Channel {
    if LooksOpenCable(c) then c.(siStandard := "opencable") else c
  }

  /** ChannelImporter::FixUpOpenCable: every channel keeps all its fields
      but the SI standard, which becomes "opencable" for the channels that
      look like OpenCable and stays as it was for every other channel; no
      channel that could be OpenCable is left labelled plain MPEG without a
      VCT entry. */
  function FixUpOpenCable(ts: seq<Transport>): (r: seq<Transport>)
    ensures |r| == |ts|
    ensures forall k :: 0 <= k < |ts| ==> r[k].tuning == ts[k].tuning && |r[k].channels| == |ts[k].channels|
    ensures forall k, l :: 0 <= k < |ts| && 0 <= l < |ts[k].channels| ==>
      && r[k].channels[l] == ts[k].channels[l].(siStandard := r[k].channels[l].siStandard)
      && r[k].channels[l].siStandard == (if LooksOpenCable(ts[k].channels[l]) then "opencable" else ts[k].channels[l].siStandard)
      && !(r[k].channels[l].couldBeOpencable && r[k].channels[l].siStandard == "mpeg" && !r[k].channels[l].inVct)
  {
    seq(|ts|, k requires 0 <= k < |ts| =>
      ts[k].(channels := seq(|ts[k].channels|, l requires 0 <= l < |ts[k].channels| => FixUpChannel(ts[k].channels[l]))))
  }

  /** Relabelling twice is relabelling once. */
  lemma FixUpOpenCableIdempotent(ts: seq<Transport>)
    ensures FixUpOpenCable(FixUpOpenCable(ts)) == FixUpOpenCable(ts)
  {
    var once := FixUpOpenCable(ts);
    var twice := FixUpOpenCable(once);
    forall k | 0 <= k < |ts|
      ensures twice[k] == once[k]
    {
      assert twice[k].channels == once[k].channels;
    }
  }

  // ---------------------------------------------------------------------
  // ChannelImporterBasicStats

  /** Counts of clear, encrypted and decrypted channels of one standard. */
  datatype EncCounts = EncCounts(clear: nat, encrypted: nat, decrypted: nat)

  const NoCounts := EncCounts(0, 0, 0)

  /** 0 for clear, 1 for encrypted, 2 for encrypted but decrypted. */
  function EncSlot(c: Channel): (slot: nat)
    ensures slot < 3
  {
    if c.isEncrypted then (if c.decryptionStatus == EncDecrypted then 2 else 1) else 0
  }

  function Slot(e: EncCounts, slot: nat): nat {
    if slot == 0 then e.clear else if slot == 1 then e.encrypted else e.decrypted
  }

  function Bump(e: EncCounts, slot: nat, hit: bool): EncCounts {
    if !hit then e
    else if slot == 0 then e.(clear := e.clear + 1)
    else if slot == 1 then e.(encrypted := e.encrypted + 1)
    else e.(decrypted := e.decrypted + 1)
  }

  /** The count a QMap<K, uint> yields for a key: zero when absent. */
  function Get<K>(m: map<K, nat>, k: K): nat {
    if k in m then m[k] else 0
  }

  function Inc<K>(m: map<K, nat>, k: K): map<K, nat> {
    m[k := Get(m, k) + 1]
  }

  const TwoTo16 := 0x1_0000
  const TwoTo32 := 0x1_0000_0000

  /** The bitwise or of two naturals. */
  function BitOr(a: nat, b: nat): nat
    decreases a + b
  {
    if a == 0 then b
    else if b == 0 then a
    else 2 * BitOr(a / 2, b / 2) + (if a % 2 == 1 || b % 2 == 1 then 1 else 0)
  }

  /** The ATSC key `(major << 16) | minor` in 32-bit unsigned arithmetic:
      the shift drops all but the low 16 bits of the major number, and the
      minor number is or-ed in whole, so distinct pairs can share a key. */
  function AtscKey(major: nat, minor: nat): nat {
    BitOr((major % TwoTo16) * TwoTo16, minor % TwoTo32)
  }

  function ChannelAtscKey(c: Channel): nat {
    AtscKey(c.atscMajor, c.atscMinor)
  }

  datatype BasicStats = BasicStats(
    atsc: EncCounts, dvb: EncCounts, mpeg: EncCounts, scte: EncCounts, ntsc: EncCounts,
    progNumCnt: map<nat, nat>,
    chanNumCnt: map<string, nat>,
    atscNumCnt: map<nat, nat>,
    atscMinCnt: map<nat, nat>,
    atscMajCnt: map<nat, nat>)

  const NoStats := BasicStats(NoCounts, NoCounts, NoCounts, NoCounts, NoCounts, map[], map[], map[], map[], map[])

  /** One channel's contribution, as the loop body of CollectStats: its
      encryption counter, then its program and channel numbers (not for
      NTSC), then its ATSC numbers (ATSC and NTSC). */
  function AddToStats(s: BasicStats, c: Channel): BasicStats {
    CountAtscNums(CountNums(BumpEnc(s, c), c), c)
  }

  /** The same encryption counters. */
  predicate SameEnc(s: BasicStats, r: BasicStats) {
    r.atsc == s.atsc && r.dvb == s.dvb && r.mpeg == s.mpeg && r.scte == s.scte && r.ntsc == s.ntsc
  }

  function BumpEnc(s: BasicStats, c: Channel): (r: BasicStats)
    ensures r.progNumCnt == s.progNumCnt && r.chanNumCnt == s.chanNumCnt
    ensures r.atscNumCnt == s.atscNumCnt && r.atscMinCnt == s.atscMinCnt && r.atscMajCnt == s.atscMajCnt
  {
    var slot := EncSlot(c);
    var std := c.siStandard;
    s.(atsc := Bump(s.atsc, slot, std == "atsc"), dvb := Bump(s.dvb, slot, std == "dvb"),
       mpeg := Bump(s.mpeg, slot, std == "mpeg"), scte := Bump(s.scte, slot, std == "opencable"),
       ntsc := Bump(s.ntsc, slot, std == "ntsc"))
  }

  function CountNums(s: BasicStats, c: Channel): (r: BasicStats)
    ensures SameEnc(s, r)
    ensures r.atscNumCnt == s.atscNumCnt && r.atscMinCnt == s.atscMinCnt && r.atscMajCnt == s.atscMajCnt
  {
    if c.siStandard != "ntsc" then s.(progNumCnt := Inc(s.progNumCnt, c.serviceId), chanNumCnt := Inc(s.chanNumCnt, c.chanNum))
    else s
  }

  function CountAtscNums(s: BasicStats, c: Channel): (r: BasicStats)
    ensures SameEnc(s, r)
    ensures r.progNumCnt == s.progNumCnt && r.chanNumCnt == s.chanNumCnt
  {
    if c.siStandard == "atsc" then
      s.(atscNumCnt := Inc(s.atscNumCnt, ChannelAtscKey(c)),
         atscMinCnt := Inc(s.atscMinCnt, c.atscMinor),
         atscMajCnt := Inc(s.atscMajCnt, c.atscMajor))
    else if c.siStandard == "ntsc" then s.(atscNumCnt := Inc(s.atscNumCnt, ChannelAtscKey(c)))
    else s
  }

  function StatsOf(cs: seq<Channel>): BasicStats {
    if |cs| == 0 then NoStats else AddToStats(StatsOf(cs[..|cs| - 1]), cs[|cs| - 1])
  }

  // The channel properties the statistics count.

  function IsStd(std: string): Channel -> bool {
    (c: Channel) => c.siStandard == std
  }

  function StdInSlot(std: string, slot: nat): Channel -> bool {
    (c: Channel) => c.siStandard == std && EncSlot(c) == slot
  }

  function ProgNumIs(sid: nat): Channel -> bool {
    (c: Channel) => c.siStandard != "ntsc" && c.serviceId == sid
  }

  function ChanNumIs(num: string): Channel -> bool {
    (c: Channel) => c.siStandard != "ntsc" && c.chanNum == num
  }

  function AtscNumIs(key: nat): Channel -> bool {
    (c: Channel) => (c.siStandard == "atsc" || c.siStandard == "ntsc") && ChannelAtscKey(c) == key
  }

  function AtscMinIs(minor: nat): Channel -> bool {
    (c: Channel) => c.siStandard == "atsc" && c.atscMinor == minor
  }

  function AtscMajIs(major: nat): Channel -> bool {
    (c: Channel) => c.siStandard == "atsc" && c.atscMajor == major
  }

  /** The per-standard counters, keyed by the SI standard they count;
      the SCTE counter counts "opencable" channels. */
  function EncOf(s: BasicStats, std: string): EncCounts
    requires std in {"atsc", "dvb", "mpeg", "opencable", "ntsc"}
  {
    if std == "atsc" then s.atsc
    else if std == "dvb" then s.dvb
    else if std == "mpeg" then s.mpeg
    else if std == "opencable" then s.scte
    else s.ntsc
  }

  /** Bumping a counter moves the bumped slot by one. */
  lemma BumpSlot(e: EncCounts, at: nat, hit: bool, slot: nat)
    ensures Slot(Bump(e, at, hit), slot) == Slot(e, slot) + (if hit && (at == slot || (at >= 2 && slot >= 2)) then 1 else 0)
  {
  }

  /** One channel moves its own encryption counter by one. */
  lemma AddToStatsSlot(s: BasicStats, c: Channel, std: string, slot: nat)
    requires std in {"atsc", "dvb", "mpeg", "opencable", "ntsc"}
    requires slot < 3
    ensures Slot(EncOf(AddToStats(s, c), std), slot) == Slot(EncOf(s, std), slot) + (if StdInSlot(std, slot)(c) then 1 else 0)
  {
    var e := BumpEnc(s, c);
    assert EncOf(AddToStats(s, c), std) == EncOf(e, std);
    var cs := c.siStandard;
    if std == "atsc" {
      BumpSlot(s.atsc, EncSlot(c), cs == "atsc", slot);
    } else if std == "dvb" {
      BumpSlot(s.dvb, EncSlot(c), cs == "dvb", slot);
    } else if std == "mpeg" {
      BumpSlot(s.mpeg, EncSlot(c), cs == "mpeg", slot);
    } else if std == "opencable" {
      BumpSlot(s.scte, EncSlot(c), cs == "opencable", slot);
    } else {
      BumpSlot(s.ntsc, EncSlot(c), cs == "ntsc", slot);
    }
  }

  // One channel moves each occurrence map at its own key by one.

  lemma AddToStatsProg(s: BasicStats, c: Channel, sid: nat)
    ensures Get(AddToStats(s, c).progNumCnt, sid) == Get(s.progNumCnt, sid) + (if ProgNumIs(sid)(c) then 1 else 0)
  {
    var n := CountNums(BumpEnc(s, c), c);
    assert AddToStats(s, c).progNumCnt == n.progNumCnt;
  }

  lemma AddToStatsChan(s: BasicStats, c: Channel, num: string)
    ensures Get(AddToStats(s, c).chanNumCnt, num) == Get(s.chanNumCnt, num) + (if ChanNumIs(num)(c) then 1 else 0)
  {
    var n := CountNums(BumpEnc(s, c), c);
    assert AddToStats(s, c).chanNumCnt == n.chanNumCnt;
  }

  lemma AddToStatsAtscNum(s: BasicStats, c: Channel, key: nat)
    ensures Get(AddToStats(s, c).atscNumCnt, key) == Get(s.atscNumCnt, key) + (if AtscNumIs(key)(c) then 1 else 0)
  {
    var n := CountNums(BumpEnc(s, c), c);
    assert n.atscNumCnt == s.atscNumCnt;
    if c.siStandard == "atsc" || c.siStandard == "ntsc" {
      assert AddToStats(s, c).atscNumCnt == Inc(s.atscNumCnt, ChannelAtscKey(c));
    } else {
      assert AddToStats(s, c).atscNumCnt == s.atscNumCnt;
    }
  }

  lemma AddToStatsMinor(s: BasicStats, c: Channel, minor: nat)
    ensures Get(AddToStats(s, c).atscMinCnt, minor) == Get(s.atscMinCnt, minor) + (if AtscMinIs(minor)(c) then 1 else 0)
  {
    var n := CountNums(BumpEnc(s, c), c);
    assert n.atscMinCnt == s.atscMinCnt;
  }

  lemma AddToStatsMajor(s: BasicStats, c: Channel, major: nat)
    ensures Get(AddToStats(s, c).atscMajCnt, major) == Get(s.atscMajCnt, major) + (if AtscMajIs(major)(c) then 1 else 0)
  {
    var n := CountNums(BumpEnc(s, c), c);
    assert n.atscMajCnt == s.atscMajCnt;
  }

  /** Each counter of the encryption table counts the channels of its
      standard in its encryption slot. */
  lemma {:induction false} StatsCountSlots(cs: seq<Channel>, std: string, slot: nat)
    requires std in {"atsc", "dvb", "mpeg", "opencable", "ntsc"}
    requires slot < 3
    ensures Slot(EncOf(StatsOf(cs), std), slot) == CountIf(cs, StdInSlot(std, slot))
  {
    if |cs| > 0 {
      StatsCountSlots(cs[..|cs| - 1], std, slot);
      AddToStatsSlot(StatsOf(cs[..|cs| - 1]), cs[|cs| - 1], std, slot);
    }
  }

  /** Each occurrence map counts the channels with its key. */
  lemma {:induction false} StatsCountKeys(cs: seq<Channel>, sid: nat, num: string, key: nat, minor: nat, major: nat)
    ensures Get(StatsOf(cs).progNumCnt, sid) == CountIf(cs, ProgNumIs(sid))
    ensures Get(StatsOf(cs).chanNumCnt, num) == CountIf(cs, ChanNumIs(num))
    ensures Get(StatsOf(cs).atscNumCnt, key) == CountIf(cs, AtscNumIs(key))
    ensures Get(StatsOf(cs).atscMinCnt, minor) == CountIf(cs, AtscMinIs(minor))
    ensures Get(StatsOf(cs).atscMajCnt, major) == CountIf(cs, AtscMajIs(major))
  {
    if |cs| > 0 {
      StatsCountKeys(cs[..|cs| - 1], sid, num, key, minor, major);
      var prev := StatsOf(cs[..|cs| - 1]);
      var c := cs[|cs| - 1];
      AddToStatsProg(prev, c, sid);
      AddToStatsChan(prev, c, num);
      AddToStatsAtscNum(prev, c, key);
      AddToStatsMinor(prev, c, minor);
      AddToStatsMajor(prev, c, major);
    }
  }

  /** ChannelImporter::CollectStats: the statistics of every channel of the
      scan, transport by transport. */
  function CollectStats(ts: seq<Transport>): (info: BasicStats)
    ensures forall std, slot :: std in {"atsc", "dvb", "mpeg", "opencable", "ntsc"} && slot < 3 ==>
      Slot(EncOf(info, std), slot) == CountIf(Flat(ts), StdInSlot(std, slot))
    ensures forall sid :: Get(info.progNumCnt, sid) == CountIf(Flat(ts), ProgNumIs(sid))
    ensures forall num :: Get(info.chanNumCnt, num) == CountIf(Flat(ts), ChanNumIs(num))
    ensures forall key :: Get(info.atscNumCnt, key) == CountIf(Flat(ts), AtscNumIs(key))
    ensures forall minor :: Get(info.atscMinCnt, minor) == CountIf(Flat(ts), AtscMinIs(minor))
    ensures forall major :: Get(info.atscMajCnt, major) == CountIf(Flat(ts), AtscMajIs(major))
  {
    var cs := Flat(ts);
    assert forall std, slot :: std in {"atsc", "dvb", "mpeg", "opencable", "ntsc"} && slot < 3 ==>
      Slot(EncOf(StatsOf(cs), std), slot) == CountIf(cs, StdInSlot(std, slot)) by {
      forall std, slot | std in {"atsc", "dvb", "mpeg", "opencable", "ntsc"} && slot < 3 {
        StatsCountSlots(cs, std, slot);
      }
    }
    forall sid ensures Get(StatsOf(cs).progNumCnt, sid) == CountIf(cs, ProgNumIs(sid)) {
      StatsCountKeys(cs, sid, "", 0, 0, 0);
    }
    forall num ensures Get(StatsOf(cs).chanNumCnt, num) == CountIf(cs, ChanNumIs(num)) {
      StatsCountKeys(cs, 0, num, 0, 0, 0);
    }
    forall key ensures Get(StatsOf(cs).atscNumCnt, key) == CountIf(cs, AtscNumIs(key)) {
      StatsCountKeys(cs, 0, "", key, 0, 0);
    }
    forall minor ensures Get(StatsOf(cs).atscMinCnt, minor) == CountIf(cs, AtscMinIs(minor)) {
      StatsCountKeys(cs, 0, "", 0, minor, 0);
    }
    forall major ensures Get(StatsOf(cs).atscMajCnt, major) == CountIf(cs, AtscMajIs(major)) {
      StatsCountKeys(cs, 0, "", 0, 0, major);
    }
    StatsOf(cs)
  }

  // ---------------------------------------------------------------------
  // ChannelImporterUniquenessStats

  datatype UniquenessStats = UniquenessStats(
    uniqueProgNum: nat, uniqueChanNum: nat, uniqueAtscNum: nat, uniqueAtscMin: nat,
    maxAtscMajCnt: nat, uniqueTotal: nat)

  function UniqueProg(info: BasicStats): Channel -> bool {
    (c: Channel) => Get(info.progNumCnt, c.serviceId) == 1
  }

  function UniqueChan(info: BasicStats): Channel -> bool {
    (c: Channel) => Get(info.chanNumCnt, c.chanNum) == 1
  }

  function UniqueAtscNum(info: BasicStats): Channel -> bool {
    (c: Channel) => c.siStandard == "atsc" && Get(info.atscNumCnt, ChannelAtscKey(c)) == 1
  }

  function UniqueAtscMin(info: BasicStats): Channel -> bool {
    (c: Channel) => c.siStandard == "atsc" && Get(info.atscMinCnt, c.atscMinor) == 1
  }

  /** The loop of CollectUniquenessStats over a channel list (the total is
      filled in afterwards). */
  function UniqueOf(cs: seq<Channel>, info: BasicStats): (u: UniquenessStats)
    ensures u.uniqueProgNum == CountIf(cs, UniqueProg(info))
    ensures u.uniqueChanNum == CountIf(cs, UniqueChan(info))
    ensures u.uniqueAtscNum == CountIf(cs, UniqueAtscNum(info))
    ensures u.uniqueAtscMin == CountIf(cs, UniqueAtscMin(info))
    ensures forall k :: 0 <= k < |cs| && cs[k].siStandard == "atsc" ==> Get(info.atscMajCnt, cs[k].atscMajor) <= u.maxAtscMajCnt
    ensures u.maxAtscMajCnt == 0 ||
      exists k :: 0 <= k < |cs| && cs[k].siStandard == "atsc" && Get(info.atscMajCnt, cs[k].atscMajor) == u.maxAtscMajCnt
  {
    if |cs| == 0 then UniquenessStats(0, 0, 0, 0, 0, 0)
    else
      var u := UniqueOf(cs[..|cs| - 1], info);
      var c := cs[|cs| - 1];
      var one := (b: bool) => if b then 1 else 0;
      var maj := if c.siStandard == "atsc" && Get(info.atscMajCnt, c.atscMajor) > u.maxAtscMajCnt
                 then Get(info.atscMajCnt, c.atscMajor) else u.maxAtscMajCnt;
      assert forall k :: 0 <= k < |cs| - 1 ==> cs[..|cs| - 1][k] == cs[k];
      UniquenessStats(
        u.uniqueProgNum + one(UniqueProg(info)(c)),
        u.uniqueChanNum + one(UniqueChan(info)(c)),
        u.uniqueAtscNum + one(UniqueAtscNum(info)(c)),
        u.uniqueAtscMin + one(UniqueAtscMin(info)(c)),
        maj, 0)
  }

  /** ChannelImporter::CollectUniquenessStats: how many channels have a
      program number, channel number, ATSC number or ATSC minor number that
      occurs once, the largest occurrence count of an ATSC major number, and
      the sum of the four unique counts. */
  function CollectUniquenessStats(ts: seq<Transport>, info: BasicStats): (u: UniquenessStats)
    ensures u.uniqueProgNum == CountIf(Flat(ts), UniqueProg(info))
    ensures u.uniqueChanNum == CountIf(Flat(ts), UniqueChan(info))
    ensures u.uniqueAtscNum == CountIf(Flat(ts), UniqueAtscNum(info))
    ensures u.uniqueAtscMin == CountIf(Flat(ts), UniqueAtscMin(info))
    ensures u.uniqueTotal == u.uniqueProgNum + u.uniqueAtscNum + u.uniqueAtscMin + u.uniqueChanNum
    ensures forall k :: 0 <= k < |Flat(ts)| && Flat(ts)[k].siStandard == "atsc" ==>
      Get(info.atscMajCnt, Flat(ts)[k].atscMajor) <= u.maxAtscMajCnt
  {
    var u := UniqueOf(Flat(ts), info);
    u.(uniqueTotal := u.uniqueProgNum + u.uniqueAtscNum + u.uniqueAtscMin + u.uniqueChanNum)
  }

  /** With the scan's own statistics, no ATSC major number occurs more
      often than there are ATSC channels. */
  lemma {:induction false} MaxMajorBounded(ts: seq<Transport>)
    ensures CollectUniquenessStats(ts, CollectStats(ts)).maxAtscMajCnt <= CountIf(Flat(ts), IsStd("atsc"))
  {
    var cs := Flat(ts);
    var info := CollectStats(ts);
    var u := UniqueOf(cs, info);
    if u.maxAtscMajCnt != 0 {
      var k :| 0 <= k < |cs| && cs[k].siStandard == "atsc" && Get(info.atscMajCnt, cs[k].atscMajor) == u.maxAtscMajCnt;
      CountIfMono(cs, AtscMajIs(cs[k].atscMajor), IsStd("atsc"));
    }
  }

  // ---------------------------------------------------------------------
  // Channel types

  /** ChannelImporter's ChannelType, in declaration order: the five
      non-conflicting types, then the five conflicting ones. */
  datatype ChannelType =
    | ATSCNonConflicting | DVBNonConflicting | SCTENonConflicting | MPEGNonConflicting | NTSCNonConflicting
    | ATSCConflicting | DVBConflicting | SCTEConflicting | MPEGConflicting | NTSCConflicting

  /** `kChannelTypeConflictingFirst <= type`. */
  predicate IsConflictingType(t: ChannelType) {
    t.ATSCConflicting? || t.DVBConflicting? || t.SCTEConflicting? || t.MPEGConflicting? || t.NTSCConflicting?
  }

  const NonConflictingTypes := [ATSCNonConflicting, DVBNonConflicting, SCTENonConflicting, MPEGNonConflicting, NTSCNonConflicting]
  const ConflictingTypes := [ATSCConflicting, DVBConflicting, SCTEConflicting, MPEGConflicting, NTSCConflicting]

  predicate IsScte(c: Channel) {
    c.siStandard == "scte" || c.siStandard == "opencable"
  }

  /** ChannelImporter::IsType. The ATSC and DVB non-conflicting types do not
      look at the statistics. */
  predicate IsType(info: BasicStats, c: Channel, t: ChannelType) {
    match t
    case ATSCNonConflicting => c.siStandard == "atsc"
    case DVBNonConflicting => c.siStandard == "dvb"
    case MPEGNonConflicting => c.siStandard == "mpeg" && Get(info.chanNumCnt, c.chanNum) == 1
    case SCTENonConflicting => IsScte(c) && Get(info.chanNumCnt, c.chanNum) == 1
    case NTSCNonConflicting => c.siStandard == "ntsc" && Get(info.atscNumCnt, ChannelAtscKey(c)) == 1
    case ATSCConflicting => c.siStandard == "atsc" && Get(info.atscNumCnt, ChannelAtscKey(c)) != 1
    case DVBConflicting => c.siStandard == "dvb" && Get(info.progNumCnt, c.serviceId) != 1
    case MPEGConflicting => c.siStandard == "mpeg" && Get(info.chanNumCnt, c.chanNum) != 1
    case SCTEConflicting => IsScte(c) && Get(info.chanNumCnt, c.chanNum) != 1
    case NTSCConflicting => c.siStandard == "ntsc" && Get(info.atscNumCnt, ChannelAtscKey(c)) != 1
  }

  /** A reference classifier: the standard picks the family, the
      occurrence count picks the half. */
  function Family(c: Channel): Option<(ChannelType, ChannelType)> {
    if c.siStandard == "atsc" then Some((ATSCNonConflicting, ATSCConflicting))
    else if c.siStandard == "dvb" then Some((DVBNonConflicting, DVBConflicting))
    else if c.siStandard == "mpeg" then Some((MPEGNonConflicting, MPEGConflicting))
    else if IsScte(c) then Some((SCTENonConflicting, SCTEConflicting))
    else if c.siStandard == "ntsc" then Some((NTSCNonConflicting, NTSCConflicting))
    else None
  }

  /** A channel is of some type only within its standard's family; within
      it, MPEG, SCTE and NTSC channels are of exactly one of the two types,
      while ATSC and DVB channels are always of the non-conflicting type and
      may be of the conflicting type as well. */
  lemma TypesOfChannel(info: BasicStats, c: Channel, t: ChannelType)
    ensures IsType(info, c, t) ==> Family(c).Some? && (t == Family(c).value.0 || t == Family(c).value.1)
    ensures Family(c).Some? && !(c.siStandard in {"atsc", "dvb"}) ==>
      (IsType(info, c, Family(c).value.0) <==> !IsType(info, c, Family(c).value.1))
    ensures c.siStandard in {"atsc", "dvb"} ==> IsType(info, c, Family(c).value.0)
  {
  }

  // ---------------------------------------------------------------------
  // CountChannels

  function OfType(info: BasicStats, t: ChannelType): Channel -> bool {
    (c: Channel) => IsType(info, c, t)
  }

  function OldOfType(info: BasicStats, t: ChannelType): Channel -> bool {
    (c: Channel) => IsType(info, c, t) && c.channelId != 0
  }

  function NewOfType(info: BasicStats, t: ChannelType): Channel -> bool {
    (c: Channel) => IsType(info, c, t) && c.channelId == 0
  }

  lemma CountIfSnoc(cs: seq<Channel>, c: Channel, p: Channel -> bool)
    ensures CountIf(cs + [c], p) == CountIf(cs, p) + (if p(c) then 1 else 0)
  {
    assert (cs + [c])[..|cs|] == cs;
  }

  /** Every channel of type `t` is either old or new. */
  lemma {:induction false} OldPlusNew(cs: seq<Channel>, info: BasicStats, t: ChannelType)
    ensures CountIf(cs, OldOfType(info, t)) + CountIf(cs, NewOfType(info, t)) == CountIf(cs, OfType(info, t))
  {
    if |cs| > 0 {
      OldPlusNew(cs[..|cs| - 1], info, t);
    }
  }

  /** The inner loop of CountChannels over one transport's channels. */
  method CountTransport(chs: seq<Channel>, info: BasicStats, t: ChannelType) returns (newChan: nat, oldChan: nat)
    ensures oldChan == CountIf(chs, OldOfType(info, t))
    ensures newChan == CountIf(chs, NewOfType(info, t))
  {
    newChan, oldChan := 0, 0;
    var j := 0;
    while j < |chs|
      invariant j <= |chs|
      invariant oldChan == CountIf(chs[..j], OldOfType(info, t))
      invariant newChan == CountIf(chs[..j], NewOfType(info, t))
    {
      var c := chs[j];
      assert chs[..j + 1][..j] == chs[..j];
      if IsType(info, c, t) {
        if c.channelId != 0 {
          oldChan := oldChan + 1;
        } else {
          newChan := newChan + 1;
        }
      }
      j := j + 1;
    }
    assert chs[..j] == chs;
  }

  /** ChannelImporter::CountChannels: the channels of type `t` already in
      the database (nonzero channel id) and those that are new. */
  method CountChannels(ts: seq<Transport>, info: BasicStats, t: ChannelType) returns (newChan: nat, oldChan: nat)
    ensures oldChan == CountIf(Flat(ts), OldOfType(info, t))
    ensures newChan == CountIf(Flat(ts), NewOfType(info, t))
    ensures newChan + oldChan == CountIf(Flat(ts), OfType(info, t))
  {
    newChan, oldChan := 0, 0;
    var i := 0;
    while i < |ts|
      invariant i <= |ts|
      invariant oldChan == CountIf(Flat(ts[..i]), OldOfType(info, t))
      invariant newChan == CountIf(Flat(ts[..i]), NewOfType(info, t))
    {
      var n, o := CountTransport(ts[i].channels, info, t);
      CountIfAppend(Flat(ts[..i]), ts[i].channels, OldOfType(info, t));
      CountIfAppend(Flat(ts[..i]), ts[i].channels, NewOfType(info, t));
      assert ts[..i + 1] == ts[..i] + [ts[i]];
      FlatPush(ts[..i], ts[i]);
      newChan, oldChan := newChan + n, oldChan + o;
      i := i + 1;
    }
    assert ts[..i] == ts;
    OldPlusNew(Flat(ts), info, t);
  }
}

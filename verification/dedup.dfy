/** ChannelImporter::CleanupDuplicates: transports of the scan that describe
    the same physical multiplex are merged into the first of them. */
module Dedup {
  import opened Channels

  /** The comparisons the importer borrows from the scan records, which are
      not part of this model:
      - `isEqual(type, a, b, range, fuzzy)` is DTVMultiplex::IsEqual, which
        compares tuning parameters only;
      - `sameChannel(a, b, relaxed)` is a.IsSameChannel(b, relaxed);
      - `importExtra(a, b)` is a after a.ImportExtraInfo(b). */
  datatype ScanOracles = ScanOracles(
    isEqual: (TunerType, Tuning, Tuning, nat, bool) -> bool,
    sameChannel: (Channel, Channel, nat) -> bool,
    importExtra: (Channel, Channel) -> Channel)

  predicate IsDvbS(t: TunerType) {
    t == DVBS1 || t == DVBS2
  }

  /** The frequency window for "same transport": 500 for satellite tuners,
      whose frequencies are in kHz, and 500 kHz (500 * 1000 Hz) otherwise. */
  function FrequencyTolerance(t: TunerType): (r: nat)
    ensures IsDvbS(t) <==> r == 500
    ensures !IsDvbS(t) <==> r == 500_000
  {
    500 * (if IsDvbS(t) then 1 else 1000)
  }

  /** The tuner type the importer assumes for the whole scan: that of the
      first transport, ATSC for an empty scan. */
  function ScanTunerType(ts: seq<Transport>): TunerType {
    if |ts| == 0 then ATSC else ts[0].tuning.tunerType
  }

  /** Applies ImportExtraInfo from `c` to every channel of `chs` that is the
      same channel as `c`; reports whether there was one. */
  function ImportInto(o: ScanOracles, chs: seq<Channel>, c: Channel): (r: (bool, seq<Channel>))
    ensures |r.1| == |chs|
    ensures r.0 <==> exists l :: 0 <= l < |chs| && o.sameChannel(c, chs[l], 0)
    ensures forall l :: 0 <= l < |chs| ==>
      r.1[l] == (if o.sameChannel(c, chs[l], 0) then o.importExtra(chs[l], c) else chs[l])
  {
    if |chs| == 0 then (false, [])
    else
      var rest := ImportInto(o, chs[1..], c);
      var head := if o.sameChannel(c, chs[0], 0) then o.importExtra(chs[0], c) else chs[0];
      assert forall l :: 1 <= l < |chs| ==> chs[1..][l - 1] == chs[l];
      (o.sameChannel(c, chs[0], 0) || rest.0, [head] + rest.1)
  }

  /** One channel of an absorbed transport: folded into every same channel,
      or appended when there is none. */
  function MergeChannel(o: ScanOracles, chs: seq<Channel>, c: Channel): (r: seq<Channel>)
    ensures |chs| <= |r| <= |chs| + 1
    ensures forall l :: 0 <= l < |chs| ==>
      r[l] == (if o.sameChannel(c, chs[l], 0) then o.importExtra(chs[l], c) else chs[l])
    ensures (exists l :: 0 <= l < |chs| && o.sameChannel(c, chs[l], 0)) ==>
      |r| == |chs| &&
      forall l :: 0 <= l < |chs| ==>
        r[l] == (if o.sameChannel(c, chs[l], 0) then o.importExtra(chs[l], c) else chs[l])
    ensures (forall l :: 0 <= l < |chs| ==> !o.sameChannel(c, chs[l], 0)) ==> r == chs + [c]
  {
    var (found, merged) := ImportInto(o, chs, c);
    if found then merged else chs + [c]
  }

  /** Channel `x` after ImportExtraInfo from each channel of `from` that is
      the same channel as it, in order. */
  function Enrich(o: ScanOracles, x: Channel, from: seq<Channel>): Channel
    decreases |from|
  {
    if |from| == 0 then x
    else Enrich(o, if o.sameChannel(from[0], x, 0) then o.importExtra(x, from[0]) else x, from[1..])
  }

  /** Enriching from two lists in turn is enriching from their concatenation. */
  lemma {:induction false} EnrichAppend(o: ScanOracles, a: seq<Channel>, b: seq<Channel>)
    ensures forall x :: Enrich(o, x, a + b) == Enrich(o, Enrich(o, x, a), b)
    decreases |a|
  {
    if |a| > 0 {
      EnrichAppend(o, a[1..], b);
      assert (a + b)[1..] == a[1..] + b;
    } else {
      assert a + b == b;
    }
  }

  /** All channels of an absorbed transport, in order. The channels already
      present stay in place, each enriched from every absorbed channel that
      is the same channel, and each absorbed channel adds at most one. */
  function AbsorbChannels(o: ScanOracles, chs: seq<Channel>, from: seq<Channel>): (r: seq<Channel>)
    ensures |chs| <= |r| <= |chs| + |from|
    ensures forall l :: 0 <= l < |chs| ==> r[l] == Enrich(o, chs[l], from)
    decreases |from|
  {
    if |from| == 0 then chs else AbsorbChannels(o, MergeChannel(o, chs, from[0]), from[1..])
  }

  /** The channels of the transports from index j on that compare equal to
      `tuning`, transport by transport. */
  ghost function EqualLater(o: ScanOracles, tt: TunerType, tol: nat, ts: seq<Transport>, j: nat, tuning: Tuning): seq<Channel>
    requires j <= |ts|
    decreases |ts| - j
  {
    if j == |ts| then []
    else (if o.isEqual(tt, tuning, ts[j].tuning, tol, false) then ts[j].channels else []) + EqualLater(o, tt, tol, ts, j + 1, tuning)
  }

  /** No two transports of the list compare equal. */
  ghost predicate NoEqualPair(o: ScanOracles, tt: TunerType, tol: nat, ts: seq<Transport>) {
    forall a, b :: 0 <= a < b < |ts| ==> !o.isEqual(tt, ts[a].tuning, ts[b].tuning, tol, false)
  }

  /** The inner loop over j > i: every later transport equal to `cur` is
      absorbed into it and marked ignored. */
  function AbsorbLater(o: ScanOracles, tt: TunerType, tol: nat, ts: seq<Transport>, j: nat,
                       cur: Transport, ignored: set<nat>): (r: (Transport, set<nat>))
    requires j <= |ts|
    ensures r.0.tuning == cur.tuning
    ensures |r.0.channels| >= |cur.channels|
    ensures forall l :: 0 <= l < |cur.channels| ==>
      r.0.channels[l] == Enrich(o, cur.channels[l], EqualLater(o, tt, tol, ts, j, cur.tuning))
    ensures ignored <= r.1
    ensures forall k :: j <= k < |ts| && o.isEqual(tt, cur.tuning, ts[k].tuning, tol, false) ==> k in r.1
    ensures forall k :: k in r.1 && k !in ignored ==>
      j <= k < |ts| && o.isEqual(tt, cur.tuning, ts[k].tuning, tol, false)
    decreases |ts| - j
  {
    if j == |ts| then (cur, ignored)
    else if !o.isEqual(tt, cur.tuning, ts[j].tuning, tol, false) then
      assert EqualLater(o, tt, tol, ts, j, cur.tuning) == EqualLater(o, tt, tol, ts, j + 1, cur.tuning);
      AbsorbLater(o, tt, tol, ts, j + 1, cur, ignored)
    else
      EnrichAppend(o, ts[j].channels, EqualLater(o, tt, tol, ts, j + 1, cur.tuning));
      AbsorbLater(o, tt, tol, ts, j + 1,
                  cur.(channels := AbsorbChannels(o, cur.channels, ts[j].channels)), ignored + {j})
  }

  /** The indices of the transports the outer loop keeps, from index i on. */
  ghost function KeptIndices(o: ScanOracles, tt: TunerType, tol: nat, ts: seq<Transport>, i: nat,
                             ignored: set<nat>): seq<nat>
    requires i <= |ts|
    decreases |ts| - i
  {
    if i == |ts| then []
    else if i in ignored then KeptIndices(o, tt, tol, ts, i + 1, ignored)
    else [i] + KeptIndices(o, tt, tol, ts, i + 1, AbsorbLater(o, tt, tol, ts, i + 1, ts[i], ignored).1)
  }

  /** Transport r[a] is the merged form of the a-th kept transport ts[idx[a]],
      and the kept indices are increasing and were never ignored. */
  ghost predicate KeptInOrder(ts: seq<Transport>, i: nat, ignored: set<nat>, idx: seq<nat>,
                              r: seq<Transport>) {
    && |idx| == |r|
    && (forall a :: 0 <= a < |r| ==>
          i <= idx[a] < |ts| && idx[a] !in ignored && r[a].tuning == ts[idx[a]].tuning
          && |r[a].channels| >= |ts[idx[a]].channels|)
    && (forall a, b :: 0 <= a < b < |idx| ==> idx[a] < idx[b])
  }

  /** The merged transport r[a] starts with the channels of ts[idx[a]], in
      place, each enriched from the channels of every later transport equal
      to it. */
  ghost predicate KeptEnriched(o: ScanOracles, tt: TunerType, tol: nat, ts: seq<Transport>, idx: seq<nat>,
                               r: seq<Transport>) {
    forall a, l :: 0 <= a < |r| && a < |idx| && idx[a] < |ts| && 0 <= l < |ts[idx[a]].channels| && l < |r[a].channels| ==>
      r[a].channels[l] == Enrich(o, ts[idx[a]].channels[l], EqualLater(o, tt, tol, ts, idx[a] + 1, ts[idx[a]].tuning))
  }

  /** The outer loop from index i on: each transport not yet ignored absorbs
      its later duplicates and is kept. */
  function DedupFrom(o: ScanOracles, tt: TunerType, tol: nat, ts: seq<Transport>, i: nat,
                     ignored: set<nat>): (r: seq<Transport>)
    requires i <= |ts|
    ensures |r| <= |ts| - i
    decreases |ts| - i
  {
    if i == |ts| then []
    else if i in ignored then DedupFrom(o, tt, tol, ts, i + 1, ignored)
    else
      var step := AbsorbLater(o, tt, tol, ts, i + 1, ts[i], ignored);
      [step.0] + DedupFrom(o, tt, tol, ts, i + 1, step.1)
  }

  /** The first transport not ignored heads the output. */
  lemma DedupFromFirst(o: ScanOracles, tt: TunerType, tol: nat, ts: seq<Transport>, i: nat, ignored: set<nat>)
    requires i <= |ts|
    ensures i < |ts| && i !in ignored ==>
      |DedupFrom(o, tt, tol, ts, i, ignored)| > 0 && DedupFrom(o, tt, tol, ts, i, ignored)[0].tuning == ts[i].tuning
  {
  }

  /** A kept transport in front of the kept transports after it. */
  lemma KeptInOrderCons(ts: seq<Transport>, i: nat, ignored: set<nat>, later: set<nat>, idx: seq<nat>,
                        head: Transport, rest: seq<Transport>)
    requires i < |ts| && i !in ignored && ignored <= later
    requires head.tuning == ts[i].tuning && |head.channels| >= |ts[i].channels|
    requires KeptInOrder(ts, i + 1, later, idx, rest)
    ensures KeptInOrder(ts, i, ignored, [i] + idx, [head] + rest)
  {
    var r := [head] + rest;
    var kept := [i] + idx;
    assert forall a :: 1 <= a < |r| ==> kept[a] == idx[a - 1] && r[a] == rest[a - 1];
  }

  /** An enriched transport in front of enriched transports. */
  lemma KeptEnrichedCons(o: ScanOracles, tt: TunerType, tol: nat, ts: seq<Transport>, i: nat, idx: seq<nat>,
                         head: Transport, rest: seq<Transport>)
    requires i < |ts|
    requires forall l :: 0 <= l < |ts[i].channels| && l < |head.channels| ==>
      head.channels[l] == Enrich(o, ts[i].channels[l], EqualLater(o, tt, tol, ts, i + 1, ts[i].tuning))
    requires KeptEnriched(o, tt, tol, ts, idx, rest)
    ensures KeptEnriched(o, tt, tol, ts, [i] + idx, [head] + rest)
  {
    var r := [head] + rest;
    var kept := [i] + idx;
    assert forall a :: 1 <= a < |r| ==> r[a] == rest[a - 1];
    assert forall a :: 1 <= a < |kept| ==> kept[a] == idx[a - 1];
  }

  /** The output lists the kept transports in their original order, each
      with its tuning and at least as many channels as it had. */
  lemma {:induction false} DedupFromKept(o: ScanOracles, tt: TunerType, tol: nat, ts: seq<Transport>,
                                         i: nat, ignored: set<nat>)
    requires i <= |ts|
    ensures KeptInOrder(ts, i, ignored, KeptIndices(o, tt, tol, ts, i, ignored), DedupFrom(o, tt, tol, ts, i, ignored))
    decreases |ts| - i
  {
    if i < |ts| {
      if i in ignored {
        DedupFromKept(o, tt, tol, ts, i + 1, ignored);
      } else {
        var step := AbsorbLater(o, tt, tol, ts, i + 1, ts[i], ignored);
        DedupFromKept(o, tt, tol, ts, i + 1, step.1);
        var rest := DedupFrom(o, tt, tol, ts, i + 1, step.1);
        var idx := KeptIndices(o, tt, tol, ts, i + 1, step.1);
        KeptInOrderCons(ts, i, ignored, step.1, idx, step.0, rest);
      }
    }
  }

  /** Each output transport holds its own channels first, in place, each
      enriched from the channels of the later transports it absorbed. */
  lemma {:induction false} DedupFromEnriched(o: ScanOracles, tt: TunerType, tol: nat, ts: seq<Transport>,
                                             i: nat, ignored: set<nat>)
    requires i <= |ts|
    ensures KeptEnriched(o, tt, tol, ts, KeptIndices(o, tt, tol, ts, i, ignored), DedupFrom(o, tt, tol, ts, i, ignored))
    decreases |ts| - i
  {
    if i < |ts| {
      if i in ignored {
        DedupFromEnriched(o, tt, tol, ts, i + 1, ignored);
      } else {
        var step := AbsorbLater(o, tt, tol, ts, i + 1, ts[i], ignored);
        DedupFromEnriched(o, tt, tol, ts, i + 1, step.1);
        var rest := DedupFrom(o, tt, tol, ts, i + 1, step.1);
        var idx := KeptIndices(o, tt, tol, ts, i + 1, step.1);
        KeptEnrichedCons(o, tt, tol, ts, i, idx, step.0, rest);
      }
    }
  }

  /** No two output transports compare equal: a later transport equal to
      an earlier kept one was absorbed by it. */
  lemma {:induction false} DedupFromNoEqual(o: ScanOracles, tt: TunerType, tol: nat, ts: seq<Transport>,
                                            i: nat, ignored: set<nat>)
    requires i <= |ts|
    ensures NoEqualPair(o, tt, tol, DedupFrom(o, tt, tol, ts, i, ignored))
    decreases |ts| - i
  {
    if i < |ts| {
      if i in ignored {
        DedupFromNoEqual(o, tt, tol, ts, i + 1, ignored);
      } else {
        var step := AbsorbLater(o, tt, tol, ts, i + 1, ts[i], ignored);
        DedupFromNoEqual(o, tt, tol, ts, i + 1, step.1);
        DedupFromKept(o, tt, tol, ts, i + 1, step.1);
        var rest := DedupFrom(o, tt, tol, ts, i + 1, step.1);
        var idx := KeptIndices(o, tt, tol, ts, i + 1, step.1);
        var r := [step.0] + rest;
        assert r == DedupFrom(o, tt, tol, ts, i, ignored);
        forall a, b | 0 <= a < b < |r|
          ensures !o.isEqual(tt, r[a].tuning, r[b].tuning, tol, false)
        {
          assert r[b] == rest[b - 1];
          if a > 0 {
            assert r[a] == rest[a - 1];
          } else {
            assert rest[b - 1].tuning == ts[idx[b - 1]].tuning && idx[b - 1] !in step.1;
          }
        }
      }
    }
  }

  /** ChannelImporter::CleanupDuplicates. */
  function CleanupDuplicates(o: ScanOracles, ts: seq<Transport>): (r: seq<Transport>)
    ensures |r| <= |ts|
    ensures |ts| > 0 ==> |r| > 0 && r[0].tuning == ts[0].tuning
    ensures KeptInOrder(ts, 0, {}, KeptIndices(o, ScanTunerType(ts), FrequencyTolerance(ScanTunerType(ts)), ts, 0, {}), r)
    ensures KeptEnriched(o, ScanTunerType(ts), FrequencyTolerance(ScanTunerType(ts)), ts,
                         KeptIndices(o, ScanTunerType(ts), FrequencyTolerance(ScanTunerType(ts)), ts, 0, {}), r)
    ensures NoEqualPair(o, ScanTunerType(ts), FrequencyTolerance(ScanTunerType(ts)), r)
  {
    var tt := ScanTunerType(ts);
    var tol := FrequencyTolerance(tt);
    DedupFromFirst(o, tt, tol, ts, 0, {});
    DedupFromKept(o, tt, tol, ts, 0, {});
    DedupFromEnriched(o, tt, tol, ts, 0, {});
    DedupFromNoEqual(o, tt, tol, ts, 0, {});
    DedupFrom(o, tt, tol, ts, 0, {})
  }

  /** With no equal pair left, the inner loop absorbs nothing. */
  lemma {:induction false} NothingToAbsorb(o: ScanOracles, tt: TunerType, tol: nat, ts: seq<Transport>,
                                           i: nat, j: nat)
    requires i < j <= |ts|
    requires NoEqualPair(o, tt, tol, ts)
    ensures AbsorbLater(o, tt, tol, ts, j, ts[i], {}) == (ts[i], {})
    decreases |ts| - j
  {
    if j < |ts| {
      NothingToAbsorb(o, tt, tol, ts, i, j + 1);
    }
  }

  /** A list with no equal pair is its own deduplication. */
  lemma {:induction false} DedupFixpoint(o: ScanOracles, tt: TunerType, tol: nat, ts: seq<Transport>, i: nat)
    requires i <= |ts|
    requires NoEqualPair(o, tt, tol, ts)
    ensures DedupFrom(o, tt, tol, ts, i, {}) == ts[i..]
    decreases |ts| - i
  {
    if i < |ts| {
      NothingToAbsorb(o, tt, tol, ts, i, i + 1);
      DedupFixpoint(o, tt, tol, ts, i + 1);
      assert ts[i..] == [ts[i]] + ts[i + 1..];
    }
  }

  /** Deduplication is idempotent: a second run changes nothing. */
  lemma CleanupDuplicatesIdempotent(o: ScanOracles, ts: seq<Transport>)
    ensures CleanupDuplicates(o, CleanupDuplicates(o, ts)) == CleanupDuplicates(o, ts)
  {
    var r := CleanupDuplicates(o, ts);
    assert ScanTunerType(r) == ScanTunerType(ts);
    var tt := ScanTunerType(ts);
    DedupFixpoint(o, tt, FrequencyTolerance(tt), r, 0);
    assert r[0..] == r;
  }
}

/** ChannelImporter::Process and the InsertChannels driver: the order in
    which a scan is cleaned up, matched with the database, pruned of
    off-air channels and imported type by type. */
module Pipeline {
  import opened Util
  import opened Channels
  import opened Dedup
  import opened Filter
  import opened DbMatch
  import opened Classify
  import opened OffAir
  import opened Insert
  import opened Update

  // ---------------------------------------------------------------------
  // The InsertChannels driver

  /** The driver leaves a channel alone when it is of none of the types the
      loop handles; the NTSC non-conflicting type is counted and skipped. */
  predicate Untouched(info: BasicStats, types: seq<ChannelType>, c: Channel) {
    forall k :: 0 <= k < |types| && types[k] != NTSCNonConflicting ==> !IsType(info, c, types[k])
  }

  /** Every question about a batch is answered "ignore all". */
  ghost predicate IgnoresAll(p: Prompts) {
    forall n, t :: p.updateQuery(n, t) == UpdateIgnoreAll && p.insertQuery(n, t) == InsertIgnoreAll
  }

  /** The old channels of type `t` after the update question, asked only
      when there are some. */
  method UpdateBatch(pers: Persistence, p: Prompts, keepNumbers: bool, info: BasicStats, t: ChannelType, oldChan: nat,
                     ts: seq<Transport>, db: Db) returns (list: seq<Transport>, db': Db)
    ensures |Flat(list)| <= |Flat(ts)|
    ensures forall c :: c in Flat(ts) && !IsType(info, c, t) ==> c in Flat(list)
    ensures db.Keys <= db'.Keys
    ensures DbWellFormed(db) && UniqueNumbers(db) ==> DbWellFormed(db') && UniqueNumbers(db')
    ensures p.updateQuery(oldChan, t) == UpdateIgnoreAll ==> db' == db
  {
    if oldChan == 0 {
      return ts, db;
    }
    var action := p.updateQuery(oldChan, t);
    var u := UpdateChannels(pers, keepNumbers, info, action, t, ts, db);
    UpdateChannelsPassThrough(pers, keepNumbers, info, action, t, ts, db);
    if DbWellFormed(db) && UniqueNumbers(db) {
      UpdateChannelsKeepsUnique(pers, keepNumbers, info, action, t, ts, db);
    }
    list, db' := u.next, u.db;
  }

  /** The new channels of type `t` after the insert question, asked only
      when there are some. */
  method InsertBatch(pers: Persistence, p: Prompts, info: BasicStats, t: ChannelType, newChan: nat,
                     ts: seq<Transport>, db: Db, counters: map<nat, nat>)
    returns (list: seq<Transport>, db': Db, counters': map<nat, nat>)
    ensures |Flat(list)| <= |Flat(ts)|
    ensures forall c :: c in Flat(ts) && !IsType(info, c, t) ==> c in Flat(list)
    ensures db.Keys <= db'.Keys
    ensures DbWellFormed(db) && UniqueNumbers(db) ==> DbWellFormed(db') && UniqueNumbers(db')
    ensures p.insertQuery(newChan, t) == InsertIgnoreAll ==> db' == db && counters' == counters
    ensures !p.interactive && !p.useGui ==> counters' == counters
  {
    if newChan == 0 {
      return ts, db, counters;
    }
    var action := p.insertQuery(newChan, t);
    var r := InsertChannels(pers, p, info, action, t, ts, db, counters);
    if DbWellFormed(db) && UniqueNumbers(db) {
      InsertChannelsKeepsUnique(pers, p, info, action, t, ts, db, counters);
    }
    list, db', counters' := r.next, r.st.db, r.st.counters;
  }

  /** One round of the driver for type `t`: count the old and new channels
      of the type still in the list, then update the old ones and insert the
      new ones; the NTSC non-conflicting type is only counted. */
  method ImportType(pers: Persistence, p: Prompts, keepNumbers: bool, info: BasicStats, t: ChannelType,
                    ts: seq<Transport>, db: Db, counters: map<nat, nat>)
    returns (list: seq<Transport>, db': Db, counters': map<nat, nat>)
    ensures |Flat(list)| <= |Flat(ts)|
    ensures forall c :: c in Flat(ts) && (t == NTSCNonConflicting || !IsType(info, c, t)) ==> c in Flat(list)
    ensures db.Keys <= db'.Keys
    ensures DbWellFormed(db) && UniqueNumbers(db) ==> DbWellFormed(db') && UniqueNumbers(db')
    ensures IgnoresAll(p) ==> db' == db && counters' == counters
    ensures !p.interactive && !p.useGui ==> counters' == counters
  {
    var newChan, oldChan := CountChannels(ts, info, t);
    if t == NTSCNonConflicting {
      return ts, db, counters;
    }
    var list1, db1 := UpdateBatch(pers, p, keepNumbers, info, t, oldChan, ts, db);
    list, db', counters' := InsertBatch(pers, p, info, t, newChan, list1, db1, counters);
  }

  /** One pass of the driver over `types`, in order. */
  method ImportTypes(pers: Persistence, p: Prompts, keepNumbers: bool, info: BasicStats, types: seq<ChannelType>,
                     ts: seq<Transport>, db: Db, counters: map<nat, nat>)
    returns (list: seq<Transport>, db': Db, counters': map<nat, nat>)
    ensures |Flat(list)| <= |Flat(ts)|
    ensures forall c :: c in Flat(ts) && Untouched(info, types, c) ==> c in Flat(list)
    ensures db.Keys <= db'.Keys
    ensures DbWellFormed(db) && UniqueNumbers(db) ==> DbWellFormed(db') && UniqueNumbers(db')
    ensures IgnoresAll(p) ==> db' == db && counters' == counters
    ensures !p.interactive && !p.useGui ==> counters' == counters
  {
    list, db', counters' := ts, db, counters;
    var i := 0;
    while i < |types|
      invariant i <= |types|
      invariant |Flat(list)| <= |Flat(ts)|
      invariant forall c :: c in Flat(ts) && Untouched(info, types, c) ==> c in Flat(list)
      invariant db.Keys <= db'.Keys
      invariant DbWellFormed(db) && UniqueNumbers(db) ==> DbWellFormed(db') && UniqueNumbers(db')
      invariant IgnoresAll(p) ==> db' == db && counters' == counters
      invariant !p.interactive && !p.useGui ==> counters' == counters
    {
      list, db', counters' := ImportType(pers, p, keepNumbers, info, types[i], list, db', counters');
      i := i + 1;
    }
  }

  datatype Imported = Imported(list: seq<Transport>, db: Db, counters: map<nat, nat>)

  /** ChannelImporter::InsertChannels(transports, info): the non-conflicting
      types first; only an interactive import goes on to the conflicting
      types. Channels of no standard, and NTSC channels with a unique ATSC
      number, are never imported; a non-interactive import leaves the
      channels that are only of a conflicting type where they were. */
  method ImportChannels(pers: Persistence, p: Prompts, keepNumbers: bool, info: BasicStats,
                        ts: seq<Transport>, db: Db, counters: map<nat, nat>) returns (r: Imported)
    ensures |Flat(r.list)| <= |Flat(ts)|
    ensures forall c :: c in Flat(ts) && Family(c).None? ==> c in Flat(r.list)
    ensures forall c :: c in Flat(ts) && IsType(info, c, NTSCNonConflicting) ==> c in Flat(r.list)
    ensures !p.interactive ==>
      forall c :: c in Flat(ts) && Family(c).Some? && !IsType(info, c, Family(c).value.0) ==> c in Flat(r.list)
    ensures db.Keys <= r.db.Keys
    ensures DbWellFormed(db) && UniqueNumbers(db) ==> DbWellFormed(r.db) && UniqueNumbers(r.db)
    ensures IgnoresAll(p) ==> r.db == db && r.counters == counters
    ensures !p.interactive && !p.useGui ==> r.counters == counters
  {
    forall c, t | Family(c).None? || IsType(info, c, NTSCNonConflicting)
      ensures t != NTSCNonConflicting ==> !IsType(info, c, t)
    {
      TypesOfChannel(info, c, t);
      TypesOfChannel(info, c, NTSCNonConflicting);
    }
    forall c, t | Family(c).Some? && !IsType(info, c, Family(c).value.0) && t in NonConflictingTypes
      ensures !IsType(info, c, t)
    {
      TypesOfChannel(info, c, t);
    }
    var list, db', counters' := ImportTypes(pers, p, keepNumbers, info, NonConflictingTypes, ts, db, counters);
    if p.interactive {
      var list2, db2, counters2 := ImportTypes(pers, p, keepNumbers, info, ConflictingTypes, list, db', counters');
      r := Imported(list2, db2, counters2);
    } else {
      r := Imported(list, db', counters');
    }
  }

  // ---------------------------------------------------------------------
  // Process

  /** The importer's settings and the parts of the outside world Process
      consults: the scan comparisons, the database readers, the multiplex
      ids of a video source, the answers to the delete question, the
      database writers and the prompts. */
  datatype Importer = Importer(
    oracles: ScanOracles,
    policy: Policy,
    fullSearch: bool,
    keepNumbers: bool,
    doDelete: bool,
    doInsert: bool,
    load: Loader,
    multiplexesOf: nat -> Option<seq<nat>>,
    deleteQuery: nat -> DeleteAction,
    pers: Persistence,
    prompts: Prompts)

  /** The scan after duplicate transports are merged and unwanted services
      dropped. */
  function Cleaned(imp: Importer, ts: seq<Transport>): (r: seq<Transport>)
    ensures |ts| > 0 <==> |r| > 0
    ensures |r| > 0 ==> r[0].tuning == ts[0].tuning
    ensures forall k :: 0 <= k < |r| ==> forall c :: c in r[k].channels ==> !Excluded(imp.policy, c)
  {
    FilterServices(imp.policy, CleanupDuplicates(imp.oracles, ts))
  }

  /** The source id line 110 reads: that of the first channel of the first
      transport, which it indexes without checking. */
  function ScanSourceId(ts: seq<Transport>): (src: nat)
    requires |ts| > 0 && |ts[0].channels| > 0
    ensures exists c :: c in Flat(ts) && c.sourceId == src
  {
    assert ts[0].channels[0] in Flat(ts) by { FlatPush([], ts[0]); FlatAppend([ts[0]], ts[1..]); assert ts == [ts[0]] + ts[1..]; }
    ts[0].channels[0].sourceId
  }

  /** The first transport of a non-empty scan can lose all its channels to
      the filter, and then the read on line 110 is out of bounds. */
  lemma FirstChannelMayBeFiltered(o: ScanOracles, p: Policy, tuning: Tuning, c: Channel)
    requires p.ftaOnly && c.isEncrypted && c.decryptionStatus != EncDecrypted
    ensures |FilterServices(p, CleanupDuplicates(o, [Transport(tuning, [c])]))| > 0
    ensures |FilterServices(p, CleanupDuplicates(o, [Transport(tuning, [c])]))[0].channels| == 0
  {
    var ts := [Transport(tuning, [c])];
    var tt := ScanTunerType(ts);
    DedupFixpoint(o, tt, FrequencyTolerance(tt), ts, 0);
    assert CleanupDuplicates(o, ts) == ts;
    var kept := FilterServices(p, ts)[0].channels;
    assert forall x :: x !in kept;
  }

  /** The source id with the read guarded: the caller's source id when the
      first transport has no channel left. */
  function ScanSourceIdChecked(ts: seq<Transport>, given: nat): (src: nat)
    ensures |ts| > 0 && |ts[0].channels| > 0 ==> src == ScanSourceId(ts)
    ensures !(|ts| > 0 && |ts[0].channels| > 0) ==> src == given
  {
    if |ts| > 0 && |ts[0].channels| > 0 then ts[0].channels[0].sourceId else given
  }

  datatype Processed = Processed(list: seq<Transport>, db: Db, counters: map<nat, nat>)

  /** Deleting rows keeps the numbers that remain unique. */
  lemma {:induction false} RemoveKeepsUnique(db: Db, ids: set<nat>)
    ensures DbWellFormed(db) && UniqueNumbers(db) ==> DbWellFormed(db - ids) && UniqueNumbers(db - ids)
  {
    if DbWellFormed(db) && UniqueNumbers(db) {
      forall a, b | a in db - ids && b in db - ids && a != b && (db - ids)[a].sourceId == (db - ids)[b].sourceId
        ensures (db - ids)[a].chanNum != (db - ids)[b].chanNum
      {
        assert (db - ids)[a] == db[a] && (db - ids)[b] == db[b];
      }
    }
  }

  /** The scan and the database after the off-air step: when deleting is
      on, the database multiplexes missing from the scan join it for
      DeleteChannels, and the joined list, without its off-air channels,
      replaces the scan only when channels were deleted. */
  function Prune(imp: Importer, transports: seq<Transport>, notInScan: seq<Transport>, db: Db): (r: (seq<Transport>, Db))
    ensures !imp.doDelete ==> r == (transports, db)
    ensures imp.doDelete ==>
      var trans := transports + notInScan;
      var n := CountIf(Flat(trans), OffAirP());
      && (n > 0 && imp.deleteQuery(n) == DeleteAll ==> r.0 == RemoveOffAir(trans) && r.1 == db - OffAirIds(trans))
      && (n == 0 || imp.deleteQuery(n) in {DeleteIgnoreAll, DeleteManual} ==> r == (transports, db))
      && (n > 0 && imp.deleteQuery(n) == DeleteInvisibleAll ==>
            && r.0 == transports && r.1.Keys == db.Keys
            && (forall id :: id in db && id in OffAirIds(trans) ==> Hidden(db[id], r.1[id]))
            && (forall id :: id in db && id !in OffAirIds(trans) ==> r.1[id] == db[id]))
    ensures DbWellFormed(db) && UniqueNumbers(db) && (forall n :: imp.deleteQuery(n) != DeleteInvisibleAll) ==>
      DbWellFormed(r.1) && UniqueNumbers(r.1)
  {
    if !imp.doDelete then (transports, db)
    else
      var trans := transports + notInScan;
      var deleted := DeleteChannels(trans, db, imp.deleteQuery);
      RemoveKeepsUnique(db, OffAirIds(trans));
      (if deleted.count != 0 then deleted.transports else transports, deleted.db)
  }

  /** The part of Process before any channel is written: duplicates and
      unwanted services dropped, the scan matched against the source's
      multiplexes, OpenCable channels fixed up and, when asked, the
      channels that are off the air deleted. */
  method Prepare(imp: Importer, ts: seq<Transport>, sourceId: nat, db: Db) returns (transports: seq<Transport>, db': Db)
    ensures !imp.doDelete ==> db' == db
    ensures DbWellFormed(db) && UniqueNumbers(db) && (forall n :: imp.deleteQuery(n) != DeleteInvisibleAll) ==>
      DbWellFormed(db') && UniqueNumbers(db')
  {
    var scanned := Cleaned(imp, ts);
    var src := ScanSourceIdChecked(scanned, sourceId);
    var matched := GetDBTransports(imp.oracles, imp.fullSearch, imp.load, imp.multiplexesOf(src), scanned);
    var pruned := Prune(imp, FixUpOpenCable(matched.transports), matched.notInScan, db);
    transports, db' := pruned.0, pruned.1;
  }

  /** ChannelImporter::Process. An empty scan changes nothing. Otherwise
      the scan is deduplicated and filtered, matched with the database of
      its video source, marked for OpenCable, pruned of off-air channels
      when deleting is on, and imported when inserting is on. */
  method Process(imp: Importer, ts: seq<Transport>, sourceId: nat, db: Db, counters: map<nat, nat>)
    returns (r: Processed)
    ensures |ts| == 0 ==> r == Processed([], db, counters)
    ensures !imp.doDelete && !imp.doInsert ==> r.db == db && r.counters == counters
    ensures !imp.doDelete ==> db.Keys <= r.db.Keys
    ensures !imp.doInsert ==> r.counters == counters
    ensures imp.doInsert && IgnoresAll(imp.prompts) ==> r.counters == counters
    ensures !imp.doDelete && IgnoresAll(imp.prompts) ==> r.db == db
    ensures DbWellFormed(db) && UniqueNumbers(db) && (forall n :: imp.deleteQuery(n) != DeleteInvisibleAll) ==>
      DbWellFormed(r.db) && UniqueNumbers(r.db)
  {
    if |ts| == 0 {
      return Processed([], db, counters);
    }
    var transports, d := Prepare(imp, ts, sourceId, db);
    if !imp.doInsert {
      return Processed(transports, d, counters);
    }
    var info := CollectStats(transports);
    var imported := ImportChannels(imp.pers, imp.prompts, imp.keepNumbers, info, transports, d, counters);
    r := Processed(imported.list, imported.db, imported.counters);
  }
}

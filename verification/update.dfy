/** ChannelImporter::UpdateChannels for one channel type: channels the
    database already holds (nonzero channel id) are written back with the
    scanned data, keeping or repairing their channel number. */
module Update {
  import opened Util
  import opened Channels
  import opened Classify
  import opened Numbering
  import opened Insert

  /** ChannelUtil::UpdateChannelNumberFromDB: the stored number replaces the
      scanned one when the database has a non-empty one. */
  function NumberFromDb(db: Db, c: Channel): string {
    if c.channelId in db && db[c.channelId].chanNum != "" then db[c.channelId].chanNum else c.chanNum
  }

  /** The visibility UpdateChannel writes: a forced setting (always or
      never visible) stays, anything else follows the scan's hidden flag. */
  function WrittenVisibility(v: Visibility, hidden: bool): (w: Visibility)
    ensures w == AlwaysVisible <==> v == AlwaysVisible
    ensures w == NeverVisible <==> v == NeverVisible
    ensures w !in {AlwaysVisible, NeverVisible} ==> (w == NotVisible <==> hidden)
  {
    if v == AlwaysVisible || v == NeverVisible then v
    else if hidden then NotVisible else Visible
  }

  datatype UpdStep = UpdStep(route: Route, chan: Channel, db: Db)

  /** The row UpdateChannel writes for channel `c`. */
  function UpdatedRow(c: Channel): DbChannel {
    DbChannel(c.sourceId, c.chanNum, c.dbMplexId, WrittenVisibility(c.visible, c.hidden), c.useOnAirGuide)
  }

  /** The fields written back besides the number: the visibility and the
      guide flag the database holds for the channel, and the multiplex id
      GetBetterMplexID offers, if any. */
  predicate Refreshed(pers: Persistence, db: Db, chan: Channel, c: Channel) {
    && c.visible == (if chan.channelId in db then db[chan.channelId].visible else chan.visible)
    && c.useOnAirGuide == (if chan.channelId in db then db[chan.channelId].useOnAirGuide else chan.useOnAirGuide)
    && var better := pers.betterMplexId(db, chan.dbMplexId, TransportStreamId(chan), chan.origNetId);
       c.dbMplexId == if better >= 0 then better as nat else chan.dbMplexId
  }

  /** UpdateInsertInfoFromDB, GetBetterMplexID and UpdateChannel for a
      channel whose new number `num` is free. */
  function WriteBack(pers: Persistence, chan: Channel, num: string, db: Db): (r: UpdStep)
    ensures r.route == ToDone || r.route == ToRemaining
    ensures r.chan.channelId == chan.channelId && r.chan.sourceId == chan.sourceId && r.chan.chanNum == num
    ensures r.route == ToDone ==> r.db == db[chan.channelId := UpdatedRow(r.chan)]
    ensures r.route == ToRemaining ==> r.db == db
    ensures r.route == ToDone <==> pers.updateChannel(db, r.chan)
    ensures chan.channelId in db ==>
      r.chan.visible == db[chan.channelId].visible && r.chan.useOnAirGuide == db[chan.channelId].useOnAirGuide
    ensures chan.channelId !in db ==> r.chan.visible == chan.visible && r.chan.useOnAirGuide == chan.useOnAirGuide
    ensures var better := pers.betterMplexId(db, chan.dbMplexId, TransportStreamId(chan), chan.origNetId);
            r.chan.dbMplexId == if better >= 0 then better as nat else chan.dbMplexId
    ensures r.chan == chan.(chanNum := num, visible := r.chan.visible, useOnAirGuide := r.chan.useOnAirGuide,
                            dbMplexId := r.chan.dbMplexId)
  {
    var id := chan.channelId;
    var vis := if id in db then db[id].visible else chan.visible;
    var guide := if id in db then db[id].useOnAirGuide else chan.useOnAirGuide;
    var better := pers.betterMplexId(db, chan.dbMplexId, TransportStreamId(chan), chan.origNetId);
    var mplex := if better >= 0 then better as nat else chan.dbMplexId;
    var c := chan.(chanNum := num, visible := vis, useOnAirGuide := guide, dbMplexId := mplex);
    if pers.updateChannel(db, c) then UpdStep(ToDone, c, db[id := UpdatedRow(c)])
    else UpdStep(ToRemaining, c, db)
  }

  /** The handled case of UpdateChannels' inner loop: keep or repair the
      number, leaving the channel's own row out of the check; a number
      that stays taken sends the channel to both the skipped and the
      remaining list. */
  function UpdateHandled(pers: Persistence, keepNumbers: bool, t: ChannelType, chan: Channel, db: Db): (r: UpdStep)
    ensures r.route != ToSkipped
    ensures r.chan.channelId == chan.channelId && r.chan.sourceId == chan.sourceId
    ensures r.route == ToBoth ==> r.db == db && IsConflicting(db, r.chan.chanNum, chan.sourceId, chan.channelId)
    ensures r.route == ToDone ==>
      && |r.chan.chanNum| >= 1 && !IsConflicting(db, r.chan.chanNum, chan.sourceId, chan.channelId)
      && r.db == db[chan.channelId := UpdatedRow(r.chan)]
    ensures r.route == ToDone && keepNumbers && chan.channelId in db && db[chan.channelId].chanNum != "" &&
            !IsConflicting(db, db[chan.channelId].chanNum, chan.sourceId, chan.channelId) ==>
      r.chan.chanNum == db[chan.channelId].chanNum
    ensures r.route != ToDone ==> r.db == db
    ensures var num0 := if keepNumbers then NumberFromDb(db, chan) else chan.chanNum;
            && (num0 != "" && !IsConflicting(db, num0, chan.sourceId, chan.channelId) ==>
                  r.chan.chanNum == num0 && r.route != ToBoth)
            && (num0 == "" || IsConflicting(db, num0, chan.sourceId, chan.channelId) ==>
                  r.chan.chanNum == DefaultChanNum(chan, t.ATSCNonConflicting?))
    ensures r.route == ToBoth ==> r.chan == chan.(chanNum := r.chan.chanNum)
    ensures r.chan == chan.(chanNum := r.chan.chanNum, visible := r.chan.visible, useOnAirGuide := r.chan.useOnAirGuide,
                            dbMplexId := r.chan.dbMplexId)
    ensures r.route == ToBoth <==> IsConflicting(db, r.chan.chanNum, chan.sourceId, chan.channelId)
    ensures r.route != ToBoth ==> Refreshed(pers, db, chan, r.chan) && (r.route == ToDone <==> pers.updateChannel(db, r.chan))
  {
    var num0 := if keepNumbers then NumberFromDb(db, chan) else chan.chanNum;
    var rn := Renumber(db, chan, num0, t.ATSCNonConflicting?, chan.channelId, false);
    if rn.1 then UpdStep(ToBoth, chan.(chanNum := rn.0), db)
    else WriteBack(pers, chan, rn.0, db)
  }

  /** The body of UpdateChannels' inner loop, for one channel. */
  function UpdateOne(pers: Persistence, keepNumbers: bool, info: BasicStats, action: UpdateAction, t: ChannelType,
                     chan: Channel, db: Db): (r: UpdStep)
    ensures !IsOld(info, t, chan) ==> r == UpdStep(ToRemaining, chan, db)
    ensures IsOld(info, t, chan) && action == UpdateIgnoreAll ==> r == UpdStep(ToSkipped, chan, db)
    ensures r.route == ToSkipped <==> IsOld(info, t, chan) && action == UpdateIgnoreAll
    ensures r.route in {ToDone, ToBoth} ==> IsOld(info, t, chan) && action != UpdateIgnoreAll
    ensures r.chan.channelId == chan.channelId && r.chan.sourceId == chan.sourceId
    ensures r.route == ToBoth ==> r.db == db && IsConflicting(db, r.chan.chanNum, chan.sourceId, chan.channelId)
    ensures r.route == ToDone ==>
      && |r.chan.chanNum| >= 1 && !IsConflicting(db, r.chan.chanNum, chan.sourceId, chan.channelId)
      && r.db == db[chan.channelId := UpdatedRow(r.chan)]
    ensures r.route != ToDone ==> r.db == db
    ensures IsOld(info, t, chan) && action != UpdateIgnoreAll ==>
      var num0 := if keepNumbers then NumberFromDb(db, chan) else chan.chanNum;
      && r.chan.chanNum == (if num0 != "" && !IsConflicting(db, num0, chan.sourceId, chan.channelId) then num0
                            else DefaultChanNum(chan, t.ATSCNonConflicting?))
      && (r.route == ToBoth <==> IsConflicting(db, r.chan.chanNum, chan.sourceId, chan.channelId))
      && (r.route != ToBoth ==> Refreshed(pers, db, chan, r.chan))
    ensures r.route == ToDone <==>
      && IsOld(info, t, chan) && action != UpdateIgnoreAll
      && !IsConflicting(db, r.chan.chanNum, chan.sourceId, chan.channelId) && pers.updateChannel(db, r.chan)
  {
    var isOld := IsOld(info, t, chan);
    var filter := isOld && action == UpdateIgnoreAll;
    if isOld && !filter then UpdateHandled(pers, keepNumbers, t, chan, db)
    else UpdStep(if filter then ToSkipped else ToRemaining, chan, db)
  }

  /** Updating one channel keeps every source's channel numbers distinct. */
  lemma UpdateOneKeepsUnique(pers: Persistence, keepNumbers: bool, info: BasicStats, action: UpdateAction, t: ChannelType,
                             chan: Channel, db: Db)
    requires DbWellFormed(db) && UniqueNumbers(db)
    ensures DbWellFormed(UpdateOne(pers, keepNumbers, info, action, t, chan, db).db)
    ensures UniqueNumbers(UpdateOne(pers, keepNumbers, info, action, t, chan, db).db)
  {
    var r := UpdateOne(pers, keepNumbers, info, action, t, chan, db);
    if r.route == ToDone {
      StoreKeepsUnique(db, chan.channelId, r.db[chan.channelId]);
    }
  }

  /** The three per-transport copies, the database, and how many channels
      went to both the skipped and the remaining copy. */
  datatype UpdSorted = UpdSorted(remaining: Transport, done: Transport, skipped: Transport, db: Db, conflicts: nat)

  /** Files one channel into the copies its route names. */
  function UpdPlace(prev: UpdSorted, transport: Transport, s: UpdStep): (r: UpdSorted)
    requires CopyOf(prev.remaining, transport) && CopyOf(prev.done, transport) && CopyOf(prev.skipped, transport)
    ensures CopyOf(r.remaining, transport) && CopyOf(r.done, transport) && CopyOf(r.skipped, transport)
    ensures r.db == s.db
    ensures r.remaining.channels == prev.remaining.channels + (if s.route in {ToRemaining, ToBoth} then [s.chan] else [])
    ensures r.done.channels == prev.done.channels + (if s.route == ToDone then [s.chan] else [])
    ensures r.skipped.channels == prev.skipped.channels + (if s.route in {ToSkipped, ToBoth} then [s.chan] else [])
    ensures r.conflicts == prev.conflicts + (if s.route == ToBoth then 1 else 0)
  {
    match s.route
    case ToDone => UpdSorted(prev.remaining, AddChanToCopy(prev.done, transport, s.chan), prev.skipped, s.db, prev.conflicts)
    case ToSkipped => UpdSorted(prev.remaining, prev.done, AddChanToCopy(prev.skipped, transport, s.chan), s.db, prev.conflicts)
    case ToRemaining => UpdSorted(AddChanToCopy(prev.remaining, transport, s.chan), prev.done, prev.skipped, s.db, prev.conflicts)
    case ToBoth =>
      UpdSorted(AddChanToCopy(prev.remaining, transport, s.chan), prev.done, AddChanToCopy(prev.skipped, transport, s.chan),
                s.db, prev.conflicts + 1)
  }

  /** The inner loop of UpdateChannels over the channels of a transport. */
  function UpdateChans(pers: Persistence, keepNumbers: bool, info: BasicStats, action: UpdateAction, t: ChannelType,
                       transport: Transport, chs: seq<Channel>, db: Db): (r: UpdSorted)
    ensures CopyOf(r.remaining, transport) && CopyOf(r.done, transport) && CopyOf(r.skipped, transport)
    ensures |r.remaining.channels| + |r.done.channels| + |r.skipped.channels| == |chs| + r.conflicts
    ensures r.conflicts <= |r.skipped.channels|
    ensures forall c :: c in r.skipped.channels ==> c.channelId != 0
    ensures action == UpdateIgnoreAll ==> r.done.channels == [] && r.db == db && r.conflicts == 0
    ensures db.Keys <= r.db.Keys
    ensures forall c :: c in r.done.channels ==> c.channelId in r.db
  {
    if |chs| == 0 then UpdSorted(EmptyCopy, EmptyCopy, EmptyCopy, db, 0)
    else
      var prev := UpdateChans(pers, keepNumbers, info, action, t, transport, chs[..|chs| - 1], db);
      var chan := chs[|chs| - 1];
      var s := UpdateOne(pers, keepNumbers, info, action, t, chan, prev.db);
      UpdPlace(prev, transport, s)
  }

  /** Channels the call does not work on stay in the remaining list. */
  lemma {:induction false} UpdateChansPassThrough(pers: Persistence, keepNumbers: bool, info: BasicStats, action: UpdateAction,
                                                  t: ChannelType, transport: Transport, chs: seq<Channel>, db: Db)
    ensures forall c :: c in chs && !IsOld(info, t, c) ==>
      c in UpdateChans(pers, keepNumbers, info, action, t, transport, chs, db).remaining.channels
  {
    if |chs| > 0 {
      var init := chs[..|chs| - 1];
      UpdateChansPassThrough(pers, keepNumbers, info, action, t, transport, init, db);
    }
  }

  /** Ignoring all skips exactly the old channels of the type. */
  lemma {:induction false} UpdateChansIgnoreAll(pers: Persistence, keepNumbers: bool, info: BasicStats, action: UpdateAction,
                                                t: ChannelType, transport: Transport, chs: seq<Channel>, db: Db)
    requires action == UpdateIgnoreAll
    ensures
      |UpdateChans(pers, keepNumbers, info, action, t, transport, chs, db).skipped.channels| == CountIf(chs, OldOfType(info, t))
  {
    if |chs| > 0 {
      UpdateChansIgnoreAll(pers, keepNumbers, info, action, t, transport, chs[..|chs| - 1], db);
    }
  }

  lemma {:induction false} UpdateChansKeepsUnique(pers: Persistence, keepNumbers: bool, info: BasicStats, action: UpdateAction,
                                                  t: ChannelType, transport: Transport, chs: seq<Channel>, db: Db)
    requires DbWellFormed(db) && UniqueNumbers(db)
    ensures DbWellFormed(UpdateChans(pers, keepNumbers, info, action, t, transport, chs, db).db)
    ensures UniqueNumbers(UpdateChans(pers, keepNumbers, info, action, t, transport, chs, db).db)
  {
    if |chs| > 0 {
      var prev := UpdateChans(pers, keepNumbers, info, action, t, transport, chs[..|chs| - 1], db);
      UpdateChansKeepsUnique(pers, keepNumbers, info, action, t, transport, chs[..|chs| - 1], db);
      UpdateOneKeepsUnique(pers, keepNumbers, info, action, t, chs[|chs| - 1], prev.db);
    }
  }

  // ---------------------------------------------------------------------
  // The channel-by-channel trace of a call

  function UpdRoute(s: UpdStep): Route { s.route }
  function UpdChan(s: UpdStep): Channel { s.chan }
  function UpdDb(s: UpdStep): Db { s.db }

  /** What UpdateOne promises about channel `c` handled against `db`. */
  predicate UpdateStepFrom(pers: Persistence, keepNumbers: bool, info: BasicStats, t: ChannelType, action: UpdateAction,
                           c: Channel, db: Db, s: UpdStep) {
    && (!IsOld(info, t, c) ==> s == UpdStep(ToRemaining, c, db))
    && (s.route == ToSkipped <==> IsOld(info, t, c) && action == UpdateIgnoreAll)
    && (s.route == ToSkipped ==> s == UpdStep(ToSkipped, c, db))
    && (s.route in {ToDone, ToBoth} ==> IsOld(info, t, c) && action != UpdateIgnoreAll)
    && s.chan == c.(chanNum := s.chan.chanNum, visible := s.chan.visible, useOnAirGuide := s.chan.useOnAirGuide,
                    dbMplexId := s.chan.dbMplexId)
    && (s.route == ToBoth ==>
          s.chan == c.(chanNum := s.chan.chanNum) && IsConflicting(db, s.chan.chanNum, c.sourceId, c.channelId))
    && (s.route == ToDone ==>
          && |s.chan.chanNum| >= 1 && !IsConflicting(db, s.chan.chanNum, c.sourceId, c.channelId)
          && s.db == db[c.channelId := UpdatedRow(s.chan)])
    && (s.route != ToDone ==> s.db == db)
    && (IsOld(info, t, c) && action != UpdateIgnoreAll ==>
          var num0 := if keepNumbers then NumberFromDb(db, c) else c.chanNum;
          && (num0 != "" && !IsConflicting(db, num0, c.sourceId, c.channelId) ==> s.chan.chanNum == num0)
          && (num0 == "" || IsConflicting(db, num0, c.sourceId, c.channelId) ==>
                s.chan.chanNum == DefaultChanNum(c, t.ATSCNonConflicting?))
          && (s.route == ToBoth <==> IsConflicting(db, s.chan.chanNum, c.sourceId, c.channelId))
          && (s.route != ToBoth ==> Refreshed(pers, db, c, s.chan)))
    && (s.route == ToDone <==>
          && IsOld(info, t, c) && action != UpdateIgnoreAll
          && !IsConflicting(db, s.chan.chanNum, c.sourceId, c.channelId) && pers.updateChannel(db, s.chan))
  }

  function UpdateOk(pers: Persistence, keepNumbers: bool, info: BasicStats, t: ChannelType, action: UpdateAction)
    : (Channel, Db, UpdStep) -> bool
  {
    (c, db, s) => UpdateStepFrom(pers, keepNumbers, info, t, action, c, db, s)
  }

  /** UpdateOne keeps the promises of a step. */
  lemma UpdateOneOk(pers: Persistence, keepNumbers: bool, info: BasicStats, action: UpdateAction, t: ChannelType,
                    chan: Channel, db: Db)
    ensures UpdateOk(pers, keepNumbers, info, t, action)(chan, db, UpdateOne(pers, keepNumbers, info, action, t, chan, db))
  {
    assert UpdateStepFrom(pers, keepNumbers, info, t, action, chan, db, UpdateOne(pers, keepNumbers, info, action, t, chan, db));
  }

  /** Filing one more step keeps the copies equal to the routed channels. */
  lemma UpdSplitStep(prev: UpdSorted, steps: seq<UpdStep>, db: Db, transport: Transport, s: UpdStep)
    requires CopyOf(prev.remaining, transport) && CopyOf(prev.done, transport) && CopyOf(prev.skipped, transport)
    requires && prev.remaining.channels == Routed(steps, UpdRoute, UpdChan, RemainingCopy)
             && prev.done.channels == Routed(steps, UpdRoute, UpdChan, DoneCopy)
             && prev.skipped.channels == Routed(steps, UpdRoute, UpdChan, SkippedCopy)
             && prev.db == Before(steps, UpdDb, db, |steps|)
    ensures var r := UpdPlace(prev, transport, s);
            && r.remaining.channels == Routed(steps + [s], UpdRoute, UpdChan, RemainingCopy)
            && r.done.channels == Routed(steps + [s], UpdRoute, UpdChan, DoneCopy)
            && r.skipped.channels == Routed(steps + [s], UpdRoute, UpdChan, SkippedCopy)
            && r.db == Before(steps + [s], UpdDb, db, |steps| + 1)
  {
    RoutedPush(steps, s, UpdRoute, UpdChan, RemainingCopy);
    RoutedPush(steps, s, UpdRoute, UpdChan, DoneCopy);
    RoutedPush(steps, s, UpdRoute, UpdChan, SkippedCopy);
  }

  datatype UpdateResult = UpdateResult(next: seq<Transport>, done: seq<Transport>, skipped: seq<Transport>, db: Db, conflicts: nat)

  /** ChannelImporter::UpdateChannels for one type: returns the channels
      not updated, the updated and skipped lists, the database, and how
      many channels were skipped for a taken number (these are also among
      the channels not updated). */
  function UpdateChannels(pers: Persistence, keepNumbers: bool, info: BasicStats, action: UpdateAction, t: ChannelType,
                          ts: seq<Transport>, db: Db): (r: UpdateResult)
    ensures |Flat(r.next)| + |Flat(r.done)| + |Flat(r.skipped)| == |Flat(ts)| + r.conflicts
    ensures r.conflicts <= |Flat(r.skipped)|
    ensures forall c :: c in Flat(r.skipped) ==> c.channelId != 0
    ensures action == UpdateIgnoreAll ==> r.done == [] && r.db == db && r.conflicts == 0
    ensures db.Keys <= r.db.Keys
    ensures forall c :: c in Flat(r.done) ==> c.channelId in r.db
  {
    if |ts| == 0 then UpdateResult([], [], [], db, 0)
    else
      var init := ts[..|ts| - 1];
      var transport := ts[|ts| - 1];
      var prev := UpdateChannels(pers, keepNumbers, info, action, t, init, db);
      var s := UpdateChans(pers, keepNumbers, info, action, t, transport, transport.channels, prev.db);
      UpdateResult(PushIfAny(prev.next, s.remaining), PushIfAny(prev.done, s.done), PushIfAny(prev.skipped, s.skipped),
                   s.db, prev.conflicts + s.conflicts)
  }

  /** Channels the call does not work on stay in the list it returns. */
  lemma {:induction false} UpdateChannelsPassThrough(pers: Persistence, keepNumbers: bool, info: BasicStats, action: UpdateAction,
                                                     t: ChannelType, ts: seq<Transport>, db: Db)
    ensures forall c :: c in Flat(ts) && !IsOld(info, t, c) ==> c in Flat(UpdateChannels(pers, keepNumbers, info, action, t, ts, db).next)
  {
    if |ts| > 0 {
      var init := ts[..|ts| - 1];
      var transport := ts[|ts| - 1];
      var prev := UpdateChannels(pers, keepNumbers, info, action, t, init, db);
      UpdateChannelsPassThrough(pers, keepNumbers, info, action, t, init, db);
      UpdateChansPassThrough(pers, keepNumbers, info, action, t, transport, transport.channels, prev.db);
    }
  }

  /** Ignoring all skips exactly the old channels of the type and
      changes nothing. */
  lemma {:induction false} UpdateChannelsIgnoreAll(pers: Persistence, keepNumbers: bool, info: BasicStats, action: UpdateAction,
                                                   t: ChannelType, ts: seq<Transport>, db: Db)
    requires action == UpdateIgnoreAll
    ensures |Flat(UpdateChannels(pers, keepNumbers, info, action, t, ts, db).skipped)| == CountIf(Flat(ts), OldOfType(info, t))
  {
    if |ts| == 0 {
      assert UpdateChannels(pers, keepNumbers, info, action, t, ts, db).skipped == [];
    } else {
      var init := ts[..|ts| - 1];
      var transport := ts[|ts| - 1];
      UpdateChannelsIgnoreAll(pers, keepNumbers, info, action, t, init, db);
      var prev := UpdateChannels(pers, keepNumbers, info, action, t, init, db);
      UpdateChansIgnoreAll(pers, keepNumbers, info, action, t, transport, transport.channels, prev.db);
      CountIfAppend(Flat(init), transport.channels, OldOfType(info, t));
    }
  }

  /** Updating never gives two channels of one source the same number. */
  lemma {:induction false} UpdateChannelsKeepsUnique(pers: Persistence, keepNumbers: bool, info: BasicStats, action: UpdateAction,
                                                     t: ChannelType, ts: seq<Transport>, db: Db)
    requires DbWellFormed(db) && UniqueNumbers(db)
    ensures DbWellFormed(UpdateChannels(pers, keepNumbers, info, action, t, ts, db).db)
    ensures UniqueNumbers(UpdateChannels(pers, keepNumbers, info, action, t, ts, db).db)
  {
    if |ts| > 0 {
      var init := ts[..|ts| - 1];
      var transport := ts[|ts| - 1];
      var prev := UpdateChannels(pers, keepNumbers, info, action, t, init, db);
      UpdateChannelsKeepsUnique(pers, keepNumbers, info, action, t, init, db);
      UpdateChansKeepsUnique(pers, keepNumbers, info, action, t, transport, transport.channels, prev.db);
    }
  }

  // ---------------------------------------------------------------------
  // The two loops over an arbitrary step function, and their traces

  /** UpdateChans with the step `one` in place of UpdateOne. */
  function UpdLoop(one: (Channel, Db) -> UpdStep, transport: Transport, chs: seq<Channel>, db: Db): (r: UpdSorted)
    ensures CopyOf(r.remaining, transport) && CopyOf(r.done, transport) && CopyOf(r.skipped, transport)
  {
    if |chs| == 0 then UpdSorted(EmptyCopy, EmptyCopy, EmptyCopy, db, 0)
    else
      var prev := UpdLoop(one, transport, chs[..|chs| - 1], db);
      UpdPlace(prev, transport, one(chs[|chs| - 1], prev.db))
  }

  /** UpdateChannels with the step `one` in place of UpdateOne. */
  function UpdListLoop(one: (Channel, Db) -> UpdStep, ts: seq<Transport>, db: Db): (r: UpdateResult) {
    if |ts| == 0 then UpdateResult([], [], [], db, 0)
    else
      var transport := ts[|ts| - 1];
      var prev := UpdListLoop(one, ts[..|ts| - 1], db);
      var s := UpdLoop(one, transport, transport.channels, prev.db);
      UpdateResult(PushIfAny(prev.next, s.remaining), PushIfAny(prev.done, s.done), PushIfAny(prev.skipped, s.skipped),
                   s.db, prev.conflicts + s.conflicts)
  }

  /** The steps over every transport's channels in turn. */
  ghost function ListLoopSteps(one: (Channel, Db) -> UpdStep, ts: seq<Transport>, db: Db): (r: seq<UpdStep>)
    ensures |r| == |Flat(ts)|
  {
    if |ts| == 0 then []
    else
      var prev := ListLoopSteps(one, ts[..|ts| - 1], db);
      prev + LoopSteps(one, UpdDb, ts[|ts| - 1].channels, Before(prev, UpdDb, db, |prev|))
  }

  /** The copies UpdLoop fills are exactly the channels its steps route
      there, and its database is the last step's. */
  lemma {:induction false} LoopSplit(one: (Channel, Db) -> UpdStep, transport: Transport, chs: seq<Channel>, db: Db)
    ensures var r := UpdLoop(one, transport, chs, db);
            var steps := LoopSteps(one, UpdDb, chs, db);
            && r.remaining.channels == Routed(steps, UpdRoute, UpdChan, RemainingCopy)
            && r.done.channels == Routed(steps, UpdRoute, UpdChan, DoneCopy)
            && r.skipped.channels == Routed(steps, UpdRoute, UpdChan, SkippedCopy)
            && r.db == Before(steps, UpdDb, db, |steps|)
  {
    if |chs| > 0 {
      var n := |chs| - 1;
      var prevR := UpdLoop(one, transport, chs[..n], db);
      var prevS := LoopSteps(one, UpdDb, chs[..n], db);
      LoopSplit(one, transport, chs[..n], db);
      UpdSplitStep(prevR, prevS, db, transport, one(chs[n], prevR.db));
    }
  }

  lemma UpdListLoopLast(one: (Channel, Db) -> UpdStep, ts: seq<Transport>, db: Db)
    requires |ts| > 0
    ensures var prev := UpdListLoop(one, ts[..|ts| - 1], db);
            var s := UpdLoop(one, ts[|ts| - 1], ts[|ts| - 1].channels, prev.db);
            var r := UpdListLoop(one, ts, db);
            && Flat(r.next) == Flat(prev.next) + s.remaining.channels
            && Flat(r.done) == Flat(prev.done) + s.done.channels
            && Flat(r.skipped) == Flat(prev.skipped) + s.skipped.channels
            && r.db == s.db
  {
  }

  lemma ListLoopStepsLast(one: (Channel, Db) -> UpdStep, ts: seq<Transport>, db: Db)
    requires |ts| > 0
    ensures var prev := ListLoopSteps(one, ts[..|ts| - 1], db);
            ListLoopSteps(one, ts, db) == prev + LoopSteps(one, UpdDb, ts[|ts| - 1].channels, Before(prev, UpdDb, db, |prev|))
  {
  }

  /** One transport's copies joined to the lists before it. */
  lemma ListSplitStep(r: UpdateResult, prevR: UpdateResult, s: UpdSorted, prevS: seq<UpdStep>, cs: seq<UpdStep>, db: Db)
    requires && Flat(r.next) == Flat(prevR.next) + s.remaining.channels
             && Flat(r.done) == Flat(prevR.done) + s.done.channels
             && Flat(r.skipped) == Flat(prevR.skipped) + s.skipped.channels
             && r.db == s.db
    requires && Flat(prevR.next) == Routed(prevS, UpdRoute, UpdChan, RemainingCopy)
             && Flat(prevR.done) == Routed(prevS, UpdRoute, UpdChan, DoneCopy)
             && Flat(prevR.skipped) == Routed(prevS, UpdRoute, UpdChan, SkippedCopy)
             && prevR.db == Before(prevS, UpdDb, db, |prevS|)
    requires && s.remaining.channels == Routed(cs, UpdRoute, UpdChan, RemainingCopy)
             && s.done.channels == Routed(cs, UpdRoute, UpdChan, DoneCopy)
             && s.skipped.channels == Routed(cs, UpdRoute, UpdChan, SkippedCopy)
             && s.db == Before(cs, UpdDb, prevR.db, |cs|)
    ensures && Flat(r.next) == Routed(prevS + cs, UpdRoute, UpdChan, RemainingCopy)
            && Flat(r.done) == Routed(prevS + cs, UpdRoute, UpdChan, DoneCopy)
            && Flat(r.skipped) == Routed(prevS + cs, UpdRoute, UpdChan, SkippedCopy)
            && r.db == Before(prevS + cs, UpdDb, db, |prevS + cs|)
  {
    RoutedAppend(prevS, cs, UpdRoute, UpdChan, RemainingCopy);
    RoutedAppend(prevS, cs, UpdRoute, UpdChan, DoneCopy);
    RoutedAppend(prevS, cs, UpdRoute, UpdChan, SkippedCopy);
    BeforeAppend(prevS, cs, UpdDb, db);
  }

  /** The lists UpdListLoop returns are exactly the channels its steps
      route there, in order, and its database is the last step's. */
  lemma {:induction false} ListLoopSplit(one: (Channel, Db) -> UpdStep, ts: seq<Transport>, db: Db)
    ensures var r := UpdListLoop(one, ts, db);
            var steps := ListLoopSteps(one, ts, db);
            && Flat(r.next) == Routed(steps, UpdRoute, UpdChan, RemainingCopy)
            && Flat(r.done) == Routed(steps, UpdRoute, UpdChan, DoneCopy)
            && Flat(r.skipped) == Routed(steps, UpdRoute, UpdChan, SkippedCopy)
            && r.db == Before(steps, UpdDb, db, |steps|)
  {
    if |ts| > 0 {
      var n := |ts| - 1;
      var transport := ts[n];
      var prevR := UpdListLoop(one, ts[..n], db);
      var prevS := ListLoopSteps(one, ts[..n], db);
      ListLoopSplit(one, ts[..n], db);
      var cs := LoopSteps(one, UpdDb, transport.channels, prevR.db);
      LoopSplit(one, transport, transport.channels, prevR.db);
      UpdListLoopLast(one, ts, db);
      ListLoopStepsLast(one, ts, db);
      ListSplitStep(UpdListLoop(one, ts, db), prevR, UpdLoop(one, transport, transport.channels, prevR.db), prevS, cs, db);
    }
  }

  lemma {:induction false} ListLoopStepsOk(ok: (Channel, Db, UpdStep) -> bool, one: (Channel, Db) -> UpdStep, ts: seq<Transport>,
                                           db: Db)
    requires forall c, d :: ok(c, d, one(c, d))
    ensures StepsOk(ok, UpdDb, Flat(ts), db, ListLoopSteps(one, ts, db))
  {
    if |ts| > 0 {
      var init := ts[..|ts| - 1];
      var prev := ListLoopSteps(one, init, db);
      ListLoopStepsOk(ok, one, init, db);
      var from := Before(prev, UpdDb, db, |prev|);
      LoopStepsOk(ok, one, UpdDb, ts[|ts| - 1].channels, from);
      StepsOkAppend(ok, UpdDb, Flat(init), db, prev, ts[|ts| - 1].channels, LoopSteps(one, UpdDb, ts[|ts| - 1].channels, from));
    }
  }

  // ---------------------------------------------------------------------
  // UpdateChannels is the loop over UpdateOne

  function UpdateStepper(pers: Persistence, keepNumbers: bool, info: BasicStats, action: UpdateAction, t: ChannelType)
    : (Channel, Db) -> UpdStep
  {
    (c, d) => UpdateOne(pers, keepNumbers, info, action, t, c, d)
  }

  lemma {:induction false} UpdateChansIsLoop(pers: Persistence, keepNumbers: bool, info: BasicStats, action: UpdateAction,
                                             t: ChannelType, transport: Transport, chs: seq<Channel>, db: Db)
    ensures UpdateChans(pers, keepNumbers, info, action, t, transport, chs, db) ==
            UpdLoop(UpdateStepper(pers, keepNumbers, info, action, t), transport, chs, db)
  {
    if |chs| > 0 {
      UpdateChansIsLoop(pers, keepNumbers, info, action, t, transport, chs[..|chs| - 1], db);
    }
  }

  lemma {:induction false} UpdateChannelsIsLoop(pers: Persistence, keepNumbers: bool, info: BasicStats, action: UpdateAction,
                                                t: ChannelType, ts: seq<Transport>, db: Db)
    ensures UpdateChannels(pers, keepNumbers, info, action, t, ts, db) ==
            UpdListLoop(UpdateStepper(pers, keepNumbers, info, action, t), ts, db)
  {
    if |ts| > 0 {
      var prev := UpdateChannels(pers, keepNumbers, info, action, t, ts[..|ts| - 1], db);
      UpdateChannelsIsLoop(pers, keepNumbers, info, action, t, ts[..|ts| - 1], db);
      UpdateChansIsLoop(pers, keepNumbers, info, action, t, ts[|ts| - 1], ts[|ts| - 1].channels, prev.db);
    }
  }

  /** The trace of one UpdateChannels call. */
  ghost function UpdateSteps(pers: Persistence, keepNumbers: bool, info: BasicStats, action: UpdateAction, t: ChannelType,
                             ts: seq<Transport>, db: Db): seq<UpdStep> {
    ListLoopSteps(UpdateStepper(pers, keepNumbers, info, action, t), ts, db)
  }

  /** UpdateChannels handles the scanned channels one by one: step k keeps
      the promises of UpdateOne about channel k and the database the steps
      before it left; the lists it returns hold exactly the channels the
      steps route to them, in order; its database is the last step's. */
  lemma UpdateChannelsSplit(pers: Persistence, keepNumbers: bool, info: BasicStats, action: UpdateAction, t: ChannelType,
                            ts: seq<Transport>, db: Db)
    ensures var r := UpdateChannels(pers, keepNumbers, info, action, t, ts, db);
            var steps := UpdateSteps(pers, keepNumbers, info, action, t, ts, db);
            && StepsOk(UpdateOk(pers, keepNumbers, info, t, action), UpdDb, Flat(ts), db, steps)
            && Flat(r.next) == Routed(steps, UpdRoute, UpdChan, RemainingCopy)
            && Flat(r.done) == Routed(steps, UpdRoute, UpdChan, DoneCopy)
            && Flat(r.skipped) == Routed(steps, UpdRoute, UpdChan, SkippedCopy)
            && r.db == Before(steps, UpdDb, db, |steps|)
  {
    var one := UpdateStepper(pers, keepNumbers, info, action, t);
    var ok := UpdateOk(pers, keepNumbers, info, t, action);
    forall c, d ensures ok(c, d, one(c, d)) {
      UpdateOneOk(pers, keepNumbers, info, action, t, c, d);
    }
    ListLoopStepsOk(ok, one, ts, db);
    UpdateChannelsIsLoop(pers, keepNumbers, info, action, t, ts, db);
    ListLoopSplit(one, ts, db);
  }

  /** Every channel of `done` is an old channel of `chs` of the type, with
      a non-empty number, of which only the number, the visibility, the
      guide flag and the multiplex id changed. */
  predicate UpdatedFrom(info: BasicStats, t: ChannelType, chs: seq<Channel>, done: seq<Channel>) {
    forall c :: c in done ==>
      exists k ::
        && 0 <= k < |chs|
        && IsOld(info, t, chs[k]) && |c.chanNum| >= 1
        && c == chs[k].(chanNum := c.chanNum, visible := c.visible, useOnAirGuide := c.useOnAirGuide, dbMplexId := c.dbMplexId)
  }

  /** Every channel of `skipped` is an old channel of `chs` of the type:
      unchanged under ignore-all, otherwise only renumbered. */
  predicate SkippedFrom(info: BasicStats, t: ChannelType, action: UpdateAction, chs: seq<Channel>, skipped: seq<Channel>) {
    forall c :: c in skipped ==>
      exists k ::
        && 0 <= k < |chs|
        && IsOld(info, t, chs[k])
        && (if action == UpdateIgnoreAll then c == chs[k] else c == chs[k].(chanNum := c.chanNum))
  }

  /** What a trace of update steps routes to the updated and skipped lists. */
  lemma UpdStepsDone(pers: Persistence, keepNumbers: bool, info: BasicStats, t: ChannelType, action: UpdateAction,
                     chs: seq<Channel>, db: Db, steps: seq<UpdStep>)
    requires StepsOk(UpdateOk(pers, keepNumbers, info, t, action), UpdDb, chs, db, steps)
    ensures UpdatedFrom(info, t, chs, Routed(steps, UpdRoute, UpdChan, DoneCopy))
    ensures SkippedFrom(info, t, action, chs, Routed(steps, UpdRoute, UpdChan, SkippedCopy))
  {
    forall c | c in Routed(steps, UpdRoute, UpdChan, DoneCopy)
      ensures exists k ::
        && 0 <= k < |chs|
        && IsOld(info, t, chs[k]) && |c.chanNum| >= 1
        && c == chs[k].(chanNum := c.chanNum, visible := c.visible, useOnAirGuide := c.useOnAirGuide, dbMplexId := c.dbMplexId)
    {
      RoutedMember(steps, UpdRoute, UpdChan, DoneCopy, c);
      var k :| 0 <= k < |steps| && Goes(UpdRoute(steps[k]), DoneCopy) && UpdChan(steps[k]) == c;
      StepsOkAt(UpdateOk(pers, keepNumbers, info, t, action), UpdDb, chs, db, steps, k);
      assert UpdateStepFrom(pers, keepNumbers, info, t, action, chs[k], Before(steps, UpdDb, db, k), steps[k]);
    }
    forall c | c in Routed(steps, UpdRoute, UpdChan, SkippedCopy)
      ensures exists k ::
        && 0 <= k < |chs|
        && IsOld(info, t, chs[k])
        && (if action == UpdateIgnoreAll then c == chs[k] else c == chs[k].(chanNum := c.chanNum))
    {
      RoutedMember(steps, UpdRoute, UpdChan, SkippedCopy, c);
      var k :| 0 <= k < |steps| && Goes(UpdRoute(steps[k]), SkippedCopy) && UpdChan(steps[k]) == c;
      StepsOkAt(UpdateOk(pers, keepNumbers, info, t, action), UpdDb, chs, db, steps, k);
      assert UpdateStepFrom(pers, keepNumbers, info, t, action, chs[k], Before(steps, UpdDb, db, k), steps[k]);
    }
  }

  /** Every channel UpdateChannels updates is an old scanned channel of the
      type with a non-empty number; every channel it skips is an old scanned
      channel of the type, renumbered at most. */
  lemma UpdateChannelsDone(pers: Persistence, keepNumbers: bool, info: BasicStats, action: UpdateAction, t: ChannelType,
                           ts: seq<Transport>, db: Db)
    ensures UpdatedFrom(info, t, Flat(ts), Flat(UpdateChannels(pers, keepNumbers, info, action, t, ts, db).done))
    ensures SkippedFrom(info, t, action, Flat(ts), Flat(UpdateChannels(pers, keepNumbers, info, action, t, ts, db).skipped))
  {
    UpdateChannelsSplit(pers, keepNumbers, info, action, t, ts, db);
    UpdStepsDone(pers, keepNumbers, info, t, action, Flat(ts), db, UpdateSteps(pers, keepNumbers, info, action, t, ts, db));
  }

  /** Channel k of the scan is updated exactly when it is an old channel of
      the type, the action is not ignore-all, the number it is given is free
      and UpdateChannel succeeds against the database the channels before
      it left; its number is the stored (or scanned) one when that is free,
      else its default number. */
  lemma UpdateChannelsUpdated(pers: Persistence, keepNumbers: bool, info: BasicStats, action: UpdateAction, t: ChannelType,
                              ts: seq<Transport>, db: Db, k: nat)
    requires k < |Flat(ts)|
    ensures var steps := UpdateSteps(pers, keepNumbers, info, action, t, ts, db);
            var c := Flat(ts)[k];
            var before := Before(steps, UpdDb, db, k);
            var num0 := if keepNumbers then NumberFromDb(before, c) else c.chanNum;
            && Flat(UpdateChannels(pers, keepNumbers, info, action, t, ts, db).done) == Routed(steps, UpdRoute, UpdChan, DoneCopy)
            && (steps[k].route == ToDone <==>
                  && IsOld(info, t, c) && action != UpdateIgnoreAll
                  && !IsConflicting(before, steps[k].chan.chanNum, c.sourceId, c.channelId)
                  && pers.updateChannel(before, steps[k].chan))
            && (IsOld(info, t, c) && action != UpdateIgnoreAll ==>
                  steps[k].chan.chanNum == if num0 != "" && !IsConflicting(before, num0, c.sourceId, c.channelId) then num0
                                           else DefaultChanNum(c, t.ATSCNonConflicting?))
  {
    var steps := UpdateSteps(pers, keepNumbers, info, action, t, ts, db);
    UpdateChannelsSplit(pers, keepNumbers, info, action, t, ts, db);
    StepsOkAt(UpdateOk(pers, keepNumbers, info, t, action), UpdDb, Flat(ts), db, steps, k);
    assert UpdateStepFrom(pers, keepNumbers, info, t, action, Flat(ts)[k], Before(steps, UpdDb, db, k), steps[k]);
  }

  /** "Update Manually" handles a channel exactly as "Update All" does. */
  lemma UpdateOneManualAsAll(pers: Persistence, keepNumbers: bool, info: BasicStats, t: ChannelType, chan: Channel, db: Db)
    ensures UpdateOne(pers, keepNumbers, info, UpdateManual, t, chan, db) == UpdateOne(pers, keepNumbers, info, UpdateAll, t, chan, db)
  {
  }

  lemma {:induction false} UpdateChansManualAsAll(pers: Persistence, keepNumbers: bool, info: BasicStats, t: ChannelType,
                                                  transport: Transport, chs: seq<Channel>, db: Db)
    ensures UpdateChans(pers, keepNumbers, info, UpdateManual, t, transport, chs, db) ==
            UpdateChans(pers, keepNumbers, info, UpdateAll, t, transport, chs, db)
  {
    if |chs| > 0 {
      var prev := UpdateChans(pers, keepNumbers, info, UpdateAll, t, transport, chs[..|chs| - 1], db);
      UpdateChansManualAsAll(pers, keepNumbers, info, t, transport, chs[..|chs| - 1], db);
      UpdateOneManualAsAll(pers, keepNumbers, info, t, chs[|chs| - 1], prev.db);
    }
  }

  /** "Update Manually" updates exactly as "Update All" does. */
  lemma {:induction false} UpdateManualAsAll(pers: Persistence, keepNumbers: bool, info: BasicStats, t: ChannelType,
                                             ts: seq<Transport>, db: Db)
    ensures UpdateChannels(pers, keepNumbers, info, UpdateManual, t, ts, db) ==
            UpdateChannels(pers, keepNumbers, info, UpdateAll, t, ts, db)
  {
    if |ts| > 0 {
      var prev := UpdateChannels(pers, keepNumbers, info, UpdateAll, t, ts[..|ts| - 1], db);
      UpdateManualAsAll(pers, keepNumbers, info, t, ts[..|ts| - 1], db);
      UpdateChansManualAsAll(pers, keepNumbers, info, t, ts[|ts| - 1], ts[|ts| - 1].channels, prev.db);
    }
  }
}

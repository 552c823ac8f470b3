/** ChannelImporter::InsertChannels for one channel type: new channels (no
    channel id yet) of the type get a channel number, possibly after asking
    the user, and are created in the database. */
module Insert {
  import opened Util
  import opened Channels
  import opened Classify
  import opened Numbering

  datatype InsertAction = InsertAll | InsertManual | InsertIgnoreAll

  /** The console also offers "Update Manually", which UpdateChannels
      handles like "Update All". */
  datatype UpdateAction = UpdateAll | UpdateManual | UpdateIgnoreAll

  datatype OkCancel = OCTCancelAll | OCTCancel | OCTOk | OCTOkAll

  /** One answer to a per-channel question: the button pressed (or, on the
      console, whether a cancel word was typed) and the number entered. */
  datatype Answer = Answer(rc: OkCancel, val: string)

  /** The user side. `insertAnswers` and `resolveAnswers` are the answers,
      in order, the user gives to one manual-insert or one conflict question
      about a channel; `insertQuery` and `updateQuery` answer the per-type
      questions, given the channel count. */
  datatype Prompts = Prompts(
    interactive: bool,
    useGui: bool,
    insertAnswers: (Db, Transport, Channel) -> seq<Answer>,
    resolveAnswers: (Db, Transport, Channel) -> seq<Answer>,
    insertQuery: (nat, ChannelType) -> InsertAction,
    updateQuery: (nat, ChannelType) -> UpdateAction)

  /** The ChannelUtil calls that write the database, whose results the
      importer acts on. */
  datatype Persistence = Persistence(
    createChanId: (Db, nat, string) -> int,
    createMultiplex: (Db, nat, Tuning, nat, nat) -> nat,
    betterMplexId: (Db, nat, nat, nat) -> int,
    createChannel: (Db, Channel) -> bool,
    updateChannel: (Db, Channel) -> bool)

  // ---------------------------------------------------------------------
  // The per-channel question loops of QueryUserInsert and QueryUserResolve

  datatype Asked = Asked(rc: OkCancel, num: string, counters: map<nat, nat>)

  /** An answer that offers a number to check rather than ending the loop.
      On the console everything but the cancel words is a number; in the
      dialog only Ok, and OK-all where the dialog has that button. */
  predicate Submits(gui: bool, acceptAll: bool, a: Answer) {
    a.rc == OCTOk || (a.rc == OCTOkAll && (acceptAll || !gui))
  }

  /** The loop ended with a number that passed the check. */
  predicate Accepted(acceptAll: bool, rc: OkCancel) {
    rc == OCTOk || (acceptAll && rc == OCTOkAll)
  }

  /** Answer i is the first that ends the loop, and it ends it with a valid
      number. */
  predicate FirstValid(db: Db, gui: bool, acceptAll: bool, c: Channel, answers: seq<Answer>, i: nat) {
    && i < |answers|
    && Submits(gui, acceptAll, answers[i]) && CheckChannelNumber(db, answers[i].val, c)
    && forall k :: 0 <= k < i ==> Submits(gui, acceptAll, answers[k]) && !CheckChannelNumber(db, answers[k].val, c)
  }

  /** The `while (true)` loop over the user's answers. In the dialog every
      round first computes a suggestion, which moves the suggestion counter.
      An answer list that runs out ends the loop with the initial Cancel. */
  function AskLoop(db: Db, counters: map<nat, nat>, gui: bool, acceptAll: bool, c: Channel, answers: seq<Answer>): (r: Asked)
    ensures Accepted(acceptAll, r.rc) ==> CheckChannelNumber(db, r.num, c)
    ensures !Accepted(acceptAll, r.rc) ==> r.num == c.chanNum
    ensures !gui ==> r.counters == counters && r.rc != OCTOkAll
    decreases |answers|
  {
    if |answers| == 0 then Asked(OCTCancel, c.chanNum, counters)
    else
      var counters' := if gui then ComputeSuggestedChannelNum(db, counters, c).1 else counters;
      var a := answers[0];
      if !Submits(gui, acceptAll, a) then Asked(a.rc, c.chanNum, counters')
      else if CheckChannelNumber(db, a.val, c) then Asked(if gui then a.rc else OCTOk, a.val, counters')
      else AskLoop(db, counters', gui, acceptAll, c, answers[1..])
  }

  /** A first valid answer after the first is the first valid answer of
      the rest, and conversely. */
  lemma FirstValidTail(db: Db, gui: bool, acceptAll: bool, c: Channel, answers: seq<Answer>)
    requires |answers| > 0
    ensures forall i: nat :: FirstValid(db, gui, acceptAll, c, answers, i) && i > 0 ==>
      FirstValid(db, gui, acceptAll, c, answers[1..], i - 1)
    ensures Submits(gui, acceptAll, answers[0]) && !CheckChannelNumber(db, answers[0].val, c) ==>
      forall i: nat :: FirstValid(db, gui, acceptAll, c, answers[1..], i) ==> FirstValid(db, gui, acceptAll, c, answers, i + 1)
  {
    var tail := answers[1..];
    forall i: nat | FirstValid(db, gui, acceptAll, c, answers, i) && i > 0
      ensures FirstValid(db, gui, acceptAll, c, tail, i - 1)
    {
      forall k | 0 <= k < i - 1
        ensures Submits(gui, acceptAll, tail[k]) && !CheckChannelNumber(db, tail[k].val, c)
      {
        assert tail[k] == answers[k + 1];
      }
    }
    if Submits(gui, acceptAll, answers[0]) && !CheckChannelNumber(db, answers[0].val, c) {
      forall i: nat | FirstValid(db, gui, acceptAll, c, tail, i)
        ensures FirstValid(db, gui, acceptAll, c, answers, i + 1)
      {
        forall k | 0 <= k < i + 1
          ensures Submits(gui, acceptAll, answers[k]) && !CheckChannelNumber(db, answers[k].val, c)
        {
          if k > 0 {
            assert answers[k] == tail[k - 1];
          }
        }
      }
    }
  }

  /** The loop accepts exactly when some answer is the first to end it
      with a valid number. */
  lemma {:induction false} AskLoopFirstValid(db: Db, counters: map<nat, nat>, gui: bool, acceptAll: bool, c: Channel, answers: seq<Answer>)
    ensures Accepted(acceptAll, AskLoop(db, counters, gui, acceptAll, c, answers).rc) <==>
      exists i: nat :: FirstValid(db, gui, acceptAll, c, answers, i)
    decreases |answers|
  {
    if |answers| > 0 {
      var counters' := if gui then ComputeSuggestedChannelNum(db, counters, c).1 else counters;
      var a := answers[0];
      FirstValidTail(db, gui, acceptAll, c, answers);
      if Submits(gui, acceptAll, a) && !CheckChannelNumber(db, a.val, c) {
        AskLoopFirstValid(db, counters', gui, acceptAll, c, answers[1..]);
      } else if Submits(gui, acceptAll, a) {
        assert FirstValid(db, gui, acceptAll, c, answers, 0);
      } else {
        assert forall i: nat :: !FirstValid(db, gui, acceptAll, c, answers, i);
      }
    }
  }

  /** When an answer is the first to end the loop with a valid number, the
      loop returns that answer's number. */
  lemma {:induction false} AskLoopNumber(db: Db, counters: map<nat, nat>, gui: bool, acceptAll: bool, c: Channel,
                                         answers: seq<Answer>, i: nat)
    requires FirstValid(db, gui, acceptAll, c, answers, i)
    ensures AskLoop(db, counters, gui, acceptAll, c, answers).num == answers[i].val
    decreases |answers|
  {
    if i > 0 {
      var counters' := if gui then ComputeSuggestedChannelNum(db, counters, c).1 else counters;
      FirstValidTail(db, gui, acceptAll, c, answers);
      AskLoopNumber(db, counters', gui, acceptAll, c, answers[1..], i - 1);
    }
  }

  /** QueryUserInsert(transport, chan) and QueryUserResolve: the dialog
      loop, the console loop, or Cancel when there is no one to ask. */
  function Ask(p: Prompts, db: Db, counters: map<nat, nat>, acceptAll: bool, c: Channel, answers: seq<Answer>): (r: Asked)
    ensures Accepted(acceptAll, r.rc) ==> CheckChannelNumber(db, r.num, c)
    ensures !Accepted(acceptAll, r.rc) ==> r.num == c.chanNum
    ensures !p.useGui ==> r.counters == counters
    ensures !p.useGui && !p.interactive ==> r.rc == OCTCancel
  {
    if p.useGui then AskLoop(db, counters, true, acceptAll, c, answers)
    else if p.interactive then AskLoop(db, counters, false, acceptAll, c, answers)
    else Asked(OCTCancel, c.chanNum, counters)
  }

  // ---------------------------------------------------------------------
  // One channel

  /** The state InsertChannels threads from channel to channel: the
      database, the suggestion counters (static in the source), and the
      cancel-all and OK-all answers, which last until the call returns. */
  datatype InsertState = InsertState(db: Db, counters: map<nat, nat>, cancelAll: bool, okAll: bool)

  /** A channel InsertChannels of type `t` works on. */
  predicate IsNew(info: BasicStats, t: ChannelType, c: Channel) {
    c.channelId == 0 && IsType(info, c, t)
  }

  /** A channel UpdateChannels of type `t` works on. */
  predicate IsOld(info: BasicStats, t: ChannelType, c: Channel) {
    c.channelId != 0 && IsType(info, c, t)
  }

  datatype Decision = Decision(handle: bool, asked: bool, num: string, st: InsertState)

  /** The kInsertManual question about one channel. Cancel-all also
      cancels the rest of the call; an accepted number replaces the
      channel's own. */
  function ManualQuery(p: Prompts, action: InsertAction, transport: Transport, chan: Channel, st: InsertState, handle: bool): (d: Decision)
    ensures d.st.db == st.db && d.st.okAll == st.okAll
    ensures d.handle ==> handle
    ensures d.asked ==> d.handle && CheckChannelNumber(st.db, d.num, chan)
    ensures !d.asked ==> d.num == chan.chanNum
    ensures st.cancelAll ==> d.st.cancelAll
    ensures d.st.cancelAll ==> st.cancelAll || !d.handle
    ensures !(handle && action == InsertManual) ==> d == Decision(handle, false, chan.chanNum, st)
    ensures !p.useGui ==> d.st.counters == st.counters
  {
    if handle && action == InsertManual then
      var q := Ask(p, st.db, st.counters, false, chan, p.insertAnswers(st.db, transport, chan));
      var st' := st.(counters := q.counters);
      if q.rc == OCTCancelAll then Decision(false, false, q.num, st'.(cancelAll := true))
      else if q.rc == OCTCancel then Decision(false, false, q.num, st')
      else if q.rc == OCTOk then Decision(true, true, q.num, st')
      else Decision(true, false, q.num, st')
    else Decision(handle, false, chan.chanNum, st)
  }

  /** The fallback numbering of a channel whose number `num` is empty,
      taken by another channel of its source, or to be renamed: the channel
      gets its default number, and the flag says whether that one is taken
      too. */
  function Renumber(db: Db, chan: Channel, num: string, atscFormat: bool, excluded: nat, rename: bool): (r: (string, bool))
    ensures !r.1 ==> |r.0| >= 1 && !IsConflicting(db, r.0, chan.sourceId, excluded)
    ensures r.0 == num || r.0 == DefaultChanNum(chan, atscFormat)
    ensures r.1 ==> r.0 == DefaultChanNum(chan, atscFormat) && IsConflicting(db, r.0, chan.sourceId, excluded)
    ensures num != "" && !rename && !IsConflicting(db, num, chan.sourceId, excluded) ==> r == (num, false)
  {
    if num == "" || rename || IsConflicting(db, num, chan.sourceId, excluded) then
      var n := DefaultChanNum(chan, atscFormat);
      (n, IsConflicting(db, n, chan.sourceId, excluded))
    else (num, false)
  }

  datatype Resolution = Resolution(conflicting: bool, num: string, st: InsertState)

  /** QueryUserResolve about the channel numbered `num`, and what
      InsertChannels does with its answer. */
  function AskResolve(p: Prompts, transport: Transport, chan: Channel, num: string, st: InsertState): (r: Resolution)
    ensures r.st.db == st.db
    ensures !r.conflicting ==> CheckChannelNumber(st.db, r.num, chan)
    ensures r.conflicting ==> r.num == num
    ensures st.cancelAll ==> r.st.cancelAll
    ensures st.okAll ==> r.st.okAll
    ensures !p.useGui ==> r.st.counters == st.counters
  {
    var c := chan.(chanNum := num);
    var q := Ask(p, st.db, st.counters, true, c, p.resolveAnswers(st.db, transport, c));
    var st' := st.(counters := q.counters);
    if q.rc == OCTCancelAll then Resolution(true, num, st'.(cancelAll := true))
    else if q.rc == OCTOk then Resolution(false, q.num, st')
    else if q.rc == OCTOkAll then Resolution(false, q.num, st'.(okAll := true))
    else Resolution(true, num, st')
  }

  /** The conflict handling of an interactive import: once the user has
      said OK-all, a valid suggestion is taken without asking; otherwise
      the user is asked, and a channel is only kept when the answer gave
      it a valid number. */
  function Resolve(p: Prompts, t: ChannelType, transport: Transport, chan: Channel, num: string, conflicting: bool,
                   asked: bool, st: InsertState): (r: Resolution)
    ensures r.st.db == st.db
    ensures !r.conflicting ==> (!conflicting && r.num == num) || CheckChannelNumber(st.db, r.num, chan)
    ensures st.cancelAll ==> r.st.cancelAll
    ensures st.okAll ==> r.st.okAll
    ensures !p.interactive || asked ==> r == Resolution(conflicting, num, st)
    ensures !conflicting && !IsConflictingType(t) ==> r == Resolution(conflicting, num, st)
    ensures p.interactive && !asked && (conflicting || IsConflictingType(t)) && st.okAll ==>
      var (s, counters') := ComputeSuggestedChannelNum(st.db, st.counters, chan.(chanNum := num));
      CheckChannelNumber(st.db, s, chan) ==> r == Resolution(false, s, st.(counters := counters'))
  {
    if p.interactive && !asked && (conflicting || IsConflictingType(t)) then
      if st.okAll then
        var c := chan.(chanNum := num);
        var (val, counters') := ComputeSuggestedChannelNum(st.db, st.counters, c);
        var st' := st.(counters := counters');
        if CheckChannelNumber(st.db, val, chan) then Resolution(false, val, st')
        else AskResolve(p, transport, chan, num, st')
      else AskResolve(p, transport, chan, num, st)
    else Resolution(conflicting, num, st)
  }

  /** The database row CreateChannel writes for a channel inserted into
      multiplex `mplex`. */
  function InsertedRow(c: Channel, mplex: nat): DbChannel {
    DbChannel(c.sourceId, c.chanNum, mplex, if c.hidden then NotVisible else Visible, c.useOnAirGuide)
  }

  datatype Stored = Stored(inserted: bool, channelId: nat, mplexId: nat, db: Db)

  /** The multiplex a channel with a new channel id is inserted into: the
      one CreateMultiplex makes under the transport's tuning when the channel
      has none, else the one GetBetterMplexID offers, if any. */
  function MplexFor(pers: Persistence, db: Db, tuning: Tuning, chan: Channel): nat {
    var tsid := TransportStreamId(chan);
    if chan.dbMplexId == 0 then pers.createMultiplex(db, chan.sourceId, tuning, tsid, chan.origNetId)
    else
      var id := pers.betterMplexId(db, chan.dbMplexId, tsid, chan.origNetId);
      if id >= 0 then id as nat else chan.dbMplexId
  }

  /** CreateChanID, then CreateMultiplex for a channel without a multiplex
      or GetBetterMplexID for one with, then CreateChannel; the channel is
      only created when it got both a channel id and a multiplex id. */
  function Store(pers: Persistence, db: Db, transport: Transport, chan: Channel): (r: Stored)
    requires chan.channelId == 0
    ensures r.channelId != 0 ==> r.channelId == pers.createChanId(db, chan.sourceId, chan.chanNum)
    ensures r.inserted ==> r.channelId != 0 && r.mplexId != 0
    ensures r.inserted ==> r.db == db[r.channelId := InsertedRow(chan, r.mplexId)]
    ensures !r.inserted ==> r.db == db
    ensures pers.createChanId(db, chan.sourceId, chan.chanNum) <= 0 ==> r == Stored(false, 0, chan.dbMplexId, db)
    ensures pers.createChanId(db, chan.sourceId, chan.chanNum) > 0 ==>
      && r.channelId == pers.createChanId(db, chan.sourceId, chan.chanNum)
      && r.mplexId == MplexFor(pers, db, transport.tuning, chan)
    ensures r.inserted <==>
      && pers.createChanId(db, chan.sourceId, chan.chanNum) > 0 && r.mplexId != 0
      && pers.createChannel(db, Relabelled(chan, chan.chanNum, r.channelId, r.mplexId))
  {
    var chanid := pers.createChanId(db, chan.sourceId, chan.chanNum);
    if chanid <= 0 then Stored(false, 0, chan.dbMplexId, db)
    else
      var mplex := MplexFor(pers, db, transport.tuning, chan);
      if mplex != 0 && pers.createChannel(db, Relabelled(chan, chan.chanNum, chanid as nat, mplex)) then
        Stored(true, chanid as nat, mplex, db[chanid as nat := InsertedRow(chan, mplex)])
      else Stored(false, chanid as nat, mplex, db)
  }

  /** Where a channel goes: the inserted (or updated) list, the skipped
      list, or the list of channels left for later types. UpdateChannels
      sends a channel whose number stays taken both to the skipped list
      and on to the remaining list. */
  datatype Route = ToDone | ToSkipped | ToRemaining | ToBoth

  datatype Step = Step(route: Route, chan: Channel, st: InsertState)

  /** What InsertChannels may change in a channel it handles: its number,
      channel id and multiplex id. */
  function Relabelled(c: Channel, num: string, id: nat, mplex: nat): (r: Channel)
    ensures r.chanNum == num && r.channelId == id && r.dbMplexId == mplex
  {
    c.(chanNum := num, channelId := id, dbMplexId := mplex)
  }
  lemma RelabelledTwice(c: Channel, num: string, id: nat, mplex: nat, num': string, id': nat, mplex': nat)
    ensures Relabelled(Relabelled(c, num, id, mplex), num', id', mplex') == Relabelled(c, num', id', mplex')
  {
  }


  /** The number decided for a handled channel and whether it stays
      conflicting. */
  function Numbered(p: Prompts, t: ChannelType, transport: Transport, chan: Channel, d: Decision): (r: Resolution)
    requires chan.channelId == 0
    ensures r.st.db == d.st.db
    ensures !r.conflicting ==> |r.num| >= 1 && !IsConflicting(d.st.db, r.num, chan.sourceId, 0)
    ensures d.st.cancelAll ==> r.st.cancelAll
    ensures d.st.okAll ==> r.st.okAll
    ensures !p.interactive ==> r.st == d.st
    ensures var (num, taken) := Renumber(d.st.db, chan, d.num, t.ATSCNonConflicting? || t.ATSCConflicting?, 0, false);
            !d.asked && (!p.interactive || (!taken && !IsConflictingType(t))) ==> r == Resolution(taken, num, d.st)
  {
    var (num, conflicting) := Renumber(d.st.db, chan, d.num, t.ATSCNonConflicting? || t.ATSCConflicting?, 0, false);
    var r := Resolve(p, t, transport, chan, num, conflicting, d.asked, d.st);
    r
  }

  /** Stores a handled channel whose number `num` is free: it goes to the
      inserted list when it gets a channel id, a multiplex id and its row,
      and on to the remaining list otherwise. */
  function StoreStep(pers: Persistence, transport: Transport, chan: Channel, num: string, st: InsertState): (r: Step)
    requires chan.channelId == 0
    ensures r.route == ToDone || r.route == ToRemaining
    ensures r.chan == Relabelled(chan, num, r.chan.channelId, r.chan.dbMplexId)
    ensures r.chan.channelId != 0 <==> pers.createChanId(st.db, chan.sourceId, num) > 0
    ensures r.chan.channelId != 0 ==>
      && r.chan.channelId == pers.createChanId(st.db, chan.sourceId, num)
      && r.chan.dbMplexId == MplexFor(pers, st.db, transport.tuning, chan)
    ensures r.route == ToDone <==> r.chan.channelId != 0 && r.chan.dbMplexId != 0 && pers.createChannel(st.db, r.chan)
    ensures r.route == ToDone ==> r.st == st.(db := st.db[r.chan.channelId := InsertedRow(r.chan, r.chan.dbMplexId)])
    ensures r.route != ToDone ==> r.st == st
  {
    var s := Store(pers, st.db, transport, Relabelled(chan, num, chan.channelId, chan.dbMplexId));
    RelabelledTwice(chan, num, chan.channelId, chan.dbMplexId, num, s.channelId, s.mplexId);
    Step(if s.inserted then ToDone else ToRemaining, Relabelled(chan, num, s.channelId, s.mplexId), st.(db := s.db))
  }

  /** The body of InsertChannels' inner loop, for one channel. */
  function InsertOne(pers: Persistence, p: Prompts, info: BasicStats, action: InsertAction, t: ChannelType,
                     transport: Transport, chan: Channel, st: InsertState): (r: Step)
    ensures r.route != ToBoth
    ensures !IsNew(info, t, chan) ==> r == Step(ToRemaining, chan, st)
    ensures IsNew(info, t, chan) && action == InsertIgnoreAll ==> r == Step(ToSkipped, chan, st)
    ensures r.route == ToSkipped <==> IsNew(info, t, chan) && action == InsertIgnoreAll
    ensures st.cancelAll ==> r.route != ToDone && r.st == st
    ensures r == Step(r.route, Relabelled(chan, r.chan.chanNum, r.chan.channelId, r.chan.dbMplexId), r.st)
    ensures r.route == ToDone ==>
      && IsNew(info, t, chan) && action != InsertIgnoreAll
      && r.chan.channelId != 0 && |r.chan.chanNum| >= 1
      && !IsConflicting(st.db, r.chan.chanNum, chan.sourceId, 0)
      && r.st.db == st.db[r.chan.channelId := InsertedRow(r.chan, r.chan.dbMplexId)]
    ensures r.route != ToDone ==> r.st.db == st.db
    ensures st.okAll ==> r.st.okAll
    ensures !p.interactive && !p.useGui ==> r.st.counters == st.counters && r.st.okAll == st.okAll
    ensures action != InsertManual && !p.interactive ==> r.st.cancelAll == st.cancelAll
    ensures IsNew(info, t, chan) && r.chan.channelId != 0 ==>
      && r.chan.channelId == pers.createChanId(st.db, chan.sourceId, r.chan.chanNum)
      && r.chan.dbMplexId == MplexFor(pers, st.db, transport.tuning, chan)
      && (r.route == ToDone <==> r.chan.dbMplexId != 0 && pers.createChannel(st.db, r.chan))
    ensures IsNew(info, t, chan) && action == InsertAll && !st.cancelAll ==>
      var (num, taken) := Renumber(st.db, chan, chan.chanNum, t.ATSCNonConflicting? || t.ATSCConflicting?, 0, false);
      !p.interactive || (!taken && !IsConflictingType(t)) ==>
        && r.chan.chanNum == num
        && (r.chan.channelId != 0 <==> !taken && pers.createChanId(st.db, chan.sourceId, num) > 0)
        && (r.route == ToDone <==>
              !taken && pers.createChanId(st.db, chan.sourceId, num) > 0 && r.chan.dbMplexId != 0 && pers.createChannel(st.db, r.chan))
  {
    var eligible := IsNew(info, t, chan);
    var filter := eligible && action == InsertIgnoreAll;
    var handle := eligible && !filter && !st.cancelAll;
    var d := ManualQuery(p, action, transport, chan, st, handle);
    if d.handle then
      var res := Numbered(p, t, transport, chan, d);
      if res.conflicting then Step(ToRemaining, Relabelled(chan, res.num, chan.channelId, chan.dbMplexId), res.st)
      else StoreStep(pers, transport, chan, res.num, res.st)
    else Step(if filter then ToSkipped else ToRemaining, Relabelled(chan, d.num, chan.channelId, chan.dbMplexId), d.st)
  }


  /** CreateChanID hands out ids not yet in the database. The database
      guarantees this for the real function; here it is an assumption about
      the parameter. */
  ghost predicate FreshIds(pers: Persistence) {
    forall db: Db, src: nat, num: string :: pers.createChanId(db, src, num) > 0 ==> pers.createChanId(db, src, num) as nat !in db
  }

  /** With fresh channel ids, an inserted channel adds exactly one row, under
      an id not in use before, and every other row stays. */
  lemma InsertOneFresh(pers: Persistence, p: Prompts, info: BasicStats, action: InsertAction, t: ChannelType,
                       transport: Transport, chan: Channel, st: InsertState)
    requires FreshIds(pers)
    ensures var r := InsertOne(pers, p, info, action, t, transport, chan, st);
            r.route == ToDone ==>
              && r.chan.channelId !in st.db
              && r.st.db.Keys == st.db.Keys + {r.chan.channelId}
              && forall id :: id in st.db ==> r.st.db[id] == st.db[id]
  {
  }

  /** Inserting one channel keeps every source's channel numbers distinct. */
  lemma InsertOneKeepsUnique(pers: Persistence, p: Prompts, info: BasicStats, action: InsertAction, t: ChannelType,
                             transport: Transport, chan: Channel, st: InsertState)
    requires DbWellFormed(st.db) && UniqueNumbers(st.db)
    ensures DbWellFormed(InsertOne(pers, p, info, action, t, transport, chan, st).st.db)
    ensures UniqueNumbers(InsertOne(pers, p, info, action, t, transport, chan, st).st.db)
  {
    var r := InsertOne(pers, p, info, action, t, transport, chan, st);
    if r.route == ToDone {
      FreeForAll(st.db, r.chan.chanNum, r.chan.sourceId, r.chan.channelId);
      StoreKeepsUnique(st.db, r.chan.channelId, InsertedRow(r.chan, r.chan.dbMplexId));
    }
  }

  // ---------------------------------------------------------------------
  // One transport and the whole list

  /** The three per-transport copies and the state after some channels. */
  datatype Sorted = Sorted(remaining: Transport, done: Transport, skipped: Transport, st: InsertState)

  const EmptyCopy := Transport(NoTuning, [])

  /** A copy holds channels of `transport` only under its tuning. */
  predicate CopyOf(copy: Transport, transport: Transport) {
    |copy.channels| > 0 ==> copy.tuning == transport.tuning
  }

  /** The three per-transport copies InsertChannels and UpdateChannels fill. */
  datatype Copy = RemainingCopy | DoneCopy | SkippedCopy

  /** Whether a channel sent along `route` lands in `copy`. */
  predicate Goes(route: Route, copy: Copy) {
    match copy
    case RemainingCopy => route == ToRemaining || route == ToBoth
    case DoneCopy => route == ToDone
    case SkippedCopy => route == ToSkipped || route == ToBoth
  }

  /** Adds the channel of step `s` to the copy its route names. */
  function Place(prev: Sorted, transport: Transport, s: Step): (r: Sorted)
    requires s.route != ToBoth
    ensures r.remaining.channels == prev.remaining.channels + (if Goes(s.route, RemainingCopy) then [s.chan] else [])
    ensures r.done.channels == prev.done.channels + (if Goes(s.route, DoneCopy) then [s.chan] else [])
    ensures r.skipped.channels == prev.skipped.channels + (if Goes(s.route, SkippedCopy) then [s.chan] else [])
    ensures CopyOf(prev.remaining, transport) ==> CopyOf(r.remaining, transport)
    ensures CopyOf(prev.done, transport) ==> CopyOf(r.done, transport)
    ensures CopyOf(prev.skipped, transport) ==> CopyOf(r.skipped, transport)
    ensures r.st == s.st
  {
    match s.route
    case ToDone => Sorted(prev.remaining, AddChanToCopy(prev.done, transport, s.chan), prev.skipped, s.st)
    case ToSkipped => Sorted(prev.remaining, prev.done, AddChanToCopy(prev.skipped, transport, s.chan), s.st)
    case _ => Sorted(AddChanToCopy(prev.remaining, transport, s.chan), prev.done, prev.skipped, s.st)
  }

  /** The inner loop of InsertChannels over the channels of a transport. */
  function InsertChans(pers: Persistence, p: Prompts, info: BasicStats, action: InsertAction, t: ChannelType,
                       transport: Transport, chs: seq<Channel>, st: InsertState): (r: Sorted)
    ensures CopyOf(r.remaining, transport) && CopyOf(r.done, transport) && CopyOf(r.skipped, transport)
    ensures |r.remaining.channels| + |r.done.channels| + |r.skipped.channels| == |chs|
    ensures forall c :: c in chs && !IsNew(info, t, c) ==> c in r.remaining.channels
    ensures forall c :: c in r.skipped.channels ==> c in chs && IsNew(info, t, c)
    ensures action == InsertIgnoreAll ==> r.done.channels == [] && r.st == st
    ensures action == InsertIgnoreAll ==> |r.skipped.channels| == CountIf(chs, NewOfType(info, t))
    ensures action != InsertIgnoreAll ==> r.skipped.channels == []
    ensures st.cancelAll ==> r.done.channels == [] && r.st == st
    ensures st.db.Keys <= r.st.db.Keys
    ensures forall c :: c in r.done.channels ==> c.channelId != 0 && c.channelId in r.st.db
    ensures st.okAll ==> r.st.okAll
    ensures !p.interactive && !p.useGui ==> r.st.counters == st.counters
  {
    if |chs| == 0 then Sorted(EmptyCopy, EmptyCopy, EmptyCopy, st)
    else
      var prev := InsertChans(pers, p, info, action, t, transport, chs[..|chs| - 1], st);
      var chan := chs[|chs| - 1];
      var s := InsertOne(pers, p, info, action, t, transport, chan, prev.st);
      match s.route
      case ToDone => Sorted(prev.remaining, AddChanToCopy(prev.done, transport, s.chan), prev.skipped, s.st)
      case ToSkipped => Sorted(prev.remaining, prev.done, AddChanToCopy(prev.skipped, transport, s.chan), s.st)
      case _ => Sorted(AddChanToCopy(prev.remaining, transport, s.chan), prev.done, prev.skipped, s.st)
  }

  // ---------------------------------------------------------------------
  // The channel-by-channel trace of a call

  /** The channels of the steps that land in `copy`, in order; `route`
      and `chan` read a step's route and channel. */
  function Routed<X>(steps: seq<X>, route: X -> Route, chan: X -> Channel, copy: Copy): seq<Channel> {
    if |steps| == 0 then []
    else
      var last := steps[|steps| - 1];
      Routed(steps[..|steps| - 1], route, chan, copy) + (if Goes(route(last), copy) then [chan(last)] else [])
  }

  lemma {:induction false} RoutedAppend<X>(a: seq<X>, b: seq<X>, route: X -> Route, chan: X -> Channel, copy: Copy)
    ensures Routed(a + b, route, chan, copy) == Routed(a, route, chan, copy) + Routed(b, route, chan, copy)
    decreases |b|
  {
    if |b| > 0 {
      var b' := b[..|b| - 1];
      assert (a + b)[..|a + b| - 1] == a + b';
      RoutedAppend(a, b', route, chan, copy);
    } else {
      assert a + b == a;
    }
  }

  lemma RoutedPush<X>(steps: seq<X>, s: X, route: X -> Route, chan: X -> Channel, copy: Copy)
    ensures Routed(steps + [s], route, chan, copy) == Routed(steps, route, chan, copy) + (if Goes(route(s), copy) then [chan(s)] else [])
  {
    assert (steps + [s])[..|steps|] == steps;
  }

  /** The state before step k: `s0` for the first, else what the previous
      step left, as `after` reads it. */
  function Before<X, S>(steps: seq<X>, after: X -> S, s0: S, k: nat): S
    requires k <= |steps|
  {
    if k == 0 then s0 else after(steps[k - 1])
  }

  /** Step k of `steps` satisfies `ok` about `chs[k]` from the state before
      it, for every k. */
  predicate StepsOk<X, S>(ok: (Channel, S, X) -> bool, after: X -> S, chs: seq<Channel>, s0: S, steps: seq<X>)
    decreases |chs|
  {
    && |steps| == |chs|
    && (|chs| > 0 ==>
          && StepsOk(ok, after, chs[..|chs| - 1], s0, steps[..|chs| - 1])
          && ok(chs[|chs| - 1], Before(steps, after, s0, |chs| - 1), steps[|chs| - 1]))
  }

  /** The promise about one step, read off the whole trace. */
  lemma {:induction false} StepsOkAt<X, S>(ok: (Channel, S, X) -> bool, after: X -> S, chs: seq<Channel>, s0: S,
                                           steps: seq<X>, k: nat)
    requires StepsOk(ok, after, chs, s0, steps) && k < |chs|
    ensures ok(chs[k], Before(steps, after, s0, k), steps[k])
    decreases |chs|
  {
    var n := |chs| - 1;
    if k < n {
      StepsOkAt(ok, after, chs[..n], s0, steps[..n], k);
      assert Before(steps[..n], after, s0, k) == Before(steps, after, s0, k);
    }
  }

  lemma {:induction false} StepsOkAppend<X, S>(ok: (Channel, S, X) -> bool, after: X -> S, chs: seq<Channel>, s0: S,
                                               steps: seq<X>, chs': seq<Channel>, steps': seq<X>)
    requires StepsOk(ok, after, chs, s0, steps)
    requires StepsOk(ok, after, chs', Before(steps, after, s0, |steps|), steps')
    ensures StepsOk(ok, after, chs + chs', s0, steps + steps')
    decreases |chs'|
  {
    if |chs'| > 0 {
      var n := |chs'| - 1;
      var s1 := Before(steps, after, s0, |steps|);
      StepsOkAppend(ok, after, chs, s0, steps, chs'[..n], steps'[..n]);
      assert (chs + chs')[..|chs| + n] == chs + chs'[..n];
      assert (steps + steps')[..|chs| + n] == steps + steps'[..n];
      assert Before(steps + steps', after, s0, |chs| + n) == Before(steps', after, s1, n);
    } else {
      assert chs + chs' == chs && steps + steps' == steps;
    }
  }

  lemma {:induction false} StepsOkPush<X, S>(ok: (Channel, S, X) -> bool, after: X -> S, chs: seq<Channel>, s0: S,
                                             steps: seq<X>, c: Channel, s: X)
    requires StepsOk(ok, after, chs, s0, steps)
    requires ok(c, Before(steps, after, s0, |steps|), s)
    ensures StepsOk(ok, after, chs + [c], s0, steps + [s])
  {
    assert (chs + [c])[..|chs|] == chs && (steps + [s])[..|chs|] == steps;
  }

  /** The steps `one` takes over `chs`, each from the state the previous
      one left, as `after` reads it. */
  ghost function LoopSteps<X, S>(one: (Channel, S) -> X, after: X -> S, chs: seq<Channel>, s0: S): (r: seq<X>)
    ensures |r| == |chs|
  {
    if |chs| == 0 then []
    else
      var prev := LoopSteps(one, after, chs[..|chs| - 1], s0);
      prev + [one(chs[|chs| - 1], Before(prev, after, s0, |prev|))]
  }

  /** When every step keeps `ok`, so does the trace. */
  lemma {:induction false} LoopStepsOk<X, S>(ok: (Channel, S, X) -> bool, one: (Channel, S) -> X, after: X -> S,
                                             chs: seq<Channel>, s0: S)
    requires forall c, st :: ok(c, st, one(c, st))
    ensures StepsOk(ok, after, chs, s0, LoopSteps(one, after, chs, s0))
  {
    if |chs| > 0 {
      var init := chs[..|chs| - 1];
      var prev := LoopSteps(one, after, init, s0);
      LoopStepsOk(ok, one, after, init, s0);
      StepsOkPush(ok, after, init, s0, prev, chs[|chs| - 1], one(chs[|chs| - 1], Before(prev, after, s0, |prev|)));
      assert init + [chs[|chs| - 1]] == chs;
    }
  }


  /** What InsertOne promises about channel `c` handled from state `st`. */
  predicate InsertStepFrom(pers: Persistence, p: Prompts, info: BasicStats, t: ChannelType, action: InsertAction, c: Channel,
                           st: InsertState, s: Step) {
    && s.route != ToBoth
    && s.chan == Relabelled(c, s.chan.chanNum, s.chan.channelId, s.chan.dbMplexId)
    && (!IsNew(info, t, c) ==> s.route == ToRemaining && s.chan == c && s.st == st)
    && (s.route == ToSkipped <==> IsNew(info, t, c) && action == InsertIgnoreAll)
    && (s.route == ToSkipped ==> s.chan == c && s.st == st)
    && (s.route == ToDone ==>
          && IsNew(info, t, c) && s.chan.channelId != 0 && |s.chan.chanNum| >= 1
          && !IsConflicting(st.db, s.chan.chanNum, c.sourceId, 0)
          && s.st.db == st.db[s.chan.channelId := InsertedRow(s.chan, s.chan.dbMplexId)])
    && (s.route != ToDone ==> s.st.db == st.db)
    && (st.cancelAll ==> s.route != ToDone && s.st == st)
    && (action != InsertManual && !p.interactive ==> s.st.cancelAll == st.cancelAll)
    && (IsNew(info, t, c) && s.chan.channelId != 0 ==>
          && s.chan.channelId == pers.createChanId(st.db, c.sourceId, s.chan.chanNum)
          && (s.route == ToDone <==> s.chan.dbMplexId != 0 && pers.createChannel(st.db, s.chan)))
    && (IsNew(info, t, c) && action == InsertAll && !st.cancelAll ==>
          var (num, taken) := Renumber(st.db, c, c.chanNum, t.ATSCNonConflicting? || t.ATSCConflicting?, 0, false);
          !p.interactive || (!taken && !IsConflictingType(t)) ==>
            && s.chan.chanNum == num
            && (s.chan.channelId != 0 <==> !taken && pers.createChanId(st.db, c.sourceId, num) > 0))
  }

  function InsertOk(pers: Persistence, p: Prompts, info: BasicStats, t: ChannelType, action: InsertAction)
    : (Channel, InsertState, Step) -> bool
  {
    (c, st, s) => InsertStepFrom(pers, p, info, t, action, c, st, s)
  }

  /** The multiplex a step gives a channel of a transport with tuning
      `tuning` once the channel has a channel id. */
  predicate MplexStep(pers: Persistence, info: BasicStats, t: ChannelType, tuning: Tuning, c: Channel, st: InsertState, s: Step) {
    IsNew(info, t, c) && s.chan.channelId != 0 ==> s.chan.dbMplexId == MplexFor(pers, st.db, tuning, c)
  }

  function MplexOk(pers: Persistence, info: BasicStats, t: ChannelType, tuning: Tuning): (Channel, InsertState, Step) -> bool {
    (c, st, s) => MplexStep(pers, info, t, tuning, c, st, s)
  }

  function StepState(s: Step): InsertState { s.st }
  function StepRoute(s: Step): Route { s.route }
  function StepChan(s: Step): Channel { s.chan }

  /** InsertOne keeps the promises of a step. */
  lemma InsertOneOk(pers: Persistence, p: Prompts, info: BasicStats, action: InsertAction, t: ChannelType,
                    transport: Transport, chan: Channel, st: InsertState)
    ensures InsertOk(pers, p, info, t, action)(chan, st, InsertOne(pers, p, info, action, t, transport, chan, st))
    ensures MplexOk(pers, info, t, transport.tuning)(chan, st, InsertOne(pers, p, info, action, t, transport, chan, st))
  {
    assert InsertStepFrom(pers, p, info, t, action, chan, st, InsertOne(pers, p, info, action, t, transport, chan, st));
    assert MplexStep(pers, info, t, transport.tuning, chan, st, InsertOne(pers, p, info, action, t, transport, chan, st));
  }

  function InsertStepper(pers: Persistence, p: Prompts, info: BasicStats, action: InsertAction, t: ChannelType,
                         transport: Transport): (Channel, InsertState) -> Step
  {
    (c, st) => InsertOne(pers, p, info, action, t, transport, c, st)
  }

  lemma InsertStepperOk(pers: Persistence, p: Prompts, info: BasicStats, action: InsertAction, t: ChannelType, transport: Transport)
    ensures forall c, st :: InsertOk(pers, p, info, t, action)(c, st, InsertStepper(pers, p, info, action, t, transport)(c, st))
    ensures forall c, st :: MplexOk(pers, info, t, transport.tuning)(c, st, InsertStepper(pers, p, info, action, t, transport)(c, st))
  {
    forall c, st
      ensures InsertOk(pers, p, info, t, action)(c, st, InsertStepper(pers, p, info, action, t, transport)(c, st))
      ensures MplexOk(pers, info, t, transport.tuning)(c, st, InsertStepper(pers, p, info, action, t, transport)(c, st))
    {
      InsertOneOk(pers, p, info, action, t, transport, c, st);
    }
  }

  /** The steps InsertChans takes over `chs`, one InsertOne per channel,
      each from the state the previous one left. */
  ghost function ChanSteps(pers: Persistence, p: Prompts, info: BasicStats, action: InsertAction, t: ChannelType,
                           transport: Transport, chs: seq<Channel>, st: InsertState): (r: seq<Step>)
    ensures StepsOk(InsertOk(pers, p, info, t, action), StepState, chs, st, r)
    ensures StepsOk(MplexOk(pers, info, t, transport.tuning), StepState, chs, st, r)
  {
    var one := InsertStepper(pers, p, info, action, t, transport);
    InsertStepperOk(pers, p, info, action, t, transport);
    LoopStepsOk(InsertOk(pers, p, info, t, action), one, StepState, chs, st);
    LoopStepsOk(MplexOk(pers, info, t, transport.tuning), one, StepState, chs, st);
    LoopSteps(one, StepState, chs, st)
  }


  /** Placing one more step keeps the copies equal to the routed channels. */
  lemma SplitStep(prev: Sorted, steps: seq<Step>, st: InsertState, transport: Transport, s: Step)
    requires s.route != ToBoth
    requires && prev.remaining.channels == Routed(steps, StepRoute, StepChan, RemainingCopy)
             && prev.done.channels == Routed(steps, StepRoute, StepChan, DoneCopy)
             && prev.skipped.channels == Routed(steps, StepRoute, StepChan, SkippedCopy)
             && prev.st == Before(steps, StepState, st, |steps|)
    ensures var r := Place(prev, transport, s);
            && r.remaining.channels == Routed(steps + [s], StepRoute, StepChan, RemainingCopy)
            && r.done.channels == Routed(steps + [s], StepRoute, StepChan, DoneCopy)
            && r.skipped.channels == Routed(steps + [s], StepRoute, StepChan, SkippedCopy)
            && r.st == Before(steps + [s], StepState, st, |steps| + 1)
  {
    assert (steps + [s])[..|steps|] == steps;
  }

  lemma ChanStepsLast(pers: Persistence, p: Prompts, info: BasicStats, action: InsertAction, t: ChannelType,
                      transport: Transport, chs: seq<Channel>, st: InsertState)
    requires |chs| > 0
    ensures var prev := ChanSteps(pers, p, info, action, t, transport, chs[..|chs| - 1], st);
            ChanSteps(pers, p, info, action, t, transport, chs, st) ==
              prev + [InsertOne(pers, p, info, action, t, transport, chs[|chs| - 1], Before(prev, StepState, st, |prev|))]
  {
  }

  lemma InsertChansLast(pers: Persistence, p: Prompts, info: BasicStats, action: InsertAction, t: ChannelType,
                        transport: Transport, chs: seq<Channel>, st: InsertState)
    requires |chs| > 0
    ensures var prev := InsertChans(pers, p, info, action, t, transport, chs[..|chs| - 1], st);
            InsertChans(pers, p, info, action, t, transport, chs, st) ==
              Place(prev, transport, InsertOne(pers, p, info, action, t, transport, chs[|chs| - 1], prev.st))
  {
  }

  /** The channels InsertChans sorts into each copy are exactly those its
      steps route there, and its state is the last step's. */
  lemma {:induction false} InsertChansSplit(pers: Persistence, p: Prompts, info: BasicStats, action: InsertAction, t: ChannelType,
                                            transport: Transport, chs: seq<Channel>, st: InsertState)
    ensures var r := InsertChans(pers, p, info, action, t, transport, chs, st);
            var steps := ChanSteps(pers, p, info, action, t, transport, chs, st);
            && r.remaining.channels == Routed(steps, StepRoute, StepChan, RemainingCopy)
            && r.done.channels == Routed(steps, StepRoute, StepChan, DoneCopy)
            && r.skipped.channels == Routed(steps, StepRoute, StepChan, SkippedCopy)
            && r.st == Before(steps, StepState, st, |steps|)
  {
    if |chs| > 0 {
      var n := |chs| - 1;
      var prevR := InsertChans(pers, p, info, action, t, transport, chs[..n], st);
      var prevS := ChanSteps(pers, p, info, action, t, transport, chs[..n], st);
      InsertChansSplit(pers, p, info, action, t, transport, chs[..n], st);
      var s := InsertOne(pers, p, info, action, t, transport, chs[n], prevR.st);
      ChanStepsLast(pers, p, info, action, t, transport, chs, st);
      InsertChansLast(pers, p, info, action, t, transport, chs, st);
      SplitStep(prevR, prevS, st, transport, s);
    }
  }


  lemma {:induction false} InsertChansKeepsUnique(pers: Persistence, p: Prompts, info: BasicStats, action: InsertAction, t: ChannelType,
                                                  transport: Transport, chs: seq<Channel>, st: InsertState)
    requires DbWellFormed(st.db) && UniqueNumbers(st.db)
    ensures DbWellFormed(InsertChans(pers, p, info, action, t, transport, chs, st).st.db)
    ensures UniqueNumbers(InsertChans(pers, p, info, action, t, transport, chs, st).st.db)
  {
    if |chs| > 0 {
      var prev := InsertChans(pers, p, info, action, t, transport, chs[..|chs| - 1], st);
      InsertChansKeepsUnique(pers, p, info, action, t, transport, chs[..|chs| - 1], st);
      InsertOneKeepsUnique(pers, p, info, action, t, transport, chs[|chs| - 1], prev.st);
    }
  }

  datatype InsertResult = InsertResult(next: seq<Transport>, done: seq<Transport>, skipped: seq<Transport>, st: InsertState)

  /** The outer loop of InsertChannels over the transports from the state
      `st`: each transport's copies join the result lists when not empty. */
  function InsertList(pers: Persistence, p: Prompts, info: BasicStats, action: InsertAction, t: ChannelType,
                      ts: seq<Transport>, st: InsertState): (r: InsertResult)
    ensures |Flat(r.next)| + |Flat(r.done)| + |Flat(r.skipped)| == |Flat(ts)|
    ensures forall c :: c in Flat(ts) && !IsNew(info, t, c) ==> c in Flat(r.next)
    ensures forall c :: c in Flat(r.skipped) ==> c in Flat(ts) && IsNew(info, t, c)
    ensures action == InsertIgnoreAll ==> r.done == [] && r.st == st
    ensures action == InsertIgnoreAll ==> |Flat(r.skipped)| == CountIf(Flat(ts), NewOfType(info, t))
    ensures action != InsertIgnoreAll ==> r.skipped == []
    ensures st.cancelAll ==> r.done == [] && r.st == st
    ensures st.db.Keys <= r.st.db.Keys
    ensures forall c :: c in Flat(r.done) ==> c.channelId != 0 && c.channelId in r.st.db
    ensures !p.interactive && !p.useGui ==> r.st.counters == st.counters
  {
    if |ts| == 0 then InsertResult([], [], [], st)
    else
      var init := ts[..|ts| - 1];
      var transport := ts[|ts| - 1];
      var prev := InsertList(pers, p, info, action, t, init, st);
      var s := InsertChans(pers, p, info, action, t, transport, transport.channels, prev.st);
      CountIfAppend(Flat(init), transport.channels, NewOfType(info, t));
      InsertResult(PushIfAny(prev.next, s.remaining), PushIfAny(prev.done, s.done), PushIfAny(prev.skipped, s.skipped), s.st)
  }

  lemma {:induction false} InsertListKeepsUnique(pers: Persistence, p: Prompts, info: BasicStats, action: InsertAction, t: ChannelType,
                                                 ts: seq<Transport>, st: InsertState)
    requires DbWellFormed(st.db) && UniqueNumbers(st.db)
    ensures DbWellFormed(InsertList(pers, p, info, action, t, ts, st).st.db)
    ensures UniqueNumbers(InsertList(pers, p, info, action, t, ts, st).st.db)
  {
    if |ts| > 0 {
      var init := ts[..|ts| - 1];
      var transport := ts[|ts| - 1];
      var prev := InsertList(pers, p, info, action, t, init, st);
      InsertListKeepsUnique(pers, p, info, action, t, init, st);
      InsertChansKeepsUnique(pers, p, info, action, t, transport, transport.channels, prev.st);
    }
  }

  lemma BeforeAppend<X, S>(a: seq<X>, b: seq<X>, after: X -> S, s0: S)
    ensures Before(a + b, after, s0, |a| + |b|) == Before(b, after, Before(a, after, s0, |a|), |b|)
  {
    if |b| > 0 {
      assert (a + b)[|a| + |b| - 1] == b[|b| - 1];
    }
  }

  /** The steps InsertList takes: the steps of each transport's channels in
      turn, each transport from the state the previous one left. */
  ghost function ListSteps(pers: Persistence, p: Prompts, info: BasicStats, action: InsertAction, t: ChannelType,
                           ts: seq<Transport>, st: InsertState): (r: seq<Step>)
    ensures StepsOk(InsertOk(pers, p, info, t, action), StepState, Flat(ts), st, r)
  {
    if |ts| == 0 then []
    else
      var init := ts[..|ts| - 1];
      var transport := ts[|ts| - 1];
      var prev := ListSteps(pers, p, info, action, t, init, st);
      var from := Before(prev, StepState, st, |prev|);
      var cs := ChanSteps(pers, p, info, action, t, transport, transport.channels, from);
      StepsOkAppend(InsertOk(pers, p, info, t, action), StepState, Flat(init), st, prev, transport.channels, cs);
      prev + cs
  }

  lemma ListStepsLast(pers: Persistence, p: Prompts, info: BasicStats, action: InsertAction, t: ChannelType,
                      ts: seq<Transport>, st: InsertState)
    requires |ts| > 0
    ensures var prev := ListSteps(pers, p, info, action, t, ts[..|ts| - 1], st);
            ListSteps(pers, p, info, action, t, ts, st) ==
              prev + ChanSteps(pers, p, info, action, t, ts[|ts| - 1], ts[|ts| - 1].channels, Before(prev, StepState, st, |prev|))
  {
  }

  lemma InsertListLast(pers: Persistence, p: Prompts, info: BasicStats, action: InsertAction, t: ChannelType,
                       ts: seq<Transport>, st: InsertState)
    requires |ts| > 0
    ensures var prev := InsertList(pers, p, info, action, t, ts[..|ts| - 1], st);
            var s := InsertChans(pers, p, info, action, t, ts[|ts| - 1], ts[|ts| - 1].channels, prev.st);
            InsertList(pers, p, info, action, t, ts, st) ==
              InsertResult(PushIfAny(prev.next, s.remaining), PushIfAny(prev.done, s.done), PushIfAny(prev.skipped, s.skipped), s.st)
  {
  }

  /** One transport's copies joined to the lists before it. */
  lemma ListSplitStep(r: InsertResult, prevR: InsertResult, s: Sorted, prevS: seq<Step>, cs: seq<Step>, st: InsertState)
    requires && Flat(r.next) == Flat(prevR.next) + s.remaining.channels
             && Flat(r.done) == Flat(prevR.done) + s.done.channels
             && Flat(r.skipped) == Flat(prevR.skipped) + s.skipped.channels
             && r.st == s.st
    requires && Flat(prevR.next) == Routed(prevS, StepRoute, StepChan, RemainingCopy)
             && Flat(prevR.done) == Routed(prevS, StepRoute, StepChan, DoneCopy)
             && Flat(prevR.skipped) == Routed(prevS, StepRoute, StepChan, SkippedCopy)
             && prevR.st == Before(prevS, StepState, st, |prevS|)
    requires && s.remaining.channels == Routed(cs, StepRoute, StepChan, RemainingCopy)
             && s.done.channels == Routed(cs, StepRoute, StepChan, DoneCopy)
             && s.skipped.channels == Routed(cs, StepRoute, StepChan, SkippedCopy)
             && s.st == Before(cs, StepState, prevR.st, |cs|)
    ensures && Flat(r.next) == Routed(prevS + cs, StepRoute, StepChan, RemainingCopy)
            && Flat(r.done) == Routed(prevS + cs, StepRoute, StepChan, DoneCopy)
            && Flat(r.skipped) == Routed(prevS + cs, StepRoute, StepChan, SkippedCopy)
            && r.st == Before(prevS + cs, StepState, st, |prevS + cs|)
  {
    RoutedAppend(prevS, cs, StepRoute, StepChan, RemainingCopy);
    RoutedAppend(prevS, cs, StepRoute, StepChan, DoneCopy);
    RoutedAppend(prevS, cs, StepRoute, StepChan, SkippedCopy);
    BeforeAppend(prevS, cs, StepState, st);
  }

  /** The channels InsertList leaves for later types, inserts and skips
      are exactly those its steps route there, in order, and its state is
      the last step's. */
  lemma {:induction false} InsertListSplit(pers: Persistence, p: Prompts, info: BasicStats, action: InsertAction, t: ChannelType,
                                           ts: seq<Transport>, st: InsertState)
    ensures var r := InsertList(pers, p, info, action, t, ts, st);
            var steps := ListSteps(pers, p, info, action, t, ts, st);
            && Flat(r.next) == Routed(steps, StepRoute, StepChan, RemainingCopy)
            && Flat(r.done) == Routed(steps, StepRoute, StepChan, DoneCopy)
            && Flat(r.skipped) == Routed(steps, StepRoute, StepChan, SkippedCopy)
            && r.st == Before(steps, StepState, st, |steps|)
  {
    if |ts| > 0 {
      var n := |ts| - 1;
      var transport := ts[n];
      var prevR := InsertList(pers, p, info, action, t, ts[..n], st);
      var prevS := ListSteps(pers, p, info, action, t, ts[..n], st);
      InsertListSplit(pers, p, info, action, t, ts[..n], st);
      var cs := ChanSteps(pers, p, info, action, t, transport, transport.channels, prevR.st);
      InsertChansSplit(pers, p, info, action, t, transport, transport.channels, prevR.st);
      ListStepsLast(pers, p, info, action, t, ts, st);
      InsertListLast(pers, p, info, action, t, ts, st);
      ListSplitStep(InsertList(pers, p, info, action, t, ts, st), prevR,
                    InsertChans(pers, p, info, action, t, transport, transport.channels, prevR.st), prevS, cs, st);
    }
  }

  /** ChannelImporter::InsertChannels for one type: cancel-all and OK-all
      start cleared; the database and the suggestion counters carry over
      from earlier calls. Returns the channels not inserted, the inserted
      and skipped lists, the database and the counters. */
  function InsertChannels(pers: Persistence, p: Prompts, info: BasicStats, action: InsertAction, t: ChannelType,
                          ts: seq<Transport>, db: Db, counters: map<nat, nat>): (r: InsertResult)
    ensures |Flat(r.next)| + |Flat(r.done)| + |Flat(r.skipped)| == |Flat(ts)|
    ensures forall c :: c in Flat(ts) && !IsNew(info, t, c) ==> c in Flat(r.next)
    ensures action == InsertIgnoreAll ==> r.done == [] && r.st.db == db && r.st.counters == counters
    ensures action == InsertIgnoreAll ==> |Flat(r.skipped)| == CountIf(Flat(ts), NewOfType(info, t))
    ensures action != InsertIgnoreAll ==> r.skipped == []
    ensures db.Keys <= r.st.db.Keys
    ensures forall c :: c in Flat(r.done) ==> c.channelId != 0 && c.channelId in r.st.db
    ensures !p.interactive && !p.useGui ==> r.st.counters == counters
  {
    InsertList(pers, p, info, action, t, ts, InsertState(db, counters, false, false))
  }

  /** A routed channel is the channel of a step routed to that copy. */
  lemma {:induction false} RoutedMember<X>(steps: seq<X>, route: X -> Route, chan: X -> Channel, copy: Copy, c: Channel)
    requires c in Routed(steps, route, chan, copy)
    ensures exists k :: 0 <= k < |steps| && Goes(route(steps[k]), copy) && chan(steps[k]) == c
    decreases |steps|
  {
    var n := |steps| - 1;
    if c in Routed(steps[..n], route, chan, copy) {
      RoutedMember(steps[..n], route, chan, copy, c);
      var k :| 0 <= k < n && Goes(route(steps[..n][k]), copy) && chan(steps[..n][k]) == c;
      assert steps[..n][k] == steps[k];
    } else {
      assert Goes(route(steps[n]), copy) && chan(steps[n]) == c;
    }
  }

  /** The trace of one InsertChannels call. */
  ghost function InsertSteps(pers: Persistence, p: Prompts, info: BasicStats, action: InsertAction, t: ChannelType,
                             ts: seq<Transport>, db: Db, counters: map<nat, nat>): seq<Step> {
    ListSteps(pers, p, info, action, t, ts, InsertState(db, counters, false, false))
  }

  /** InsertChannels handles the scanned channels one by one, each step
      keeping InsertOne's promises from the state the previous one left;
      its three lists are the channels the steps route to each. */
  lemma InsertChannelsSplit(pers: Persistence, p: Prompts, info: BasicStats, action: InsertAction, t: ChannelType,
                            ts: seq<Transport>, db: Db, counters: map<nat, nat>)
    ensures var r := InsertChannels(pers, p, info, action, t, ts, db, counters);
            var steps := InsertSteps(pers, p, info, action, t, ts, db, counters);
            && StepsOk(InsertOk(pers, p, info, t, action), StepState, Flat(ts), InsertState(db, counters, false, false), steps)
            && Flat(r.next) == Routed(steps, StepRoute, StepChan, RemainingCopy)
            && Flat(r.done) == Routed(steps, StepRoute, StepChan, DoneCopy)
            && Flat(r.skipped) == Routed(steps, StepRoute, StepChan, SkippedCopy)
            && r.st == Before(steps, StepState, InsertState(db, counters, false, false), |steps|)
  {
    InsertListSplit(pers, p, info, action, t, ts, InsertState(db, counters, false, false));
  }

  /** Every channel of `done` is a new channel of `chs` of the type with a
      channel id and a non-empty number, and only its number, channel id and
      multiplex id changed. */
  predicate DoneFrom(info: BasicStats, t: ChannelType, chs: seq<Channel>, done: seq<Channel>) {
    forall c :: c in done ==>
      exists k ::
        && 0 <= k < |chs|
        && IsNew(info, t, chs[k]) && c.channelId != 0 && |c.chanNum| >= 1
        && c == Relabelled(chs[k], c.chanNum, c.channelId, c.dbMplexId)
  }

  /** What a trace of insert steps routes to the inserted and skipped lists. */
  lemma StepsDone(pers: Persistence, p: Prompts, info: BasicStats, t: ChannelType, action: InsertAction, chs: seq<Channel>,
                  st0: InsertState, steps: seq<Step>)
    requires StepsOk(InsertOk(pers, p, info, t, action), StepState, chs, st0, steps)
    ensures DoneFrom(info, t, chs, Routed(steps, StepRoute, StepChan, DoneCopy))
    ensures forall c :: c in Routed(steps, StepRoute, StepChan, SkippedCopy) ==> c in chs && IsNew(info, t, c)
  {
    forall c | c in Routed(steps, StepRoute, StepChan, DoneCopy)
      ensures exists k ::
        && 0 <= k < |chs|
        && IsNew(info, t, chs[k]) && c.channelId != 0 && |c.chanNum| >= 1
        && c == Relabelled(chs[k], c.chanNum, c.channelId, c.dbMplexId)
    {
      RoutedMember(steps, StepRoute, StepChan, DoneCopy, c);
      var k :| 0 <= k < |steps| && Goes(StepRoute(steps[k]), DoneCopy) && StepChan(steps[k]) == c;
      StepsOkAt(InsertOk(pers, p, info, t, action), StepState, chs, st0, steps, k);
      assert InsertStepFrom(pers, p, info, t, action, chs[k], Before(steps, StepState, st0, k), steps[k]);
    }
    forall c | c in Routed(steps, StepRoute, StepChan, SkippedCopy)
      ensures c in chs && IsNew(info, t, c)
    {
      RoutedMember(steps, StepRoute, StepChan, SkippedCopy, c);
      var k :| 0 <= k < |steps| && Goes(StepRoute(steps[k]), SkippedCopy) && StepChan(steps[k]) == c;
      StepsOkAt(InsertOk(pers, p, info, t, action), StepState, chs, st0, steps, k);
      assert InsertStepFrom(pers, p, info, t, action, chs[k], Before(steps, StepState, st0, k), steps[k]);
    }
  }

  /** Every channel InsertChannels inserts is a new scanned channel of the
      type, relabelled with a channel id and a non-empty number; every
      channel it skips is a new scanned channel of the type, unchanged. */
  lemma InsertChannelsDone(pers: Persistence, p: Prompts, info: BasicStats, action: InsertAction, t: ChannelType,
                           ts: seq<Transport>, db: Db, counters: map<nat, nat>)
    ensures DoneFrom(info, t, Flat(ts), Flat(InsertChannels(pers, p, info, action, t, ts, db, counters).done))
    ensures forall c :: c in Flat(InsertChannels(pers, p, info, action, t, ts, db, counters).skipped) ==>
      c in Flat(ts) && IsNew(info, t, c)
  {
    InsertChannelsSplit(pers, p, info, action, t, ts, db, counters);
    StepsDone(pers, p, info, t, action, Flat(ts), InsertState(db, counters, false, false),
              InsertSteps(pers, p, info, action, t, ts, db, counters));
  }

  /** A property of the state that every step keeps holds before every
      step. */
  lemma {:induction false} StepsKeep<X, S>(ok: (Channel, S, X) -> bool, after: X -> S, chs: seq<Channel>, s0: S, steps: seq<X>,
                                           inv: S -> bool, k: nat)
    requires StepsOk(ok, after, chs, s0, steps) && k <= |chs|
    requires inv(s0)
    requires forall c, st, s :: inv(st) && ok(c, st, s) ==> inv(after(s))
    ensures inv(Before(steps, after, s0, k))
    decreases k
  {
    if k > 0 {
      StepsKeep(ok, after, chs, s0, steps, inv, k - 1);
      StepsOkAt(ok, after, chs, s0, steps, k - 1);
    }
  }

  predicate NotCancelled(st: InsertState) { !st.cancelAll }

  /** Channel k of one transport gets a channel id only from CreateChanID,
      a new multiplex only from CreateMultiplex under the transport's tuning
      (or the one GetBetterMplexID offers), and once it has an id it is
      inserted exactly when it has a multiplex id and CreateChannel
      succeeds, each against the database the channels before it left. */
  lemma InsertChansInserted(pers: Persistence, p: Prompts, info: BasicStats, action: InsertAction, t: ChannelType,
                            transport: Transport, chs: seq<Channel>, st: InsertState, k: nat)
    requires k < |chs|
    ensures var steps := ChanSteps(pers, p, info, action, t, transport, chs, st);
            var before := Before(steps, StepState, st, k);
            && InsertChans(pers, p, info, action, t, transport, chs, st).done.channels == Routed(steps, StepRoute, StepChan, DoneCopy)
            && (steps[k].route == ToDone ==> IsNew(info, t, chs[k]) && steps[k].chan.channelId != 0)
            && (IsNew(info, t, chs[k]) && steps[k].chan.channelId != 0 ==>
                  && steps[k].chan.channelId == pers.createChanId(before.db, chs[k].sourceId, steps[k].chan.chanNum)
                  && steps[k].chan.dbMplexId == MplexFor(pers, before.db, transport.tuning, chs[k])
                  && (steps[k].route == ToDone <==> steps[k].chan.dbMplexId != 0 && pers.createChannel(before.db, steps[k].chan)))
  {
    var steps := ChanSteps(pers, p, info, action, t, transport, chs, st);
    InsertChansSplit(pers, p, info, action, t, transport, chs, st);
    StepsOkAt(InsertOk(pers, p, info, t, action), StepState, chs, st, steps, k);
    StepsOkAt(MplexOk(pers, info, t, transport.tuning), StepState, chs, st, steps, k);
    assert InsertStepFrom(pers, p, info, t, action, chs[k], Before(steps, StepState, st, k), steps[k]);
    assert MplexStep(pers, info, t, transport.tuning, chs[k], Before(steps, StepState, st, k), steps[k]);
  }

  /** Channel k of the scan is inserted only once CreateChanID gave it an
      id, and then exactly when it has a multiplex id and CreateChannel
      succeeds against the database the channels before it left. Without
      questions and with "Insert All", that is exactly when it is a new
      channel of the type, its number (the scanned one when free, else the
      default one) is free, CreateChanID gives it an id, and the rest
      succeeds. */
  lemma InsertChannelsInserted(pers: Persistence, p: Prompts, info: BasicStats, action: InsertAction, t: ChannelType,
                               ts: seq<Transport>, db: Db, counters: map<nat, nat>, k: nat)
    requires k < |Flat(ts)|
    ensures var steps := InsertSteps(pers, p, info, action, t, ts, db, counters);
            var c := Flat(ts)[k];
            var before := Before(steps, StepState, InsertState(db, counters, false, false), k);
            && Flat(InsertChannels(pers, p, info, action, t, ts, db, counters).done) == Routed(steps, StepRoute, StepChan, DoneCopy)
            && (steps[k].route == ToDone ==> IsNew(info, t, c) && steps[k].chan.channelId != 0)
            && (IsNew(info, t, c) && steps[k].chan.channelId != 0 ==>
                  && steps[k].chan.channelId == pers.createChanId(before.db, c.sourceId, steps[k].chan.chanNum)
                  && (steps[k].route == ToDone <==> steps[k].chan.dbMplexId != 0 && pers.createChannel(before.db, steps[k].chan)))
            && (action == InsertAll && !p.interactive ==>
                  var (num, taken) := Renumber(before.db, c, c.chanNum, t.ATSCNonConflicting? || t.ATSCConflicting?, 0, false);
                  && (IsNew(info, t, c) ==> steps[k].chan.chanNum == num)
                  && (steps[k].route == ToDone <==>
                        && IsNew(info, t, c) && !taken && pers.createChanId(before.db, c.sourceId, num) > 0
                        && steps[k].chan.dbMplexId != 0 && pers.createChannel(before.db, steps[k].chan)))
  {
    var st0 := InsertState(db, counters, false, false);
    var steps := InsertSteps(pers, p, info, action, t, ts, db, counters);
    var ok := InsertOk(pers, p, info, t, action);
    InsertChannelsSplit(pers, p, info, action, t, ts, db, counters);
    StepsOkAt(ok, StepState, Flat(ts), st0, steps, k);
    assert InsertStepFrom(pers, p, info, t, action, Flat(ts)[k], Before(steps, StepState, st0, k), steps[k]);
    if action == InsertAll && !p.interactive {
      forall c, st, s | NotCancelled(st) && ok(c, st, s) ensures NotCancelled(StepState(s)) {
        assert InsertStepFrom(pers, p, info, t, action, c, st, s);
      }
      StepsKeep(ok, StepState, Flat(ts), st0, steps, NotCancelled, k);
    }
  }

  /** Inserting never gives two channels of one source the same number. */
  lemma InsertChannelsKeepsUnique(pers: Persistence, p: Prompts, info: BasicStats, action: InsertAction, t: ChannelType,
                                  ts: seq<Transport>, db: Db, counters: map<nat, nat>)
    requires DbWellFormed(db) && UniqueNumbers(db)
    ensures DbWellFormed(InsertChannels(pers, p, info, action, t, ts, db, counters).st.db)
    ensures UniqueNumbers(InsertChannels(pers, p, info, action, t, ts, db, counters).st.db)
  {
    InsertListKeepsUnique(pers, p, info, action, t, ts, InsertState(db, counters, false, false));
  }
}

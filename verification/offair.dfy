/** ChannelImporter::DeleteChannels: channels the database holds that the
    scan found without a PMT are off the air; the user decides whether to
    delete them, hide them or leave them. */
module OffAir {
  import opened Channels

  /** QueryUserDelete's answers. */
  datatype DeleteAction = DeleteAll | DeleteManual | DeleteIgnoreAll | DeleteInvisibleAll

  /** A channel that was in the database but is not on the air now. */
  predicate IsOffAir(c: Channel) {
    c.dbMplexId != 0 && c.channelId != 0 && !c.inPmt
  }

  function OffAirP(): Channel -> bool {
    (c: Channel) => IsOffAir(c)
  }

  /** A position (transport index, channel index) of the list. */
  type Pos = (nat, nat)

  predicate ValidPos(ts: seq<Transport>, p: Pos) {
    p.0 < |ts| && p.1 < |ts[p.0].channels|
  }

  function At(ts: seq<Transport>, p: Pos): Channel
    requires ValidPos(ts, p)
  {
    ts[p.0].channels[p.1]
  }

  predicate Distinct(s: seq<Pos>) {
    forall a, b :: 0 <= a < b < |s| ==> s[a] != s[b]
  }

  /** A list without repeats has as many members as elements. */
  lemma {:induction false} DistinctCard(s: seq<Pos>)
    requires Distinct(s)
    ensures |set p | p in s| == |s|
  {
    if |s| > 0 {
      var init := s[..|s| - 1];
      DistinctCard(init);
      assert (set p | p in s) == (set p | p in init) + {s[|s| - 1]};
      assert s[|s| - 1] !in init;
    }
  }

  /** The off-air positions of transport i, in channel order. */
  function OffAirIn(i: nat, chs: seq<Channel>): (r: seq<Pos>)
    ensures |r| == CountIf(chs, OffAirP())
    ensures forall p: Pos :: p in r <==> p.0 == i && p.1 < |chs| && IsOffAir(chs[p.1])
    ensures Distinct(r)
  {
    if |chs| == 0 then []
    else
      var init := chs[..|chs| - 1];
      var r := OffAirIn(i, init) + (if IsOffAir(chs[|chs| - 1]) then [(i, |chs| - 1)] else []);
      assert forall j :: 0 <= j < |init| ==> init[j] == chs[j];
      r
  }

  /** The off_air_list of the source: every off-air position of the scan,
      transport by transport. */
  function OffAirList(ts: seq<Transport>): (r: seq<Pos>)
    ensures |r| == CountIf(Flat(ts), OffAirP())
    ensures forall p: Pos :: p in r ==> p.0 < |ts|
    ensures Distinct(r)
  {
    if |ts| == 0 then []
    else
      var init := ts[..|ts| - 1];
      var last := ts[|ts| - 1];
      CountIfAppend(Flat(init), last.channels, OffAirP());
      OffAirList(init) + OffAirIn(|ts| - 1, last.channels)
  }

  /** The list holds exactly the off-air positions. */
  lemma {:induction false} OffAirListMembers(ts: seq<Transport>)
    ensures forall p: Pos :: p in OffAirList(ts) <==> ValidPos(ts, p) && IsOffAir(At(ts, p))
  {
    if |ts| > 0 {
      var init := ts[..|ts| - 1];
      var last := ts[|ts| - 1];
      OffAirListMembers(init);
      forall p: Pos
        ensures p in OffAirList(ts) <==> ValidPos(ts, p) && IsOffAir(At(ts, p))
      {
        if p.0 < |init| {
          assert init[p.0] == ts[p.0];
        }
      }
    }
  }

  /** The ids of the off-air channels, read from the scan directly. */
  function OffAirIds(ts: seq<Transport>): set<nat> {
    set i, j | 0 <= i < |ts| && 0 <= j < |ts[i].channels| && IsOffAir(ts[i].channels[j]) :: ts[i].channels[j].channelId
  }

  /** The channel ids at the listed positions. */
  function ListedIds(ts: seq<Transport>, list: seq<Pos>): (ids: seq<nat>)
    requires forall p: Pos :: p in list ==> ValidPos(ts, p)
    ensures |ids| == |list|
    ensures forall m :: 0 <= m < |list| ==> ids[m] == At(ts, list[m]).channelId
  {
    seq(|list|, m requires 0 <= m < |list| => At(ts, list[m]).channelId)
  }

  /** The members of a list of ids. */
  function Members(s: seq<nat>): set<nat> {
    set x | x in s
  }

  /** ChannelUtil::DeleteChannel for each listed id from index k on. */
  function DeleteListed(db: Db, ids: seq<nat>, k: nat): (r: Db)
    requires k <= |ids|
    ensures r.Keys == db.Keys - Members(ids[k..])
    ensures forall id :: id in r ==> r[id] == db[id]
    decreases |ids| - k
  {
    if k == |ids| then db
    else
      var r := DeleteListed(db - {ids[k]}, ids, k + 1);
      assert Members(ids[k..]) == {ids[k]} + Members(ids[k + 1..]) by {
        assert ids[k..] == [ids[k]] + ids[k + 1..];
      }
      r
  }

  /** ChannelUtil::SetVisible(not visible) and the "_" prefix on the
      stored number, for one channel id; an id the database does not hold
      is left alone. */
  function Hide(db: Db, id: nat): Db {
    if id in db then db[id := db[id].(visible := NotVisible, chanNum := "_" + db[id].chanNum)] else db
  }

  /** `later` is `earlier` with one or more "_" in front. */
  predicate Hidden(earlier: DbChannel, later: DbChannel) {
    && later == earlier.(visible := NotVisible, chanNum := later.chanNum)
    && |later.chanNum| > |earlier.chanNum|
    && later.chanNum[0] == '_'
    && later.chanNum[|later.chanNum| - |earlier.chanNum|..] == earlier.chanNum
  }

  lemma HiddenTransitive(a: DbChannel, b: DbChannel, c: DbChannel)
    requires Hidden(a, b) && Hidden(b, c)
    ensures Hidden(a, c)
  {
    assert c.chanNum[|c.chanNum| - |a.chanNum|..] == c.chanNum[|c.chanNum| - |b.chanNum|..][|b.chanNum| - |a.chanNum|..];
  }

  /** The kDeleteInvisibleAll loop over the listed ids from index k on. */
  function HideListed(db: Db, ids: seq<nat>, k: nat): (r: Db)
    requires k <= |ids|
    ensures r.Keys == db.Keys
    decreases |ids| - k
  {
    if k == |ids| then db else HideListed(Hide(db, ids[k]), ids, k + 1)
  }

  /** Every listed channel the database holds ends up hidden; every other
      row is untouched. */
  lemma {:induction false} HideListedHides(db: Db, ids: seq<nat>, k: nat)
    requires k <= |ids|
    ensures forall id :: id in db && id in ids[k..] ==> Hidden(db[id], HideListed(db, ids, k)[id])
    ensures forall id :: id in db && id !in ids[k..] ==> HideListed(db, ids, k)[id] == db[id]
    decreases |ids| - k
  {
    if k < |ids| {
      var db' := Hide(db, ids[k]);
      var r := HideListed(db', ids, k + 1);
      HideListedHides(db', ids, k + 1);
      assert ids[k..] == [ids[k]] + ids[k + 1..];
      forall id | id in db && id in ids[k..]
        ensures Hidden(db[id], r[id])
      {
        if id == ids[k] && id in ids[k + 1..] {
          HiddenTransitive(db[id], db'[id], r[id]);
        }
      }
    }
  }

  /** The channels of transport i whose position is not deleted. */
  function KeepUndeleted(i: nat, chs: seq<Channel>, deleted: set<Pos>): seq<Channel>
  {
    if |chs| == 0 then []
    else KeepUndeleted(i, chs[..|chs| - 1], deleted) + (if (i, |chs| - 1) in deleted then [] else [chs[|chs| - 1]])
  }

  /** The channels of a list that are not off the air, in order. */
  function OnAir(chs: seq<Channel>): (r: seq<Channel>)
    ensures |r| + CountIf(chs, OffAirP()) == |chs|
    ensures forall c :: c in r <==> c in chs && !IsOffAir(c)
  {
    if |chs| == 0 then []
    else
      var init := chs[..|chs| - 1];
      var r := OnAir(init) + (if IsOffAir(chs[|chs| - 1]) then [] else [chs[|chs| - 1]]);
      assert forall c :: c in chs <==> c in init || c == chs[|chs| - 1] by {
        }
      r
  }

  /** Dropping the deleted positions drops exactly the off-air channels. */
  lemma {:induction false} KeepUndeletedIsOnAir(i: nat, chs: seq<Channel>, deleted: set<Pos>)
    requires forall j :: 0 <= j < |chs| ==> ((i, j) in deleted <==> IsOffAir(chs[j]))
    ensures KeepUndeleted(i, chs, deleted) == OnAir(chs)
  {
    if |chs| > 0 {
      var init := chs[..|chs| - 1];
      assert forall j :: 0 <= j < |init| ==> init[j] == chs[j];
      KeepUndeletedIsOnAir(i, init, deleted);
    }
  }

  /** Every transport stays, with its off-air channels removed. */
  function RemoveOffAir(ts: seq<Transport>): (r: seq<Transport>)
    ensures |r| == |ts|
    ensures forall i :: 0 <= i < |ts| ==> r[i] == ts[i].(channels := OnAir(ts[i].channels))
  {
    seq(|ts|, i requires 0 <= i < |ts| => ts[i].(channels := OnAir(ts[i].channels)))
  }

  lemma {:induction false} RemoveOffAirCount(ts: seq<Transport>)
    ensures |Flat(RemoveOffAir(ts))| + CountIf(Flat(ts), OffAirP()) == |Flat(ts)|
  {
    if |ts| > 0 {
      var init := ts[..|ts| - 1];
      RemoveOffAirCount(init);
      assert RemoveOffAir(ts)[..|ts| - 1] == RemoveOffAir(init);
      CountIfAppend(Flat(init), ts[|ts| - 1].channels, OffAirP());
    }
  }

  datatype DeleteResult = DeleteResult(count: nat, transports: seq<Transport>, db: Db)

  /** Every off-air id of the scan is at some listed position. */
  lemma OffAirIdsListed(ts: seq<Transport>, i: nat, j: nat)
    requires i < |ts| && j < |ts[i].channels| && IsOffAir(ts[i].channels[j])
    ensures forall p: Pos :: p in OffAirList(ts) ==> ValidPos(ts, p)
    ensures ts[i].channels[j].channelId in ListedIds(ts, OffAirList(ts))
  {
    OffAirListMembers(ts);
    var list := OffAirList(ts);
    var p: Pos := (i, j);
    assert ValidPos(ts, p) && IsOffAir(At(ts, p));
    var m :| 0 <= m < |list| && list[m] == p;
    assert ListedIds(ts, list)[m] == ts[i].channels[j].channelId;
  }

  /** The ids at the listed positions are the off-air ids of the scan. */
  lemma ListedIdsAreOffAirIds(ts: seq<Transport>)
    ensures forall p: Pos :: p in OffAirList(ts) ==> ValidPos(ts, p)
    ensures Members(ListedIds(ts, OffAirList(ts))) == OffAirIds(ts)
  {
    OffAirListMembers(ts);
    var list := OffAirList(ts);
    var ids := ListedIds(ts, list);
    forall i, j | 0 <= i < |ts| && 0 <= j < |ts[i].channels| && IsOffAir(ts[i].channels[j])
      ensures ts[i].channels[j].channelId in ids
    {
      OffAirIdsListed(ts, i, j);
    }
    forall x | x in ids
      ensures x in OffAirIds(ts)
    {
      var m :| 0 <= m < |ids| && ids[m] == x;
      var p := list[m];
      assert ValidPos(ts, p) && IsOffAir(ts[p.0].channels[p.1]);
      assert x == ts[p.0].channels[p.1].channelId;
    }
  }

  /** The newlist loop: each transport keeps the channels whose position
      is not deleted. */
  function DropPositions(ts: seq<Transport>, deleted: set<Pos>): (r: seq<Transport>)
    ensures |r| == |ts|
  {
    seq(|ts|, i requires 0 <= i < |ts| => ts[i].(channels := KeepUndeleted(i, ts[i].channels, deleted)))
  }

  /** Dropping the listed positions removes exactly the off-air channels. */
  lemma DropListedIsRemoveOffAir(ts: seq<Transport>)
    ensures DropPositions(ts, set p | p in OffAirList(ts)) == RemoveOffAir(ts)
  {
    OffAirListMembers(ts);
    var deleted := set p | p in OffAirList(ts);
    forall i | 0 <= i < |ts|
      ensures DropPositions(ts, deleted)[i] == RemoveOffAir(ts)[i]
    {
      KeepUndeletedIsOnAir(i, ts[i].channels, deleted);
    }
  }

  /** The database without the rows of the listed channels. */
  function DeleteOffAir(ts: seq<Transport>, db: Db): (r: Db)
    ensures r == db - OffAirIds(ts)
  {
    ListedIdsAreOffAirIds(ts);
    var ids := ListedIds(ts, OffAirList(ts));
    assert ids[0..] == ids;
    DeleteListed(db, ids, 0)
  }

  /** The kDeleteAll branch: the listed channels leave the database and the
      scan, and their number is returned. */
  function DeleteAllListed(ts: seq<Transport>, db: Db, list: seq<Pos>): (r: DeleteResult)
    requires list == OffAirList(ts)
    ensures r.count == CountIf(Flat(ts), OffAirP())
    ensures r.count + |Flat(r.transports)| == |Flat(ts)|
    ensures r.transports == RemoveOffAir(ts)
    ensures r.db == db - OffAirIds(ts)
  {
    var deleted := set p | p in list;
    DropListedIsRemoveOffAir(ts);
    RemoveOffAirCount(ts);
    DistinctCard(list);
    DeleteResult(|deleted|, DropPositions(ts, deleted), DeleteOffAir(ts, db))
  }

  /** ChannelImporter::DeleteChannels. `query` is QueryUserDelete, given the
      number of off-air channels. Nothing changes when no channel is off the
      air or the answer is to ignore them or to handle them one by one (not
      implemented). Hiding keeps the scan and returns 0 but marks every
      off-air channel's database row not visible with "_" before its number.
      Deleting removes exactly the off-air channels from the database and
      from the scan (every transport stays) and returns how many there were. */
  function DeleteChannels(ts: seq<Transport>, db: Db, query: nat -> DeleteAction): (r: DeleteResult)
    ensures CountIf(Flat(ts), OffAirP()) == 0 ==> r == DeleteResult(0, ts, db)
    ensures CountIf(Flat(ts), OffAirP()) > 0 && query(CountIf(Flat(ts), OffAirP())) in {DeleteIgnoreAll, DeleteManual} ==>
      r == DeleteResult(0, ts, db)
    ensures CountIf(Flat(ts), OffAirP()) > 0 && query(CountIf(Flat(ts), OffAirP())) == DeleteInvisibleAll ==>
      && r.count == 0 && r.transports == ts && r.db.Keys == db.Keys
      && (forall id :: id in db && id in OffAirIds(ts) ==> Hidden(db[id], r.db[id]))
      && (forall id :: id in db && id !in OffAirIds(ts) ==> r.db[id] == db[id])
    ensures CountIf(Flat(ts), OffAirP()) > 0 && query(CountIf(Flat(ts), OffAirP())) == DeleteAll ==>
      && r.count == CountIf(Flat(ts), OffAirP())
      && r.count + |Flat(r.transports)| == |Flat(ts)|
      && r.transports == RemoveOffAir(ts)
      && r.db == db - OffAirIds(ts)
  {
    var list := OffAirList(ts);
    if |list| == 0 then DeleteResult(0, ts, db)
    else
      var action := query(|list|);
      if action == DeleteAll then DeleteAllListed(ts, db, list)
      else if action == DeleteInvisibleAll then
        ListedIdsAreOffAirIds(ts);
        var ids := ListedIds(ts, list);
        HideListedHides(db, ids, 0);
        assert ids[0..] == ids;
        DeleteResult(0, ts, HideListed(db, ids, 0))
      else
        DeleteResult(0, ts, db)
  }
}

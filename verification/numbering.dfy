/** Channel numbers: the formats the importer builds them in, the check a
    user-entered number must pass, and the suggestion algorithm with its
    per-source free-number counter. */
module Numbering {
  import opened Util
  import opened Channels
  import opened Classify

  /** "%1_%2" of the ATSC major and minor numbers. */
  function AtscChanNum(major: nat, minor: nat): string {
    NatToString(major) + "_" + NatToString(minor)
  }

  /** "%1-%2": a prefix, a dash and a decimal number. */
  function Dashed(prefix: string, n: nat): string {
    prefix + "-" + NatToString(n)
  }

  /** The position of the first non-digit of s, |s| when all are digits. */
  function FirstNonDigit(s: string): (i: nat)
    ensures i <= |s|
  {
    if |s| == 0 || !IsDigit(s[0]) then 0 else 1 + FirstNonDigit(s[1..])
  }

  lemma {:induction false} FirstNonDigitIsSeparator(a: string, b: string, sep: char)
    requires AllDigits(a) && !IsDigit(sep)
    ensures FirstNonDigit(a + [sep] + b) == |a|
  {
    if |a| > 0 {
      assert (a + [sep] + b)[1..] == a[1..] + [sep] + b;
      FirstNonDigitIsSeparator(a[1..], b, sep);
    }
  }

  /** Two digit strings each followed by a separator agree when the whole
      strings do. */
  lemma SplitAtSeparator(a: string, b: string, x: string, y: string, sep: char)
    requires AllDigits(a) && AllDigits(x) && !IsDigit(sep)
    requires a + [sep] + b == x + [sep] + y
    ensures a == x && b == y
  {
    var s := a + [sep] + b;
    FirstNonDigitIsSeparator(a, b, sep);
    FirstNonDigitIsSeparator(x, y, sep);
    assert a == s[..|a|] == x;
    assert b == s[|a| + 1..] == y;
  }

  /** The ATSC number format loses nothing: major and minor can be read
      back from it. */
  lemma AtscChanNumInjective(major: nat, minor: nat, major': nat, minor': nat)
    requires AtscChanNum(major, minor) == AtscChanNum(major', minor')
    ensures major == major' && minor == minor'
  {
    SplitAtSeparator(NatToString(major), NatToString(minor), NatToString(major'), NatToString(minor'), '_');
    NatToStringInjective(major, major');
    NatToStringInjective(minor, minor');
  }

  /** The number InsertChannels and UpdateChannels give a channel whose own
      number is empty or taken: the ATSC form when the caller asks for it,
      else the service id for DVB, else "source-service" without a
      frequency id and "frequency-service" with one. */
  function DefaultChanNum(c: Channel, atscFormat: bool): (num: string)
    ensures |num| >= 1
    ensures atscFormat ==> num == AtscChanNum(c.atscMajor, c.atscMinor)
    ensures !atscFormat && c.siStandard == "dvb" ==> AllDigits(num) && DecimalValue(num) == c.serviceId
    ensures c.freqId == "" ==> IsDigit(num[0])
    ensures !atscFormat && c.siStandard != "dvb" && c.freqId == "" ==>
      num == NatToString(c.sourceId) + "-" + NatToString(c.serviceId)
    ensures !atscFormat && c.siStandard != "dvb" && c.freqId != "" ==>
      num == c.freqId + "-" + NatToString(c.serviceId)
  {
    if atscFormat then AtscChanNum(c.atscMajor, c.atscMinor)
    else if c.siStandard == "dvb" then DecimalRoundTrip(c.serviceId); NatToString(c.serviceId)
    else if c.freqId == "" then Dashed(NatToString(c.sourceId), c.serviceId)
    else Dashed(c.freqId, c.serviceId)
  }

  /** The transport stream id used to find or create a multiplex: the first
      nonzero of the VCT, SDT, PAT and VCT-channel ids. */
  function TransportStreamId(c: Channel): (tsid: nat)
    ensures tsid == 0 <==> c.vctTsId == 0 && c.sdtTsId == 0 && c.patTsId == 0 && c.vctChanTsId == 0
    ensures tsid in {0, c.vctTsId, c.sdtTsId, c.patTsId, c.vctChanTsId}
    ensures c.vctTsId != 0 ==> tsid == c.vctTsId
    ensures c.vctTsId == 0 && c.sdtTsId != 0 ==> tsid == c.sdtTsId
    ensures c.vctTsId == 0 && c.sdtTsId == 0 && c.patTsId != 0 ==> tsid == c.patTsId
    ensures c.vctTsId == 0 && c.sdtTsId == 0 && c.patTsId == 0 ==> tsid == c.vctChanTsId
  {
    var t1 := c.vctTsId;
    var t2 := if t1 != 0 then t1 else c.sdtTsId;
    var t3 := if t2 != 0 then t2 else c.patTsId;
    if t3 != 0 then t3 else c.vctChanTsId
  }

  /** ChannelImporter::CheckChannelNumber: a new number is acceptable when
      it starts with a digit and no other channel of the source uses it. */
  function CheckChannelNumber(db: Db, num: string, c: Channel): (ok: bool)
    ensures ok ==> |num| >= 1 && IsDigit(num[0])
    ensures ok ==> forall id :: id in db && db[id].sourceId == c.sourceId && db[id].chanNum == num ==> id == c.channelId
    ensures !ok ==> |num| == 0 || !IsDigit(num[0]) || IsConflicting(db, num, c.sourceId, c.channelId)
  {
    |num| >= 1 && IsDigit(num[0]) && !IsConflicting(db, num, c.sourceId, c.channelId)
  }

  /** A number free for every channel is free whatever channel is excluded. */
  lemma FreeForAll(db: Db, num: string, src: nat, excluded: nat)
    requires DbWellFormed(db)
    requires !IsConflicting(db, num, src, 0)
    ensures !IsConflicting(db, num, src, excluded)
  {
  }

  /** A number that passes the check can be stored for the channel without
      two channels of its source sharing a number. */
  lemma CheckedNumberKeepsUnique(db: Db, num: string, c: Channel, entry: DbChannel)
    requires DbWellFormed(db) && UniqueNumbers(db)
    requires c.channelId != 0
    requires entry.sourceId == c.sourceId && entry.chanNum == num
    requires CheckChannelNumber(db, num, c)
    ensures DbWellFormed(db[c.channelId := entry]) && UniqueNumbers(db[c.channelId := entry])
  {
    StoreKeepsUnique(db, c.channelId, entry);
  }

  // ---------------------------------------------------------------------
  // ComputeSuggestedChannelNum

  /** The candidates in the order they are tried: the channel's own number,
      the ATSC form when the major number is set, and for DVB the service
      id, "frequency-service" when there is a frequency id,
      "service-network" and "service-transport". */
  function SuggestCandidates(c: Channel): (cands: seq<string>)
    ensures |cands| >= 1 && cands[0] == c.chanNum
    ensures c.atscMajor != 0 ==> |cands| >= 2 && cands[1] == AtscChanNum(c.atscMajor, c.atscMinor)
    ensures c.siStandard != "dvb" ==> |cands| == if c.atscMajor != 0 then 2 else 1
  {
    [c.chanNum]
    + (if c.atscMajor != 0 then [AtscChanNum(c.atscMajor, c.atscMinor)] else [])
    + (if c.siStandard == "dvb" then
         [NatToString(c.serviceId)]
         + (if c.freqId != "" then [Dashed(c.freqId, c.serviceId)] else [])
         + [Dashed(NatToString(c.serviceId), c.netId), Dashed(NatToString(c.serviceId), c.patTsId)]
       else [])
  }

  /** The first candidate from index i on that no channel of the source uses. */
  function FirstFree(db: Db, src: nat, cands: seq<string>, i: nat): (r: Option<nat>)
    requires i <= |cands|
    ensures r.Some? ==> i <= r.value < |cands| && !IsConflicting(db, cands[r.value], src, 0)
    ensures r.Some? ==> forall k :: i <= k < r.value ==> IsConflicting(db, cands[k], src, 0)
    ensures r.None? ==> forall k :: i <= k < |cands| ==> IsConflicting(db, cands[k], src, 0)
    decreases |cands| - i
  {
    if i == |cands| then None
    else if !IsConflicting(db, cands[i], src, 0) then Some(i)
    else FirstFree(db, src, cands, i + 1)
  }

  /** The channel numbers in use. */
  ghost function Numbers(db: Db): set<string> {
    set id | id in db :: db[id].chanNum
  }

  /** The length of the longest string of a set. */
  ghost function MaxLen(s: set<string>): (m: nat)
    ensures forall x :: x in s ==> |x| <= m
    decreases s
  {
    if s == {} then 0
    else
      var x :| x in s;
      var m := MaxLen(s - {x});
      if |x| > m then |x| else m
  }

  /** A number with more digits than any channel number in use is free. */
  lemma LongNumberIsFree(db: Db, src: nat, n: nat)
    ensures n >= Pow10(MaxLen(Numbers(db))) ==> !IsConflicting(db, NatToString(n), src, 0)
  {
    if n >= Pow10(MaxLen(Numbers(db))) {
      LongNumbers(n, MaxLen(Numbers(db)));
      forall id | id in db
        ensures db[id].chanNum != NatToString(n)
      {
        assert db[id].chanNum in Numbers(db);
      }
    }
  }

  /** The loop that searches upward from n for a free decimal number; it
      ends because numbers longer than every number in use are free. */
  function NextFree(db: Db, src: nat, n: nat): (m: nat)
    ensures m >= n && !IsConflicting(db, NatToString(m), src, 0)
    ensures forall k :: n <= k < m ==> IsConflicting(db, NatToString(k), src, 0)
    decreases if n < Pow10(MaxLen(Numbers(db))) then Pow10(MaxLen(Numbers(db))) - n else 0
  {
    if !IsConflicting(db, NatToString(n), src, 0) then n
    else LongNumberIsFree(db, src, n); NextFree(db, src, n + 1)
  }

  /** ChannelImporter::ComputeSuggestedChannelNum, with the static
      per-source counter map passed in and returned. The suggestion is never
      a number another channel of the source uses. When one of the
      candidates is free the first free one is returned and the counters are
      untouched; otherwise the source's counter moves to the first free
      number above it and that number is returned. */
  function ComputeSuggestedChannelNum(db: Db, counters: map<nat, nat>, c: Channel): (r: (string, map<nat, nat>))
    ensures !IsConflicting(db, r.0, c.sourceId, 0)
    ensures !IsConflicting(db, c.chanNum, c.sourceId, 0) ==> r == (c.chanNum, counters)
    ensures r.1 == counters ==>
      exists i :: 0 <= i < |SuggestCandidates(c)| && r.0 == SuggestCandidates(c)[i] &&
                  forall k :: 0 <= k < i ==> IsConflicting(db, SuggestCandidates(c)[k], c.sourceId, 0)
    ensures r.1 != counters ==>
      && (forall k :: 0 <= k < |SuggestCandidates(c)| ==> IsConflicting(db, SuggestCandidates(c)[k], c.sourceId, 0))
      && c.sourceId in r.1 && r.1 == counters[c.sourceId := r.1[c.sourceId]]
      && r.1[c.sourceId] > Get(counters, c.sourceId)
      && r.0 == NatToString(r.1[c.sourceId])
      && forall k :: Get(counters, c.sourceId) < k < r.1[c.sourceId] ==> IsConflicting(db, NatToString(k), c.sourceId, 0)
  {
    var cands := SuggestCandidates(c);
    match FirstFree(db, c.sourceId, cands, 0)
    case Some(i) => (cands[i], counters)
    case None =>
      var n := NextFree(db, c.sourceId, Get(counters, c.sourceId) + 1);
      (NatToString(n), counters[c.sourceId := n])
  }

  /** A suggestion from the counter fallback always passes the number
      check, whatever channel id it is checked for. */
  lemma FallbackPassesCheck(db: Db, counters: map<nat, nat>, c: Channel)
    requires DbWellFormed(db)
    requires ComputeSuggestedChannelNum(db, counters, c).1 != counters
    ensures CheckChannelNumber(db, ComputeSuggestedChannelNum(db, counters, c).0, c)
  {
    var r := ComputeSuggestedChannelNum(db, counters, c);
    assert AllDigits(r.0);
    FreeForAll(db, r.0, c.sourceId, c.channelId);
  }
}

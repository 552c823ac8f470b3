/** ChannelImporter::FilterServices: drop the channels the scan policy does
    not want, keeping every transport. */
module Filter {
  import opened Util
  import opened Channels

  /** ServiceRequirements bits: audio is 0x2, audio+video is 0x3. */
  const RequireAudio: bv32 := 0x2
  const RequireAV: bv32 := 0x3

  /** The importer's filtering settings. */
  datatype Policy = Policy(serviceRequirements: bv32, ftaOnly: bool, lcnOnly: bool, completeOnly: bool)

  predicate RequiresAV(p: Policy) {
    p.serviceRequirements & RequireAV == RequireAV
  }

  predicate RequiresAudio(p: Policy) {
    p.serviceRequirements & RequireAudio != 0
  }

  /** Why a channel is dropped, in the order the checks run. */
  datatype Exclusion =
    | Encrypted | DataService | AudioService | NoLcn | NotInPatPmt | NotInPatPmtSdt | NoName | OnlyInConf

  /** The first check a channel fails, as the chain of `continue`s does it. */
  function FirstExclusion(p: Policy, c: Channel): Option<Exclusion> {
    if p.ftaOnly && c.isEncrypted && c.decryptionStatus != EncDecrypted then Some(Encrypted)
    else if RequiresAudio(p) && c.isDataService then Some(DataService)
    else if RequiresAV(p) && c.isAudioService then Some(AudioService)
    else if p.lcnOnly && c.chanNum == "" then Some(NoLcn)
    else if p.completeOnly && !(c.inPat && c.inPmt) then Some(NotInPatPmt)
    else if p.completeOnly && c.atscMajor == 0 && c.atscMinor == 0 &&
            !(c.inPat && c.inPmt && c.inSdt && c.patTsId == c.sdtTsId) then Some(NotInPatPmtSdt)
    else if p.completeOnly && c.serviceName == "" then Some(NoName)
    else if c.inChannelsConf && !(c.inPat || c.inPmt || c.inVct || c.inNit || c.inSdt) then Some(OnlyInConf)
    else None
  }

  /** The exclusion rules, each on its own: the channel is dropped when any holds. */
  predicate Excluded(p: Policy, c: Channel) {
    || (p.ftaOnly && c.isEncrypted && c.decryptionStatus != EncDecrypted)
    || (RequiresAudio(p) && c.isDataService)
    || (RequiresAV(p) && c.isAudioService)
    || (p.lcnOnly && c.chanNum == "")
    || (p.completeOnly && !(c.inPat && c.inPmt))
    || (p.completeOnly && c.atscMajor == 0 && c.atscMinor == 0 &&
        !(c.inPat && c.inPmt && c.inSdt && c.patTsId == c.sdtTsId))
    || (p.completeOnly && c.serviceName == "")
    || (c.inChannelsConf && !(c.inPat || c.inPmt || c.inVct || c.inNit || c.inSdt))
  }

  /** A channel fails some check exactly when one of the rules excludes it. */
  lemma FirstExclusionIffExcluded(p: Policy, c: Channel)
    ensures FirstExclusion(p, c).Some? <==> Excluded(p, c)
  {
  }

  /** `a` is an in-order subsequence of `b`. */
  predicate IsSubsequence(a: seq<Channel>, b: seq<Channel>)
    decreases |b|
  {
    if |a| == 0 then true
    else if |b| == 0 then false
    else if a[0] == b[0] then IsSubsequence(a[1..], b[1..])
    else IsSubsequence(a, b[1..])
  }

  /** The test a channel must pass to be kept. */
  function Passes(p: Policy): Channel -> bool {
    c => FirstExclusion(p, c).None?
  }

  /** The channels of one transport that pass every check, in order: an
      in-order subsequence of the input made of passing channels, as long
      as the number of passing channels, which leaves only one candidate. */
  function KeepChannels(p: Policy, cs: seq<Channel>): (r: seq<Channel>)
    ensures |r| <= |cs|
    ensures forall c :: c in r <==> c in cs && FirstExclusion(p, c).None?
    ensures IsSubsequence(r, cs)
    ensures |r| == CountIf(cs, Passes(p))
  {
    if |cs| == 0 then []
    else
      var rest := KeepChannels(p, cs[1..]);
      assert forall c :: c in cs <==> c == cs[0] || c in cs[1..];
      assert cs == [cs[0]] + cs[1..];
      CountIfAppend([cs[0]], cs[1..], Passes(p));
      assert [cs[0]][..0] == [];
      if FirstExclusion(p, cs[0]).None? then
        assert ([cs[0]] + rest)[1..] == rest;
        [cs[0]] + rest
      else
        assert |rest| == 0 || rest[0] != cs[0];
        rest
  }

  /** Split of a count at the first element. */
  lemma CountIfFront(cs: seq<Channel>, f: Channel -> bool)
    requires |cs| > 0
    ensures CountIf(cs, f) == (if f(cs[0]) then 1 else 0) + CountIf(cs[1..], f)
  {
    assert cs == [cs[0]] + cs[1..];
    CountIfAppend([cs[0]], cs[1..], f);
    assert [cs[0]][..0] == [];
  }

  /** A subsequence made of passing channels is no longer than the number
      of passing channels. */
  lemma {:induction false} PassingSubsequenceBound(p: Policy, a: seq<Channel>, b: seq<Channel>)
    requires IsSubsequence(a, b)
    requires forall k :: 0 <= k < |a| ==> FirstExclusion(p, a[k]).None?
    ensures |a| <= CountIf(b, Passes(p))
    decreases |b|
  {
    if |a| > 0 {
      CountIfFront(b, Passes(p));
      if a[0] == b[0] {
        PassingSubsequenceBound(p, a[1..], b[1..]);
      } else {
        PassingSubsequenceBound(p, a, b[1..]);
      }
    }
  }

  lemma KeepChannelsFront(p: Policy, cs: seq<Channel>)
    requires |cs| > 0
    ensures KeepChannels(p, cs) == (if Passes(p)(cs[0]) then [cs[0]] else []) + KeepChannels(p, cs[1..])
  {
  }

  /** KeepChannels is the only in-order subsequence of passing channels
      that keeps as many channels as pass: its contract fixes the result,
      repeated channels included. */
  lemma {:induction false} KeepChannelsUnique(p: Policy, cs: seq<Channel>, r: seq<Channel>)
    requires IsSubsequence(r, cs)
    requires forall k :: 0 <= k < |r| ==> FirstExclusion(p, r[k]).None?
    requires |r| == CountIf(cs, Passes(p))
    ensures r == KeepChannels(p, cs)
    decreases |cs|
  {
    if |cs| > 0 {
      CountIfFront(cs, Passes(p));
      KeepChannelsFront(p, cs);
      if |r| > 0 && r[0] == cs[0] {
        assert Passes(p)(cs[0]);
        KeepChannelsUnique(p, cs[1..], r[1..]);
        assert r == [cs[0]] + r[1..];
      } else {
        if |r| > 0 {
          PassingSubsequenceBound(p, r, cs[1..]);
        }
        assert !Passes(p)(cs[0]);
        KeepChannelsUnique(p, cs[1..], r);
      }
    }
  }

  /** ChannelImporter::FilterServices: every transport stays, in place, with
      the channels that pass every check. */
  function FilterServices(p: Policy, ts: seq<Transport>): (r: seq<Transport>)
    ensures |r| == |ts|
    ensures forall i :: 0 <= i < |ts| ==>
      && r[i].tuning == ts[i].tuning
      && IsSubsequence(r[i].channels, ts[i].channels)
      && (forall c :: c in r[i].channels <==> c in ts[i].channels && !Excluded(p, c))
      && |r[i].channels| == CountIf(ts[i].channels, Passes(p))
  {
    seq(|ts|, i requires 0 <= i < |ts| => ts[i].(channels := KeepChannels(p, ts[i].channels)))
  }

  /** Policy `q` is at least as strict as `p`: each flag set in `p` is set in `q`. */
  predicate AtLeastAsStrict(q: Policy, p: Policy) {
    && (p.ftaOnly ==> q.ftaOnly)
    && (p.lcnOnly ==> q.lcnOnly)
    && (p.completeOnly ==> q.completeOnly)
    && (RequiresAudio(p) ==> RequiresAudio(q))
    && (RequiresAV(p) ==> RequiresAV(q))
  }

  /** A channel a policy excludes, a stricter one excludes too. */
  lemma StricterExcludes(p: Policy, q: Policy, c: Channel)
    requires AtLeastAsStrict(q, p)
    ensures Passes(q)(c) ==> Passes(p)(c)
  {
  }

  /** Filtering with a stricter policy equals filtering the looser policy's
      result again, so it keeps a subset of what the looser one keeps. */
  lemma {:induction false} StricterFiltersMore(p: Policy, q: Policy, cs: seq<Channel>)
    requires AtLeastAsStrict(q, p)
    ensures KeepChannels(q, cs) == KeepChannels(q, KeepChannels(p, cs))
    ensures |KeepChannels(q, cs)| <= |KeepChannels(p, cs)|
  {
    if |cs| > 0 {
      StricterFiltersMore(p, q, cs[1..]);
      StricterExcludes(p, q, cs[0]);
      KeepChannelsFront(p, cs);
      KeepChannelsFront(q, cs);
      var rest := KeepChannels(p, cs[1..]);
      if Passes(p)(cs[0]) {
        var kept := [cs[0]] + rest;
        assert kept[0] == cs[0] && kept[1..] == rest;
        KeepChannelsFront(q, kept);
      }
    }
  }

  /** Turning on filter flags never increases the number of channels kept. */
  lemma {:induction false} StricterPolicyKeepsFewer(p: Policy, q: Policy, ts: seq<Transport>)
    requires AtLeastAsStrict(q, p)
    ensures |Flat(FilterServices(q, ts))| <= |Flat(FilterServices(p, ts))|
  {
    if |ts| > 0 {
      var init := ts[..|ts| - 1];
      StricterPolicyKeepsFewer(p, q, init);
      assert FilterServices(q, ts)[..|ts| - 1] == FilterServices(q, init);
      assert FilterServices(p, ts)[..|ts| - 1] == FilterServices(p, init);
      StricterFiltersMore(p, q, ts[|ts| - 1].channels);
    }
  }
}

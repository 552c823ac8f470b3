# MythTV channel importer, modelled in Dafny

After a channel scan, MythTV's `ChannelImporter` turns the scanned transports
(multiplexes) and their channels into rows of the channel database of one
video source. This project models the core of that class:

- the clean-up of the scan: merging duplicate transports
  (`CleanupDuplicates`) and dropping unwanted services (`FilterServices`);
- matching the scan against the multiplexes and channels already stored for
  the source (`GetDBTransports`), and relabelling OpenCable channels
  (`FixUpOpenCable`);
- the off-air step (`DeleteChannels`), which deletes or hides database
  channels the scan no longer sees;
- the statistics used to classify channels (`CollectStats`,
  `CollectUniquenessStats`, `IsType`, `CountChannels`);
- channel numbering (`ComputeSuggestedChannelNum`, `CheckChannelNumber`) and
  the prompt loops that ask the user for a number;
- writing the result back (`UpdateChannels`, both `InsertChannels`
  overloads, `AddChanToCopy`), and the driver `Process`.

The database is an abstract map from channel id to a row (source id,
channel number, multiplex id, visibility, on-air-guide flag). Everything the
importer calls but that is not part of this model is passed in as a function:
- `IsSameChannel`, `IsEqual` and `ImportExtraInfo`;
- loading a multiplex from the database;
- the `ChannelUtil` create and update calls;
- the user's answers to each question.

These functions are bundled in the datatypes `ScanOracles`, `Loader`,
`Persistence`, `Prompts` and `Importer`. A prompt loop reads a finite list of
answers.

Modules, one per file, follow the source's structure:
- `Util`: decimal strings.
- `Channels`: channels, transports, the database and `AddChanToCopy`.
- `Dedup`: duplicate transports.
- `Filter`: service filtering.
- `DbMatch`: matching the scan against the database.
- `Classify`: OpenCable relabelling, statistics, channel types and counts.
- `Numbering`: number formats, the number check and the suggestion.
- `OffAir`: deleting off-air channels.
- `Insert`: prompts and insertion.
- `Update`: updating existing channels.
- `Pipeline`: the two-pass driver and `Process`.

## Model

| member | source | states |
|---|---|---|
| Dedup.FrequencyTolerance | mythtv/libs/libmythtv/channelscan/channelimporter.cpp:891-898 | the "same transport" window is 500 for DVB-S tuners (kHz) and 500 000 otherwise, and nothing else |
| Dedup.ImportInto | mythtv/libs/libmythtv/channelscan/channelimporter.cpp:917-927 | every channel of the keeping transport that is the same channel as the absorbed one takes its extra info, the others stay, and the flag says whether there was one |
| Dedup.MergeChannel | mythtv/libs/libmythtv/channelscan/channelimporter.cpp:915-929 | an absorbed channel is folded into every same channel, or appended at the end when there is none; the channels already there stay in place |
| Dedup.AbsorbChannels | mythtv/libs/libmythtv/channelscan/channelimporter.cpp:913-929 | absorbing a transport's channels keeps the keeping transport's channels in place, each enriched (`Enrich`) from every absorbed channel that is the same channel, in order, and adds at most one channel per absorbed channel |
| Dedup.AbsorbLater | mythtv/libs/libmythtv/channelscan/channelimporter.cpp:906-931 | the inner loop marks ignored exactly the later transports equal to the current one, keeps its tuning, and keeps its channels in place, each enriched from the channels of every later equal transport in order |
| Dedup.DedupFromKept | mythtv/libs/libmythtv/channelscan/channelimporter.cpp:900-934 | the output lists the transports not ignored, in their original order, each with its own tuning and at least as many channels as it had |
| Dedup.DedupFromEnriched | mythtv/libs/libmythtv/channelscan/channelimporter.cpp:900-934 | each output transport starts with the channels of the transport it came from, in place, each enriched from the channels of every later transport equal to it |
| Dedup.DedupFromNoEqual | mythtv/libs/libmythtv/channelscan/channelimporter.cpp:900-934 | no two output transports compare equal |
| Dedup.CleanupDuplicates | mythtv/libs/libmythtv/channelscan/channelimporter.cpp:887-937 | the result is no longer than the scan, keeps the first transport first, lists the kept transports in order with their own channels first (enriched from their duplicates), and has no equal pair |
| Dedup.DedupFixpoint | mythtv/libs/libmythtv/channelscan/channelimporter.cpp:887-937 | a list with no equal pair is returned unchanged |
| Dedup.CleanupDuplicatesIdempotent | mythtv/libs/libmythtv/channelscan/channelimporter.cpp:887-937 | a second clean-up changes nothing |
| Filter.FirstExclusionIffExcluded | mythtv/libs/libmythtv/channelscan/channelimporter.cpp:948-1007 | the chain of `continue` checks drops a channel exactly when one of the eight exclusion rules, each stated on its own, holds |
| Filter.KeepChannels | mythtv/libs/libmythtv/channelscan/channelimporter.cpp:946-1010 | the kept channels are an in-order subsequence of the transport's channels, all of them pass every check, and there are as many as there are passing channels, repeats counted |
| Filter.KeepChannelsUnique | mythtv/libs/libmythtv/channelscan/channelimporter.cpp:946-1010 | any in-order subsequence of passing channels that keeps as many as pass is the kept list, so the contract above leaves one possible result |
| Filter.FilterServices | mythtv/libs/libmythtv/channelscan/channelimporter.cpp:939-1013 | every transport stays in place with its tuning; its channels become the in-order subsequence of those no rule excludes, one entry per passing channel |
| Filter.StricterFiltersMore | mythtv/libs/libmythtv/channelscan/channelimporter.cpp:939-1013 | filtering with a stricter policy equals filtering the looser result again, so it keeps no more channels |
| Filter.StricterPolicyKeepsFewer | mythtv/libs/libmythtv/channelscan/channelimporter.cpp:939-1013 | turning on more filter flags never increases the number of channels kept in the whole scan |
| DbMatch.FirstSame | mythtv/libs/libmythtv/channelscan/channelimporter.cpp:1084-1094 | the tier-1 inner loop stops at the first scanned channel that is the same channel, and there is no earlier one |
| DbMatch.Link | mythtv/libs/libmythtv/channelscan/channelimporter.cpp:1088-1091 | a found channel gets the multiplex id and channel id of the database channel, and no other channel or field changes |
| DbMatch.Tier1Channels | mythtv/libs/libmythtv/channelscan/channelimporter.cpp:1078-1096 | the found set only grows, and only by database channels from the current one on; the current database channel, if not yet found, is found exactly when the scanned transport holds a level-2 same channel of it; the same-transport count grows by the number of newly found channels; each changed channel carries the multiplex id and a database channel id |
| DbMatch.Tier1 | mythtv/libs/libmythtv/channelscan/channelimporter.cpp:1071-1098 | the transport counts as found exactly when some scanned transport equals it; otherwise nothing changes; the scan keeps its shape; every scanned channel that changed now carries a channel id of the database multiplex and, as multiplex id, the one it had or this multiplex's |
| DbMatch.Tier2Find | mythtv/libs/libmythtv/channelscan/channelimporter.cpp:1109-1122 | the full search returns the first scanned position holding the same channel, or none exists |
| DbMatch.SetChannelId | mythtv/libs/libmythtv/channelscan/channelimporter.cpp:1115-1120 | a tier-2 match sets only the channel id of the matched channel; its multiplex id and every other channel stay |
| DbMatch.Tier2 | mythtv/libs/libmythtv/channelscan/channelimporter.cpp:1103-1124 | the found set grows only by database channels from the current one on, and the current one, unless tier 1 found it, is found exactly when some scanned channel is a level-1 same channel of it; the other-transport count grows by the number of newly found channels, the same-transport count and transport flag are untouched, the scan keeps its shape and its tunings; a changed scanned channel carries a channel id of the database multiplex and keeps its multiplex id |
| DbMatch.Tier2Visit | mythtv/libs/libmythtv/channelscan/channelimporter.cpp:1105-1123 | one database channel of tier 2: already found, it is skipped; otherwise it is found exactly when some scanned channel is a level-1 same channel, and no other database channel's entry changes; the other count grows by one per new find; a changed scanned channel gets only a database channel id |
| DbMatch.Tier1ChannelsFound | mythtv/libs/libmythtv/channelscan/channelimporter.cpp:1078-1096 | for oracles that ignore the fields the search writes, tier 1 in one scanned transport finds, besides those already found, exactly the database channels from the current one on that have a level-2 same channel in the transport as it was before, so an earlier link hides no later match |
| DbMatch.Tier1Found | mythtv/libs/libmythtv/channelscan/channelimporter.cpp:1071-1098 | for such oracles, tier 1 finds, besides those already found, exactly the database channels that have a level-2 same channel in a scanned transport, from the current one on, that is this multiplex |
| DbMatch.Tier2Member | mythtv/libs/libmythtv/channelscan/channelimporter.cpp:1103-1124 | for such oracles, tier 2 ends with database channel j found exactly when it was found before, or it is not before the start and some channel of the scan as tier 2 began is a level-1 same channel of it |
| DbMatch.SearchFound | mythtv/libs/libmythtv/channelscan/channelimporter.cpp:1067-1124 | for such oracles, the found set is exactly the database channels matched in a scanned transport that is this multiplex (tier 1) or, with the full search, in any scanned transport (tier 2), judged on the scan before the search |
| DbMatch.UnfoundNotMatched | mythtv/libs/libmythtv/channelscan/channelimporter.cpp:1135-1142 | the channels left unfound are, in order, exactly those of the multiplex the scan does not match |
| DbMatch.Record | mythtv/libs/libmythtv/channelscan/channelimporter.cpp:1127-1146 | the same and other counters grow by the search's; when the multiplex was found in the scan its unfound channels, if any, are appended as one entry that is part of the multiplex and the not-found counter grows by their number; otherwise the list and that counter stay |
| DbMatch.MatchMultiplexNotInScan | mythtv/libs/libmythtv/channelscan/channelimporter.cpp:1127-1146 | for such oracles, the entry appended for a multiplex is the reference one: the multiplex with its unmatched channels, when it is in the scan and some channel is unmatched |
| DbMatch.MatchAllNotInScan | mythtv/libs/libmythtv/channelscan/channelimporter.cpp:1055-1147 | for such oracles, the loop appends the reference entries of its multiplexes in id order, each judged against the scan as it was before the loop, so earlier multiplexes' links change nothing later |
| DbMatch.GetDBTransportsNotInScan | mythtv/libs/libmythtv/channelscan/channelimporter.cpp:1022-1159 | for such oracles and a successful multiplex query, the returned not-in-scan list is the reference entries of all the source's multiplexes in id order, judged against the scan as it came in |
| DbMatch.UnfoundCount | mythtv/libs/libmythtv/channelscan/channelimporter.cpp:1130-1142 | every database channel is either found or not found, never both |
| DbMatch.UnfoundMembers | mythtv/libs/libmythtv/channelscan/channelimporter.cpp:1130-1142 | a database channel is in the not-found list exactly when its index was not found, in both directions |
| DbMatch.Search | mythtv/libs/libmythtv/channelscan/channelimporter.cpp:1068-1124 | the same and other counts add up to the found channels; found plus unfound is all database channels; without the full search nothing is found elsewhere; the transport is found exactly when it is in the scan; every changed scanned channel carries one of the multiplex's channel ids |
| DbMatch.MatchMultiplex | mythtv/libs/libmythtv/channelscan/channelimporter.cpp:1055-1145 | an empty loaded multiplex is skipped; for a multiplex found in the scan the three counters grow by exactly its channel count; one entry is appended to the not-in-scan list exactly when the multiplex is in the scan and some of its channels were not found, and that entry is the multiplex with exactly its unfound channels; the not-found counter grows by the channels appended; changed scanned channels carry this multiplex's channel ids |
| DbMatch.MatchAll | mythtv/libs/libmythtv/channelscan/channelimporter.cpp:1055-1146 | the scan keeps its shape; each not-in-scan entry added is a multiplex loaded for one of the remaining ids with a non-empty selection of its channels; the not-found counter grows by the channels added; every changed scanned channel carries a channel id of a loaded multiplex and its old multiplex id or one of the listed ones |
| DbMatch.GetDBTransports | mythtv/libs/libmythtv/channelscan/channelimporter.cpp:1022-1159 | the scan keeps its shape; a failed multiplex query changes nothing and returns no transports; without the full search no channel is found in another transport; every not-in-scan transport is a loaded multiplex with a non-empty selection of its channels, and the not-found count is their channel total; every changed scanned channel got its channel id from a loaded multiplex |
| Classify.FixUpOpenCable | mythtv/libs/libmythtv/channelscan/channelimporter.cpp:1161-1175 | every channel keeps every field except the SI standard, which becomes "opencable" for the channels that look like OpenCable and is unchanged for all others; no plain-MPEG channel that could be OpenCable and is not in the VCT is left |
| Classify.FixUpOpenCableIdempotent | mythtv/libs/libmythtv/channelscan/channelimporter.cpp:1161-1175 | relabelling twice is relabelling once |
| Classify.StatsCountSlots | mythtv/libs/libmythtv/channelscan/channelimporter.cpp:1185-1191 | each encryption counter counts the channels of its standard in its encryption slot |
| Classify.StatsCountKeys | mythtv/libs/libmythtv/channelscan/channelimporter.cpp:1192-1207 | each occurrence map counts the channels that carry its key, among the standards that feed it |
| Classify.CollectStats | mythtv/libs/libmythtv/channelscan/channelimporter.cpp:1177-1213 | every counter and occurrence map of the result equals an independent count over all scanned channels |
| Classify.UniqueOf | mythtv/libs/libmythtv/channelscan/channelimporter.cpp:1221-1242 | each unique count is the number of channels whose key occurs once; the maximum ATSC major count bounds, and is reached by, some ATSC channel |
| Classify.CollectUniquenessStats | mythtv/libs/libmythtv/channelscan/channelimporter.cpp:1215-1248 | the four unique counts are independent counts over the scan, the total is their sum, and the maximum bounds every ATSC channel's major count |
| Classify.MaxMajorBounded | mythtv/libs/libmythtv/channelscan/channelimporter.cpp:1177-1248 | with the scan's own statistics, no ATSC major number occurs more often than there are ATSC channels |
| Classify.TypesOfChannel | mythtv/libs/libmythtv/channelscan/channelimporter.cpp:1482-1535 | a channel is only of the two types of its standard's family; MPEG, SCTE and NTSC channels are of exactly one of them; ATSC and DVB channels are always of the non-conflicting type |
| Classify.OldPlusNew | mythtv/libs/libmythtv/channelscan/channelimporter.cpp:1537-1556 | every channel of a type is either old (has a channel id) or new |
| Classify.CountTransport | mythtv/libs/libmythtv/channelscan/channelimporter.cpp:1543-1554 | the inner loop counts the old and the new channels of the type in one transport |
| Classify.CountChannels | mythtv/libs/libmythtv/channelscan/channelimporter.cpp:1537-1556 | the old and new counts equal independent counts over the scan and add up to the channels of the type |
| Numbering.AtscChanNumInjective | mythtv/libs/libmythtv/channelscan/channelimporter.cpp:1589-1592 | the "major_minor" format loses nothing: distinct pairs give distinct numbers |
| Numbering.DefaultChanNum | mythtv/libs/libmythtv/channelscan/channelimporter.cpp:531-556 | the fallback number is the ATSC "major_minor" form when asked for, else the decimal service id for DVB, else "source-service" without a frequency id (so it starts with a digit) and "frequency-service" with one |
| Numbering.TransportStreamId | mythtv/libs/libmythtv/channelscan/channelimporter.cpp:614-617 | the transport id is the first nonzero of the VCT, SDT, PAT and VCT-channel ids, or 0 when all are 0 |
| Numbering.CheckChannelNumber | mythtv/libs/libmythtv/channelscan/channelimporter.cpp:2157-2166 | a number passes exactly when it starts with a digit and no other channel of the source uses it |
| Numbering.CheckedNumberKeepsUnique | mythtv/libs/libmythtv/channelscan/channelimporter.cpp:2157-2166 | storing a number that passes the check keeps every source's channel numbers distinct |
| Numbering.FirstFree | mythtv/libs/libmythtv/channelscan/channelimporter.cpp:1584-1625 | the candidate search returns the first free candidate, and every earlier one is taken |
| Numbering.NextFree | mythtv/libs/libmythtv/channelscan/channelimporter.cpp:1628-1634 | the upward search ends at the first free decimal number at or above its start |
| Numbering.LongNumberIsFree | mythtv/libs/libmythtv/channelscan/channelimporter.cpp:1628-1634 | a number longer than every number in use is free, so the upward search ends |
| Numbering.ComputeSuggestedChannelNum | mythtv/libs/libmythtv/channelscan/channelimporter.cpp:1578-1641 | the suggestion is never a number another channel of the video source uses; the channel's own free number is kept; otherwise the first free candidate is returned with the counter untouched, or the counter moves to the first free number above it and that number is returned |
| Numbering.FallbackPassesCheck | mythtv/libs/libmythtv/channelscan/channelimporter.cpp:1626-1641 | a suggestion from the counter always passes the number check |
| Insert.AskLoop | mythtv/libs/libmythtv/channelscan/channelimporter.cpp:2073-2147 | an accepted answer always carries a number that passes the check; a refused one leaves the channel's number; the console loop never moves the counter and never answers OK-all |
| Insert.AskLoopFirstValid | mythtv/libs/libmythtv/channelscan/channelimporter.cpp:2073-2147 | the loop accepts exactly when some answer is the first to end it with a valid number |
| Insert.AskLoopNumber | mythtv/libs/libmythtv/channelscan/channelimporter.cpp:2073-2147 | the accepted number is that first valid answer's number |
| Insert.Ask | mythtv/libs/libmythtv/channelscan/channelimporter.cpp:1995-2147 | the dialog and console questions accept only valid numbers; with no one to ask the answer is Cancel |
| Insert.ManualQuery | mythtv/libs/libmythtv/channelscan/channelimporter.cpp:508-526 | the manual question only runs for handled channels; cancel-all sticks; an accepted number is valid; otherwise the channel and the state are unchanged |
| Insert.Renumber | mythtv/libs/libmythtv/channelscan/channelimporter.cpp:528-559 | a free number is kept; an empty or taken number is replaced by the default number, and the flag says whether that one is taken too |
| Insert.AskResolve | mythtv/libs/libmythtv/channelscan/channelimporter.cpp:576-596 | the resolve question leaves the database alone; a channel stays only when its new number passes the check; otherwise the old number is kept |
| Insert.Resolve | mythtv/libs/libmythtv/channelscan/channelimporter.cpp:561-600 | once the user said OK-all, a suggestion that passes the number check is taken unasked, with the suggestion counter advanced, and the channel is no longer conflicting; a non-interactive import, a channel already asked about, or a channel that is neither conflicting nor of a conflicting type is left as it was; the database is untouched, and a channel ends non-conflicting only with its own number when it was not conflicting, or with a number that passes the check; cancel-all and OK-all, once set, stay set |
| Insert.Store | mythtv/libs/libmythtv/channelscan/channelimporter.cpp:606-659 | the id is the one `CreateChanID` gave when it is positive; the multiplex is then `CreateMultiplex`'s for a channel without one and otherwise the better one `GetBetterMplexID` returns, if any (`MplexFor`); the channel is inserted exactly when the id is positive, the multiplex id is nonzero and `CreateChannel` succeeds on the relabelled channel; a failed id creation changes nothing |
| Insert.StoreStep | mythtv/libs/libmythtv/channelscan/channelimporter.cpp:604-677 | a stored channel carries its new number; it has an id exactly when `CreateChanID` gives a positive one, and then that id and the `MplexFor` multiplex; it lands in the inserted copy exactly when the multiplex id is nonzero and `CreateChannel` succeeds, with its row added, and otherwise in the remaining copy with the state unchanged |
| Insert.InsertOne | mythtv/libs/libmythtv/channelscan/channelimporter.cpp:486-677 | a channel not of the type stays; ignore-all skips exactly the new channels of the type; an inserted channel got a free number and its row is written under its new channel id; only the number, channel id and multiplex id change; a handled channel with an id has the id `CreateChanID` gave for its number and the `MplexFor` multiplex, and goes to the inserted copy exactly when the multiplex id is nonzero and `CreateChannel` succeeds; with insert-all, no cancel and no question asked, the number is the renumbering of the scanned one and the channel gets an id exactly when that number is free and `CreateChanID` gives one; without manual insertion and without interactivity the cancel flag stays |
| Insert.InsertOneFresh | mythtv/libs/libmythtv/channelscan/channelimporter.cpp:606-659 | when `CreateChanID` hands out ids not yet in the database, an inserted channel adds exactly one row, under a fresh id, and every other row stays |
| Insert.InsertChans | mythtv/libs/libmythtv/channelscan/channelimporter.cpp:486-678 | the three copies together hold as many channels as the input; untouched channels stay; ignore-all skips exactly the new channels and changes nothing; cancel-all inserts nothing; every inserted channel has its row |
| Insert.InsertList | mythtv/libs/libmythtv/channelscan/channelimporter.cpp:480-688 | the same facts over the whole scan, with only non-empty copies kept |
| Insert.InsertChannels | mythtv/libs/libmythtv/channelscan/channelimporter.cpp:463-695 | the remaining, inserted and skipped lists together hold as many channels as the scan (which ones is `InsertChannelsSplit`); ignore-all skips exactly the new channels of the type and leaves the database and counters alone; rows are only added |
| Insert.InsertChannelsSplit | mythtv/libs/libmythtv/channelscan/channelimporter.cpp:463-695 | the call handles the scan channel by channel: step k keeps InsertOne's promises about channel k and the state the earlier steps left, the `CreateChanID`/`CreateChannel` rule included; the remaining, inserted and skipped lists hold exactly the channels the steps send there, in order; the final state is the last step's |
| Insert.InsertChannelsDone | mythtv/libs/libmythtv/channelscan/channelimporter.cpp:463-695 | every inserted channel is a new scanned channel of the type with a channel id and a non-empty number, of which only the number, channel id and multiplex id changed; every skipped channel is a new scanned channel of the type |
| Insert.InsertChannelsKeepsUnique | mythtv/libs/libmythtv/channelscan/channelimporter.cpp:463-695 | inserting never gives two channels of one source the same number |
| Insert.InsertChansInserted | mythtv/libs/libmythtv/channelscan/channelimporter.cpp:486-678 | per transport: the inserted copy is exactly the channels whose step went there; such a channel is new, of the type, with an id; a new channel with an id has the id `CreateChanID` gave for its number in the database before its step and the `MplexFor` multiplex of the transport, and was inserted exactly when that multiplex is nonzero and `CreateChannel` succeeded |
| Insert.InsertChannelsInserted | mythtv/libs/libmythtv/channelscan/channelimporter.cpp:463-695 | over the whole scan: the inserted list is exactly the channels whose step went there; channel k was inserted only if new and given an id, and a new channel with an id was inserted exactly when `CreateChannel` succeeded; with insert-all and no interactivity, channel k takes the renumbering of its scanned number and is inserted exactly when it is new, that number is free, `CreateChanID` gives an id, the multiplex id is nonzero and `CreateChannel` succeeds |
| Update.WrittenVisibility | mythtv/libs/libmythtv/channelscan/channelimporter.cpp:823-826 | a forced visibility (always or never) is written back unchanged; any other follows the scan's hidden flag |
| Update.WriteBack | mythtv/libs/libmythtv/channelscan/channelimporter.cpp:793-832 | the channel goes to the updated copy exactly when `UpdateChannel` succeeds on the refreshed channel, and only then is its own row rewritten; the stored visibility and guide flag are kept (or taken from the scan for a channel the map lacks); the multiplex id is the better one `GetBetterMplexID` returns, if any; only the number, visibility, guide flag and multiplex id change |
| Update.UpdateHandled | mythtv/libs/libmythtv/channelscan/channelimporter.cpp:745-832 | the number tried is the stored one with keep-numbers, else the scanned one; it is kept when non-empty and free; an empty or taken one is replaced by the default number, in the "major_minor" form only for ATSC non-conflicting channels (757); the channel is skipped exactly when the number it ends with is taken; otherwise it is refreshed from the map and `GetBetterMplexID` (`Refreshed`) and is updated exactly when `UpdateChannel` succeeds; an updated channel has a number no other channel of its source uses; a still-taken number only renumbers the channel and changes nothing else |
| Update.UpdateOne | mythtv/libs/libmythtv/channelscan/channelimporter.cpp:731-845 | a channel not of the type stays; ignore-all skips exactly the old channels of the type; for an old channel of the type otherwise, the number follows the keep/replace rule, the channel is skipped exactly when that number is taken, and a refreshed channel is updated exactly when `UpdateChannel` succeeds; only its own row changes |
| Update.UpdateChans | mythtv/libs/libmythtv/channelscan/channelimporter.cpp:729-846 | the copies hold as many channels as the input, plus one more for each channel skipped for a taken number (which also stays in the remaining copy); ignore-all writes nothing; rows are never removed |
| Update.UpdateChansPassThrough | mythtv/libs/libmythtv/channelscan/channelimporter.cpp:731-845 | channels not old of the type stay in the remaining copy |
| Update.UpdateChannels | mythtv/libs/libmythtv/channelscan/channelimporter.cpp:708-862 | the three lists together hold as many channels as the scan, plus one more for each channel skipped for a taken number (which ones is `UpdateChannelsSplit`); skipped channels have a channel id; ignore-all writes nothing |
| Update.UpdateChannelsPassThrough | mythtv/libs/libmythtv/channelscan/channelimporter.cpp:708-862 | channels the call does not work on stay in the list it returns |
| Update.UpdateChannelsIgnoreAll | mythtv/libs/libmythtv/channelscan/channelimporter.cpp:735-739 | ignoring all skips exactly the old channels of the type |
| Update.UpdateChannelsKeepsUnique | mythtv/libs/libmythtv/channelscan/channelimporter.cpp:708-862 | updating never gives two channels of one source the same number |
| Update.UpdateChannelsSplit | mythtv/libs/libmythtv/channelscan/channelimporter.cpp:708-862 | the call handles the scan channel by channel: step k keeps UpdateOne's promises, number rule and `UpdateChannel` rule included, about channel k and the database the earlier steps left; the remaining, updated and skipped lists hold exactly the channels the steps send there, in order; the final database is the last step's |
| Update.UpdateChannelsDone | mythtv/libs/libmythtv/channelscan/channelimporter.cpp:708-862 | every updated channel is an old scanned channel of the type with a non-empty number, of which only the number, visibility, guide flag and multiplex id changed; every skipped channel is an old scanned channel of the type, unchanged under ignore-all and otherwise only renumbered |
| Update.UpdateChannelsUpdated | mythtv/libs/libmythtv/channelscan/channelimporter.cpp:708-862 | over the whole scan: the updated list is exactly the channels whose step went there; channel k is updated exactly when it is old, of the type, not ignored, the number it ends with is free in the database before its step and `UpdateChannel` succeeds; its number is the stored (or scanned) one when non-empty and free, else the default number |
| Update.UpdateManualAsAll | mythtv/libs/libmythtv/channelscan/channelimporter.cpp:735-743 | the answer "Update Manually" (1842) updates exactly as "Update All": the loop only tests for ignore-all |
| OffAir.OffAirIn | mythtv/libs/libmythtv/channelscan/channelimporter.cpp:196-208 | the positions listed for a transport are exactly its off-air channels (in the database, not in the PMT), without repeats |
| OffAir.OffAirList | mythtv/libs/libmythtv/channelscan/channelimporter.cpp:189-211 | the off-air list has one entry per off-air channel of the scan, without repeats |
| OffAir.OffAirListMembers | mythtv/libs/libmythtv/channelscan/channelimporter.cpp:193-211 | a position is listed exactly when it is valid and holds an off-air channel |
| OffAir.HideListedHides | mythtv/libs/libmythtv/channelscan/channelimporter.cpp:240-252 | every listed channel the database holds ends up not visible with "_" before its number; every other row is untouched |
| OffAir.DropListedIsRemoveOffAir | mythtv/libs/libmythtv/channelscan/channelimporter.cpp:263-279 | dropping the deleted positions is the same as removing the off-air channels from each transport |
| OffAir.RemoveOffAirCount | mythtv/libs/libmythtv/channelscan/channelimporter.cpp:263-280 | the channels left plus the off-air channels make up the scan |
| OffAir.DeleteAllListed | mythtv/libs/libmythtv/channelscan/channelimporter.cpp:229-239 | delete-all removes exactly the off-air ids from the database and the off-air channels from the scan, and returns their number |
| OffAir.DeleteChannels | mythtv/libs/libmythtv/channelscan/channelimporter.cpp:186-281 | with no off-air channel, or the answer ignore or manual, nothing changes; hide keeps the scan and returns 0 but hides exactly the off-air rows; delete removes exactly the off-air channels and returns how many |
| Pipeline.ImportType | mythtv/libs/libmythtv/channelscan/channelimporter.cpp:351-376 | one round of the driver never grows the list, keeps channels not of the type, only adds rows, keeps numbers unique, and changes nothing when every question is answered ignore-all |
| Pipeline.ImportTypes | mythtv/libs/libmythtv/channelscan/channelimporter.cpp:347-412 | a pass over the types keeps every channel of none of them (NTSC non-conflicting only counted), only adds rows and keeps numbers unique |
| Pipeline.ImportChannels | mythtv/libs/libmythtv/channelscan/channelimporter.cpp:337-450 | channels of no standard, and NTSC channels with a unique ATSC number, are never imported; a non-interactive import leaves channels only of a conflicting type where they were; numbers stay unique; ignore-all everywhere changes nothing |
| Pipeline.Cleaned | mythtv/libs/libmythtv/channelscan/channelimporter.cpp:95-97 | clean-up keeps a non-empty scan non-empty with its first transport first, and leaves no excluded channel |
| Pipeline.ScanSourceId | mythtv/libs/libmythtv/channelscan/channelimporter.cpp:110 | the source id is read from the first channel of the first transport, which must exist |
| Pipeline.FirstChannelMayBeFiltered | mythtv/libs/libmythtv/channelscan/channelimporter.cpp:95-110 | a one-channel scan whose channel is encrypted, with free-to-air only set, leaves a first transport with no channel for line 110 to read |
| Pipeline.ScanSourceIdChecked | mythtv/libs/libmythtv/channelscan/channelimporter.cpp:36-110 | the guarded read agrees with line 110 when the first transport has a channel and falls back to the caller's source id otherwise |
| Pipeline.RemoveKeepsUnique | mythtv/libs/libmythtv/channelscan/channelimporter.cpp:229-239 | deleting rows keeps the remaining numbers distinct |
| Pipeline.Prune | mythtv/libs/libmythtv/channelscan/channelimporter.cpp:128-136 | without deleting, the scan and the database are unchanged; when deleting, the database multiplexes missing from the scan join it: answered delete-all, the joined list without its off-air channels replaces the scan and their rows are removed; answered hide, the scan stays and exactly the off-air rows are hidden; with nothing off the air or answered ignore or manual, nothing changes; deleting without hiding keeps numbers unique |
| Pipeline.Prepare | mythtv/libs/libmythtv/channelscan/channelimporter.cpp:95-136 | before any channel is written, the database changes only when deleting is on, and then keeps numbers unique unless channels are hidden |
| Pipeline.Process | mythtv/libs/libmythtv/channelscan/channelimporter.cpp:35-162 | the source id comes from the guarded read `ScanSourceIdChecked`, not line 110's unchecked one; an empty scan changes nothing; with neither deleting nor inserting nothing changes; without deleting rows are only added; ignore-all answers leave the database and counters alone; numbers stay unique unless off-air channels are hidden |
| Channels.AddChanToCopy | mythtv/libs/libmythtv/channelscan/channelimporter.cpp:873-885 | the channel is appended; an empty copy first takes the source transport's tuning, a non-empty one keeps its own |
| Channels.PushIfAny | mythtv/libs/libmythtv/channelscan/channelimporter.cpp:679-687 | a per-transport copy joins the result list only when it holds channels, so the flattened list grows by exactly its channels |
| Channels.StoreKeepsUnique | mythtv/libs/libmythtv/channelscan/channelimporter.cpp:606-659 | storing a row under a number no other channel of its source uses keeps numbers unique |

## Left out

- The database is an abstract map. SQL, `SaveScan`, `DeleteUnusedTransports` and `ScanInfo::MarkProcessed` (lines 91-93, 157-160) are not modelled. They write tables outside the channel map.
- Console and log output is not modelled. This covers `GetSummary`, `FormatChannels`, the printed lists in `InsertChannels` (lines 414-449) and the empty-scan popup (lines 40-62). It has no effect on the data.
- Pipeline.Process: does not compute `CollectUniquenessStats` (lines 142-143). The result only feeds the printed summary. `Classify.CollectUniquenessStats` models the function on its own.
- IPTV tuning data (`CreateIPTVTuningData`) is not modelled. It is written to a separate table.
- `ChannelUtil` and the `DTVMultiplex`/`ChannelInsertInfo` methods are given as functions. Their internals are not part of this model. `UpdateInsertInfoFromDB` and `UpdateChannelNumberFromDB` are read from the database map. The visibility and guide flag are taken from the map, and so is a non-empty stored number.
- The multiplex loader (`FillFromDB`) is a function and is not tied to the channel map.
- Insert.AskLoop: the dialog and console loops repeat until the user gives a valid answer. Here the answers are a finite list, and a list that runs out ends as Cancel. In the dialog, the answer is not tied to the suggestion it was offered.
- Numbering.ComputeSuggestedChannelNum: the static counter is a 32-bit `uint` in the source. Its wrap-around after 2^32 numbers is not modelled.
- OffAir.DeleteChannels: off-air positions are pairs. The source packs them as `i<<16|j`. The model assumes fewer than 65536 transports and channels per transport, so no two positions collide.
- OffAir.DeleteChannels: manual deletion is a TODO in the source (line 255). As there, it changes nothing.
- Pipeline.Process: channel numbers are proved to stay unique only when the off-air answer is not "hide". Hiding prefixes "_" to the numbers of hidden channels (line 249). Two hidden numbers, or a hidden number and an existing "_" number, can then coincide.
- Pipeline.Process: concurrency, the GUI and `QMutex` are not modelled.
- Insert.InsertOneFresh: that `CreateChanID` hands out an id not yet in use is an assumption about that call (`FreshIds`), not something the model derives.
- DbMatch.GetDBTransports: which database channel id each scanned channel receives is not stated, only that it comes from a loaded multiplex; a later tier-1 match may overwrite an earlier one, as in the source.
- Update.UpdateOne: the answers a user can give are not tied to the front end. The console offers "Update Manually" (line 1842) and the model lets any `updateQuery` give it; it updates exactly as "Update All".
- DbMatch.SearchFound: which database channels the search finds is proved only for oracles satisfying `LinkBlind`. `ChannelInsertInfo::IsSameChannel` and `DTVMultiplex::IsEqual` are not part of this model; the proof assumes they do not read a channel's database multiplex id or channel id, or a tuning's multiplex id, the fields the search writes. The same hypothesis is on DbMatch.Tier1ChannelsFound, DbMatch.Tier1Found, DbMatch.Tier2Member, DbMatch.MatchMultiplexNotInScan, DbMatch.MatchAllNotInScan and DbMatch.GetDBTransportsNotInScan.
- Pipeline.Process: without a GUI and without interactivity, `QueryUserDelete`, `QueryUserInsert` and `QueryUserUpdate` answer delete-all, insert-all and update-all (lines 1646, 1721 and 1790). Here the answers are the functions `deleteQuery`, `insertQuery` and `updateQuery`, which are not tied to that default; every contract and lemma holds for any answer.
- Insert.InsertChans: its own contract counts the channels and says which ones stay or are skipped, but not which handled channels are inserted; Insert.InsertChansInserted states that through the channel-by-channel trace.
- Insert.InsertList: likewise; Insert.InsertChannelsSplit and Insert.InsertChannelsInserted state which channels are inserted.
- Insert.InsertChannels: likewise; Insert.InsertChannelsSplit and Insert.InsertChannelsInserted state which channels are inserted.
- Insert.InsertChannelsInserted: the multiplex a newly inserted channel gets is stated per transport only (Insert.InsertChansInserted), since it depends on that transport's tuning. When questions are asked, the number depends on the answers; Insert.ManualQuery, Insert.Resolve and Insert.Numbered state that case.
- Update.UpdateChans: its own contract counts the channels, but does not say which are updated; Update.UpdateChannelsSplit and Update.UpdateChannelsUpdated state that through the channel-by-channel trace.
- Update.UpdateChannels: likewise; Update.UpdateChannelsSplit and Update.UpdateChannelsUpdated state which channels are updated and with what number.
- Dedup.AbsorbChannels: the channels it appends from an absorbed transport are only counted, at most one per absorbed channel. Which absorbed channels they are, and how later absorbed channels enrich them, is not stated.

## Findings

| source | as written | input that shows it | evidently intended | confidence | as-written member | corrected member |
|---|---|---|---|---|---|---|
| mythtv/libs/libmythtv/channelscan/channelimporter.cpp:110 | after clean-up and filtering, the source id is read from `transports[0].m_channels[0]` without checking that the first transport still has a channel | a scan of one transport whose only channel is encrypted and not decrypted, with free-to-air only set: `FilterServices` empties that transport and the read is out of bounds | keep the caller's `sourceid` when the first transport has no channel left | medium, not executed | Pipeline.ScanSourceId, Pipeline.FirstChannelMayBeFiltered | Pipeline.ScanSourceIdChecked |

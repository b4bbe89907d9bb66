# private-ai-gateway: verified model

A Dafny model of the parts of the gateway that carry state or promises across
calls, with proofs. `dafny verify dfyconfig.toml` checks all of it.

**The attested-session store** (`Registry`, `SessionIndex`, `SessionStore`,
`SessionLog`, `LogTail`, `PlainCodec`, `StoreRuns`, `StoreCalls`, `LeaseRuns`,
`Lifetimes`, `Restart`). `Registry` is the store as a value. `SessionIndex` is the index in place: four maps that must
agree, each method proved against the registry operation it performs.
`SessionStore` adds the log file, and `SessionLog` says how its bytes are read
back, torn lines included. `StoreRuns` interleaves callers under the two locks,
step by step, with failing writes; `StoreCalls` shows that the store's own calls
are runs of that protocol. `LeaseRuns` follows leases over several stores.
`Lifetimes` follows a file over restarts and crashes, and `Restart` compares a
store that restarts with one that does not. `Session`, `Base64` and `Vault` hold
what a session is; `PlainCodec` shows that what is assumed of the log's encodings
can be had.

**Event streams** (`EventStream`, `SseFraming`, `SseObservation`, `SseStandard`,
`SseProtocol`). `EventStream` is sections 9.2.5 and 9.2.6 of the WHATWG HTML
standard. The framing observer is proved to follow a stream byte by byte, and to
agree with the standard under an exact condition; the terminators are proved to
form their own events.

**Outcome and capacity** (`Outcome`, `OutcomeRuns`, `Routes`, `Upload`,
`Admission`, `Capacity`). The reporting guard over the forwarder's walk, the route filter,
the upload byte budget and the inference slots.

**Receipts, prices and samples** (`Receipt`, `Pricing`, `Sampling`). `Pricing`
is arithmetic, most of it a case split away from the definitions; it is here for
the cases, not for its depth.

Hashing, canonical JSON, JSON parsing and signing are function-valued
parameters. What is assumed of them is in the predicates named `Lawful` and
`OneLine`: digests do not collide, canonical JSON and its parser undo each other,
a rendered log record is one line of which no proper beginning is a record, and
rendered JSON holds no line terminator. Clocks, lease counts, the outcome of
sealing and the point at which a write fails are parameters too, so every result
holds for all of them.

## What the proofs turned up

- One valid session per channel holds from a store whose valid sessions are the
  ones their channels map to, and only from such a store
  (`StoreRuns.OneUsableSession`, `StoreCalls.MappingIsNeeded`). A failed write can
  take a store out of that condition: if it got its whole record out, the next
  start loads a session that was reported as failed, beside the one sealed in its
  place, and records repeat their numbers (`StoreCalls.FailedWriteLeavesTwo`; see
  `StoreRuns.NumbersAreConsecutive`). If no write fails so late, every
  start finds the condition met, over any number of restarts and crashes, as long
  as sessions are sealed younger than what their channel has stored and the clock
  does not go back over a restart (`Lifetimes.OneSessionForLife`).
- `JsonlSessionStore::open` does not ask for a separator after a torn last line.
  An append would then lose the first record it writes, and only that one, unless
  the torn line leaves that record readable (`LogTail.UnseparatedAppend`,
  `UnseparatedExactly`; `TornTailLoses` is one such tail). The gateway compacts
  between opening and the first append; what is proved of the log starts there.
- A channel's fingerprint covers the verification round and the provider type,
  which the session document lacks, so two channels can come to share an id. The
  log then keeps the second channel's name alone, and after a restart the first
  no longer finds the session (`Restart.SharedIdShows`). `Restart` and `Lifetimes`
  take an id to belong to one channel.
- The observer's payloads are the client's unless a dispatched event holds a
  `data` line without a colon, or a first data line behind a byte order mark
  (`SseStandard.StandardExactly`).
- The comment on `Meter` promises one terminal report for every admitted request.
  The code reports no outcome at these exits, and the model follows it
  (`OutcomeRuns.VerdictOf`): an invalid request, a client that leaves before the
  control plane answers, a denial below 500 that is neither a rate limit nor
  attributed, a forward error below 500, and an encrypted answer that is not an
  event stream. Every other exit reports exactly one.
- A sample cap below the per-category floor is not kept to: one category is chosen
  and gets its floor (`Sampling.CapSampledIds` states the total for every input).
- A session whose content type holds a comma or the base64 marker is logged but
  never replayed (`StoreRuns.LogTellsTheRegistry`, `SessionLog.ReplaySessionExact`).

## Model

| member | source | states |
|---|---|---|
| `SessionIndex.SessionIndex.Insert` | src/aggregator/session_store.rs:198-239 | inserting leaves the registry with the session, its channel and its bundle, a known id keeping its token and never losing retention; the four maps still agree exactly when the session names the bundle that is counted for it |
| `SessionIndex.SessionIndex.DropRetentionHint` | src/aggregator/session_store.rs:241-248 | an id leaves its retention bucket, and an emptied bucket goes away |
| `SessionIndex.SessionIndex.EvictLapsed` | src/aggregator/session_store.rs:252-284 | one pass ends and removes exactly the lapsed sessions no lease holds, their mappings, and the bundles nobody cites any more; the four maps agree afterwards |
| `SessionIndex.SessionIndex.EvictBucket` | src/aggregator/session_store.rs:258-283 | emptying one bucket forgets its unheld sessions and puts the held ones back |
| `SessionIndex.SessionIndex.Settle` | src/aggregator/session_store.rs:262-282 | one session taken from a bucket is returned to it or forgotten, with the maps agreeing apart from those still set aside |
| `SessionIndex.SessionIndex.Forget` | src/aggregator/session_store.rs:268-282 | forgetting a session never takes a citation count below zero, and drops the bundle with the last citer |
| `SessionIndex.SessionIndex.Rebuild` | src/aggregator/session_store.rs:287-293 | the stored document with its bundle back, only if it still has its id |
| `SessionIndex.SessionIndex.Get` | src/aggregator/session_store.rs:295-299 | lookup evicts, then serves what is stored |
| `SessionIndex.SessionIndex.LeaseOf` | src/aggregator/session_store.rs:301-309 | a lease carries the entry's own token |
| `SessionIndex.SessionIndex.Extend` | src/aggregator/session_store.rs:311-327 | through a lease of this store, and only through one, the session is retained until the later of its deadline and the one asked for, and nothing else changes |
| `SessionIndex.SessionIndex.Current` | src/aggregator/session_store.rs:329-347 | a hit leases the valid session of the channel and retains it until the later of its deadline and the one asked for; a miss changes nothing but eviction |
| `SessionIndex.SessionIndex.BundlePersisted` | src/aggregator/session_store.rs:349-351 | whether the bundle is stored and marked |
| `SessionIndex.SessionIndex.MarkPersisted` | src/aggregator/session_store.rs:353-357 | marks one stored bundle and nothing else |
| `SessionIndex.SessionIndex.MarkAllPersisted` | src/aggregator/session_store.rs:572-574 | marks every stored bundle |
| `SessionIndex.CitersAfterForget` | src/aggregator/session_store.rs:274-281 | after a session leaves, every count still equals the number of citing sessions |
| `Registry.InsertSound` | src/aggregator/session_store.rs:198-239 | inserting a session that was sealed keeps every stored session whole and every bundle cited |
| `Registry.RebuildTotal` | src/aggregator/session_store.rs:287-299 | lookup succeeds for exactly the ids stored, and answers with that id |
| `Registry.ServesWhatWasSealed` | src/aggregator/session_store.rs:287-293 | what was sealed is what lookup serves, byte for byte, while it is stored |
| `Registry.WithoutCompose` | src/aggregator/session_store.rs:258-284 | evicting in parts is evicting at once |
| `Registry.GoneExactlyWhen` | src/aggregator/session_store.rs:252-284 | a session is there until its retention is over, and after that exactly while a lease holds it |
| `Registry.HitIsRetained` | src/aggregator/session_store.rs:329-347 | a hit is the valid session the channel maps to; once no lease holds it, it is there until the later of its old deadline and the one asked for, and gone from then on |
| `Registry.EvictUnlinks` | src/aggregator/session_store.rs:268-273 | a channel loses its mapping with its session and not otherwise |
| `Registry.LeaseTells` | src/aggregator/session_store.rs:301-309 | a lease tells the two times of the session that lookup serves |
| `Registry.RebuildNeverLies` | src/aggregator/session_store.rs:287-293 | whatever is stored, lookup never answers with another session |
| `LeaseRuns.LeaseSafety` | src/aggregator/session_store.rs:72-95 | in every run over several stores, each opened on any log at any time, while a clone of a lease lives its session stays indexed under the lease's token, lookup by id serves it whole and unchanged after an eviction at any time, and every other store refuses the lease |
| `LeaseRuns.StepKeeps` | src/aggregator/session_store.rs:301-347 | every index operation, clone, drop and opened store keeps live leases and tokens matched |
| `LeaseRuns.StepWhole` | src/aggregator/session_store.rs:252-347 | every such step, opening included, keeps every stored session whole |
| `LeaseRuns.LeasesCount` | src/aggregator/session_store.rs:301-347 | leases come from hits, admissions and clones, one at a time, and go one at a time when dropped |
| `StoreRuns.OneUsableSession` | src/aggregator/session_store.rs:768-793 | in every interleaving of calls under the two locks, with stale clocks, at most one stored session per channel is valid at the latest time used, and sealing happens only when there is none |
| `StoreRuns.ValidSessionsStay` | src/aggregator/session_store.rs:252-284 | in every such run, no step removes a session still valid at the latest time used |
| `StoreRuns.ChannelStep` | src/aggregator/session_store.rs:677-742 | each step of the protocol keeps the valid session of a channel mapped |
| `StoreRuns.LogTellsTheRegistry` | src/main.rs:620-641 | from startup on any bytes, in every run with appends torn anywhere and compactions failing anywhere: session records follow their bundles, every bundle in the index is marked and on file, and every indexed session is on file and comes back byte for byte from a reopening before the retention logged, exactly if replay accepts its content type |
| `StoreRuns.NumbersAreConsecutive` | src/aggregator/session_store.rs:698-737 | in every run in which no failed write left a record behind, the records on file are numbered from zero without gap or repeat |
| `StoreRuns.IndexedAsLogged` | src/aggregator/session_store.rs:703-742 | what an append wrote is what it indexes: session, channel and deadline |
| `StoreRuns.LogStep` | src/aggregator/session_store.rs:604-670 | each step keeps what the file says and what the registry claims of it in agreement |
| `StoreRuns.ReopenedSound` | src/aggregator/session_store.rs:508-590 | whatever the file holds, opening it loads only whole sessions with content types replay accepts |
| `StoreCalls.CurrentOrSealIsRun` | src/aggregator/session_store.rs:768-793 | a call of the durable store is a run of the locking protocol that releases both locks |
| `StoreCalls.CompactIsRun` | src/aggregator/session_store.rs:604-670 | a compaction, failed or not, is a run |
| `StoreCalls.MappingIsNeeded` | src/aggregator/session_store.rs:329-347 | a valid session its channel does not map to leads to two valid ones: the mapping is the exact condition for one |
| `StoreCalls.FailedWriteLeavesTwo` | src/aggregator/session_store.rs:728-742 | from an empty store, an append that fails with its record out and then a second one leave a file on which every start in time finds two valid sessions of the channel, and whose records repeat a number |
| `Lifetimes.OneSessionForLife` | src/main.rs:620-641 | over any number of restarts, each after a crash at any step, with writes failing short of their whole record and compactions failing at any step, at most one stored session of a channel is valid, also in the store the next start finds |
| `Lifetimes.NeatStep` | src/aggregator/session_store.rs:604-742 | each such step keeps the live records of the file to indexed sessions, those of one channel in succession, each over before the next |
| `Lifetimes.ReopensMapped` | src/aggregator/session_store.rs:508-590 | a file so left opens with every valid session mapped by its channel |
| `Lifetimes.SealedNowIsDue` | src/aggregator/service/forward.rs:1085-1110 | a session sealed no earlier than any clock reading used is younger than what its channel has stored |
| `SessionStore.JsonlSessionStore.constructor` | src/aggregator/session_store.rs:508-590 | opening a log yields the registry and next number that replaying its records gives, whatever else the file holds |
| `SessionStore.JsonlSessionStore.Replay` | src/aggregator/session_store.rs:536-570 | one record changes bundles, index and next number as replay says |
| `SessionStore.JsonlSessionStore.Compact` | src/aggregator/session_store.rs:604-670 | a compaction leaves every bundle and every retained session on file, oldest session first, numbered from zero; one that fails changes nothing but eviction |
| `SessionStore.OldestFirst` | src/aggregator/session_store.rs:614-621 | every session once, by age and then by id |
| `SessionStore.CompactLines` | src/aggregator/session_store.rs:622-636 | the text of a compaction: bundles, then sessions |
| `SessionStore.JsonlSessionStore.Compose` | src/aggregator/session_store.rs:695-727 | the bytes of an append, bundle first if the log lacks it, or none if a record would have no successor number |
| `SessionStore.JsonlSessionStore.Write` | src/aggregator/session_store.rs:728-736 | a write error leaves the bytes written and asks for a separator |
| `SessionStore.JsonlSessionStore.Append` | src/aggregator/session_store.rs:677-742 | a session is indexed, leased and its bundle marked only once its records are on file |
| `SessionStore.JsonlSessionStore.GetSession` | src/aggregator/session_store.rs:761-766 | lookup answers exactly the retained or leased ids, each with the session stored |
| `SessionStore.JsonlSessionStore.CurrentOrSeal` | src/aggregator/session_store.rs:768-793 | the channel's session prolonged and leased, or the sealed one appended; a failed seal or write leaves no session |
| `SessionStore.JsonlSessionStore.ExtendRetention` | src/aggregator/session_store.rs:794-799 | without a write, through a lease of this store and only through one, the session is retained until the later of its deadline and the one asked for |
| `SessionStore.AcquiredSound` | src/aggregator/session_store.rs:677-793 | no outcome of a call leaves a session that is not whole |
| `SessionStore.AcquiredExactly` | src/aggregator/session_store.rs:677-793 | a call ends with a lease exactly on a hit or when sealing and writing both succeed, on the right session, and leaves the file as each case says |
| `SessionStore.AcquiredIsRetained` | src/aggregator/session_store.rs:677-793 | the leased session is mapped by its channel and, once no lease holds it, retained exactly until the latest of the deadline asked for, its expiry and its old deadline |
| `SessionLog.CodecOfLawful` | src/aggregator/session_store.rs:370-408 | with base64 payloads the log's encodings undo each other |
| `SessionLog.RecordsAcrossNewline` | src/aggregator/session_store.rs:523-533 | a newline isolates: nothing before it, torn or not, changes how what follows is read |
| `SessionLog.TornAppend` | src/aggregator/session_store.rs:731-734 | a write cut after any number of bytes adds some first records of what was written, and no other |
| `SessionLog.TornShort` | src/aggregator/session_store.rs:731-734 | a write cut before the end of its last record leaves fewer records than it was writing |
| `SessionLog.WholeAppend` | src/aggregator/session_store.rs:698-737 | a completed append adds exactly its records, even after a torn line |
| `LogTail.UnseparatedAppend` | src/aggregator/session_store.rs:508-533 | for every file: an append without the separator joins its first record to the open last line and leaves all other records alone |
| `LogTail.UnseparatedExactly` | src/aggregator/session_store.rs:698-737 | such an append reads back exactly if the open line holds no record and does not change the one joined to it |
| `LogTail.TornTailLoses` | src/aggregator/session_store.rs:698-737 | a torn tail after which the appended record is lost without the separator and kept with it |
| `PlainCodec.PlainLawful` | src/aggregator/session_store.rs:370-408 | what is assumed of the log's encodings can be had |
| `SessionLog.ReplaySessionExact` | src/aggregator/session_store.rs:414-429 | a logged session is replayed as itself exactly when its content type is one replay accepts |
| `SessionLog.ReplayRebuilds` | src/aggregator/session_store.rs:536-570 | whatever else the log holds, a session logged behind its bundle is rebuilt with the same id, document and bundle |
| `SessionLog.ReplayNumbers` | src/aggregator/session_store.rs:536-545 | the next number is right after the highest read that has a successor |
| `SessionLog.AppendOrdered` | src/aggregator/session_store.rs:703-723 | any first part of an append keeps each session behind its bundle |
| `SessionLog.CompactComplete` | src/aggregator/session_store.rs:611-637 | a compaction logs every bundle and every session, each behind its bundle |
| `Restart.RestartsAreInvisible` | src/aggregator/session_store.rs:604-637 | a store that compacts and reopens at any points of its life answers every lookup and every hit, miss, failure and id as one that never restarts, with seals, writes and compactions failing anywhere, except for records kept only by a lease |
| `Restart.ReopenedIs` | src/aggregator/session_store.rs:553-569 | reopening a compacted file loads exactly the sessions whose retention is not over, each channel mapped to its newest |
| `Restart.StepAgrees` | src/aggregator/session_store.rs:329-347 | one call made of two stores that retain the same sessions gets one answer, and they go on retaining the same |
| `Restart.UsableIs` | src/aggregator/session_store.rs:329-347 | a channel's usable session is the one retained session of it that is still valid |
| `Restart.CallIsStep` | src/aggregator/session_store.rs:768-793 | the histories compared are those of the durable store's own call |
| `Restart.GetIsStep` | src/aggregator/session_store.rs:295-299 | their lookups answer exactly the sessions retained or held, each with what is stored of it |
| `Restart.FailedCallIsStep` | src/aggregator/session_store.rs:768-793 | so are their failing calls, whatever failed |
| `Restart.SharedIdShows` | src/aggregator/service/forward.rs:1043-1073 | two channels that share an id: the first finds its session before a restart and not after |
| `Restart.Reboot` | src/main.rs:620-641 | the durable store compacted and opened again on its file is a relaunch of those histories, and a proper one |
| `Session.DecodeFromBytes` | src/aggregator/session.rs:179-200 | decoding an encoded bundle gives it back exactly when the content type lacks the base64 marker |
| `Session.FromBytesDecode` | src/aggregator/session.rs:179-200 | whatever decodes is canonical: encoding it again gives the same reference |
| `Session.EvidenceText` | src/aggregator/session.rs:179-188 | the digest and the data URI of a bundle, as text |
| `Session.ServedRoundTrip` | src/aggregator/session.rs:258-282 | served bytes are adopted as the session that was sealed, and bytes get its id exactly if their canonical form is what was sealed |
| `Session.SealInjective` | src/aggregator/session.rs:258-267 | one id names one document |
| `Session.SplitThenRejoin` | src/aggregator/session_store.rs:134-158 | splitting and rejoining returns the sealed session, same id and bytes |
| `Session.RejoinThenSplit` | src/aggregator/session_store.rs:287-293 | rejoining and splitting returns the split |
| `Vault.VaultOfLawful` | src/aggregator/session_store.rs:134-158 | the sessions of the gateway keep the laws the store is proved against |
| `Base64.DecodeEncode` | src/aggregator/session.rs:192-200 | section 4 of RFC 4648: decoding undoes encoding for all bytes |
| `Base64.EncodeDecode` | src/aggregator/session.rs:179-188 | the strict decoder accepts only canonical text: encoding undoes decoding |
| `Base64.TestVectors` | src/aggregator/session.rs:179-188 | the test vectors of section 10 of RFC 4648 |
| `SseFraming.SseFramingObserver.Observe` | src/sse_framing.rs:128-162 | a chunk advances the observer as its bytes one by one do, until nothing is left to learn |
| `SseFraming.SseFramingObserver.ObserveByte` | src/sse_framing.rs:132-161 | one byte: line ends, the second half of CRLF, and the cap |
| `SseFraming.SseFramingObserver.ObserveLine` | src/sse_framing.rs:173-199 | one line is a blank, a comment, data or another field |
| `SseFraming.SseFramingObserver.DispatchEvent` | src/sse_framing.rs:201-227 | what is learnt from a dispatched payload |
| `SseFraming.SseFramingObserver.ObserveTerminal` | src/sse_framing.rs:236-291 | numbers, terminals and errors latch |
| `SseFraming.ChunksDoNotMatter` | src/sse_framing.rs:128-162 | however a stream is cut, the observer ends in the same state |
| `SseObservation.FailsExactly` | src/sse_framing.rs:151-159 | the observer gives up exactly on the streams that, with something still to learn, make it hold more than 16 MiB of open line and event data |
| `SseObservation.ObserverFollows` | src/sse_framing.rs:128-242 | the observer gave up, or its whole state is what the stream up to where it stopped makes it, and it stops only with nothing left to learn |
| `SseObservation.AnswersAreTheStreams` | src/sse_framing.rs:93-114 | on every stream that does not overflow it, the ids and whether the stream ended are those of the whole stream |
| `SseObservation.StoppingEarlyIsSound` | src/sse_framing.rs:164-171 | on every stream, stopping early gives the answers of an observer that never does |
| `SseObservation.BuffersStaySmall` | src/sse_framing.rs:151-159 | between bytes the two buffers together never exceed the cap |
| `SseObservation.FailureIsFinal` | src/sse_framing.rs:151-159 | after a failed observation no byte changes any answer |
| `SseStandard.StandardExactly` | src/sse_framing.rs:173-227 | the payloads seen are those of sections 9.2.5 and 9.2.6 of the WHATWG HTML standard exactly when no dispatched event holds a line the observer misreads |
| `SseStandard.ItemsDiffer` | src/sse_framing.rs:189-191 | the observer and the standard disagree on one line only: data without a colon |
| `SseStandard.SameDataIff` | src/sse_framing.rs:196-207 | two readings dispatch the same data exactly when no line only one of them counts is dispatched |
| `SseStandard.AnswersAreTheClients` | src/sse_framing.rs:93-114 | on every stream that does not overflow it and dispatches no such line, the ids and whether the stream ended are those of the events the client dispatches |
| `SseStandard.ColonlessDataDiffers` | src/sse_framing.rs:189-191 | a stream on which the observer and the client differ |
| `SseStandard.MarkedDataDiffers` | src/sse_framing.rs:173-199 | and one behind a byte order mark |
| `EventStream.LinesSnoc` | src/sse_framing.rs:137-149 | one more byte changes the lines of a stream as LF, CRLF and CR terminators say |
| `EventStream.PayloadsAreData` | src/sse_framing.rs:192-207 | following the data lines alone finds the data of exactly the events dispatched |
| `SseProtocol.ErrorSplices` | src/sse_protocol.rs:140-184 | appended anywhere, mid-line, after a lone CR or mid-event, an error event is read, after what a blank line would dispatch, as the chat error and a done event, as the Anthropic error with the request id, or as the Responses error with the successor of the last number |
| `SseProtocol.SuccessSplices` | src/sse_protocol.rs:39-52 | between events the success terminator is exactly one done event |
| `SseProtocol.NumberContinues` | src/sse_protocol.rs:173-177 | that number comes right after the highest one seen exactly when one is left |
| `SseProtocol.QuietIsQuiet` | src/sse_framing.rs:119-121 | where the observer sees an event boundary the client has nothing buffered |
| `SseProtocol.TailIsItsOwn` | src/aggregator/service/streaming.rs:211-250 | whatever the finalizer appends, the client reads the events it had and then one done event, or the error with status 502 of its protocol, a Responses error numbered one above the highest number seen or zero; only a stream that named no terminal and no error gets one |
| `SseProtocol.TailExactlyWhen` | src/aggregator/service/streaming.rs:211-250 | a stream gets a tail exactly when it did not overflow the observer, stopped between events, named no terminal and no error, and the protocol has a marker or a free number to give |
| `SseProtocol.StreamEnd.TakeSynthesizedTail` | src/aggregator/service/streaming.rs:211-250 | a tail is taken at most once, and is the one the observed stream calls for |
| `Outcome.Meter.FailedAttempts` | src/middleware/completion.rs:1545-1560 | one row per attempt that had a status, at its own index, and the meter stays armed |
| `Outcome.Meter.Account` | src/middleware/completion.rs:520-992 | each result arm posts its rows and settles the meter |
| `Outcome.Meter.Deny` | src/middleware/completion.rs:289-305 | a denial is posted, at index 0, exactly if it could be attributed, is a rate limit or is a failure |
| `Outcome.Meter.AccountEarly` | src/middleware/completion.rs:1056-1137 | the accounting of a result once the headers are out |
| `Outcome.Meter.Drop` | src/middleware/completion.rs:1602-1633 | an armed meter that goes away reports the attempts given up and the client's leaving, with the candidate in flight |
| `OutcomeRuns.SettledOnce` | src/middleware/completion.rs:520-992 | every result comes to one row for each attempt with a status, with its route and status at its own index, and to the terminal row with the status and route its arm calls for, the hand-off, or neither |
| `OutcomeRuns.EveryRequestIsSettledOnce` | src/middleware/completion.rs:1434-1474 | in every run from arrival on, with the client leaving at any wait, nothing is posted before the end; then the rows are exactly one for each candidate given up with a status and the one the end calls for, read off the actions alone: status, route and index, or a hand-off, or none at the ends that stay silent |
| `OutcomeRuns.AbandonedOnce` | src/middleware/completion.rs:1602-1633 | a client that leaves during the forward is told as 499 with the candidate waited on, at the number of those given up |
| `OutcomeRuns.StepAccounted` | src/aggregator/service/middleware.rs:411-450 | each step of the walk keeps the journal in step with the forwarder's own list |
| `Routes.DropConflictingRouteTwins` | src/middleware/completion.rs:1003-1017 | keeps, in order, the candidates that are the first of their route id |
| `Routes.KeptExactly` | src/middleware/completion.rs:1003-1017 | a candidate is kept exactly when it equals the first listed under its id |
| `Routes.CopiesKept` | src/middleware/completion.rs:1003-1017 | every listing of a kept candidate is kept, and no listing of another |
| `Routes.FirstExactly` | src/middleware/completion.rs:1003-1017 | the candidate under an id is the first listed with it |
| `Routes.UnlistedFormat` | src/middleware/completion.rs:1323-1345 | a route that is not listed is read as the first one, and as OpenAI if there is none |
| `Routes.FilterIsIdempotent` | src/middleware/completion.rs:1003-1017 | filtering again changes nothing |
| `Routes.AnyCopyWillDo` | src/middleware/completion.rs:1323-1345 | afterwards the lookup gives the format of whichever copy served, as it would have before |
| `Upload.CollectUpload` | src/middleware/audio.rs:122-146 | a whole upload holds one permit per byte; a refused one holds none and stops at the first chunk that is broken, too large or not covered |
| `Upload.UploadsAreBounded` | src/middleware/audio.rs:19-34 | in every run of concurrent uploads, free and held permits make the budget and the bytes held never exceed thirty-two whole bodies |
| `Upload.StepBalanced` | src/middleware/completion.rs:369-392 | taking a slot, giving permits back and dropping an upload keep the balance |
| `Admission.SlotsAreConserved` | src/middleware/admission.rs:15-114 | in every run free slots and live permits make sixteen per endpoint and a request is refused exactly when sixteen of its own endpoint are live; a request holds its slot exactly while, by its own steps, its handler runs, its body flows or some frame of it has a handle left |
| `Admission.PermitBody.PollFrame` | src/middleware/admission.rs:69-91 | a data frame takes a reference of its own and trailers none, the end or an error of the body lets its reference go, and the slot is free with the last one |
| `Admission.SharedPermit.Drop` | src/middleware/admission.rs:104-108 | the slot goes back with the last reference and not before |
| `Admission.NextCounted` | src/middleware/admission.rs:69-91 | every poll, clone and drop keeps the reference count equal to the holders |
| `Receipt.ReceiptBuilder.Append` | src/aci/receipt.rs:238-252 | an event is appended, or refused and the log unchanged |
| `Receipt.ReceiptBuilder.Run` | src/aci/receipt.rs:254-381 | each call adds its own event, member by member, and touches nothing else, or reports why not |
| `Receipt.RefusedExactly` | src/aci/receipt.rs:238-381 | a call is refused exactly for what is wrong with it, in the order it is found |
| `Receipt.RequiredFailureRefuses` | src/aci/receipt.rs:325-343 | a required verification that failed makes the log one that refuses |
| `Receipt.WithModelWrites` | src/aci/receipt.rs:389-406 | the first verified event, and it alone, gets the model served, and keeps its other members |
| `Receipt.ReceiptBuilder.SetChatId` | src/aci/receipt.rs:383-385 | the chat id is part of the header that is signed |
| `Receipt.ReceiptBuilder.SetUpstreamVerifiedModelId` | src/aci/receipt.rs:389-406 | only the first verified event is rewritten, and only its model |
| `Receipt.ReceiptBuilder.Finalize` | src/aci/receipt.rs:411-488 | the first requirement missing is reported; otherwise what is served is the header, the whole event log, the key id and a signature over exactly the rest |
| `Receipt.CheckedIsComplete` | src/aci/receipt.rs:411-440 | after any calls in any order a log is issued exactly when it is complete: it starts with the request, holds the response, was forwarded or refused, and every verification is in one of its two forms |
| `Receipt.CheckedNames` | src/aci/receipt.rs:411-440 | a log that does not pass names the first event it lacks |
| `Receipt.AppliedKeeps` | src/aci/receipt.rs:289-343 | every call, the later model rewrite included, keeps verified events with a session and no reason and failed ones with a reason and no session |
| `Receipt.SignatureCoversTheRest` | crates/aci-protocol/src/receipt.rs:9-15 | the served document has every header member, the log, the key id and the signature and no other, and taking the signature out gives exactly the bytes signed |
| `Pricing.TokensAreConserved` | src/middleware/pricing.rs:63-95 | every input token is in exactly one bucket, up to the larger of the prompt and the cached tokens |
| `Pricing.UncachedIsInput` | src/middleware/pricing.rs:76-88 | without a prompt count the uncached part is the input count, less the cached part only in the Responses shape, and never negative |
| `Pricing.InputDetailsAreIgnored` | src/middleware/pricing.rs:46-61 | beside another cache signal the input details change nothing |
| `Pricing.NothingOverflows` | src/middleware/pricing.rs:82-94 | for any 64-bit counts every sum and difference fits in 128 bits |
| `Pricing.ShapesAgree` | src/middleware/pricing.rs:63-95 | the same tokens resolve alike in the chat, Anthropic and Responses spellings |
| `Pricing.CostIs` | src/middleware/pricing.rs:114-133 | the cost is each bucket at its own rate; cache rates fall back on the input rate, input and output rates on zero |
| `Pricing.FirstNamedCounts` | src/middleware/pricing.rs:46-95 | which member counts when several speak of the same tokens |
| `Pricing.FlatPrice` | src/middleware/pricing.rs:114-133 | with no cache rates all input costs alike, exactly |
| `Sampling.HandOut` | scripts/live_e2e/bfcl_v4.py:292-299 | one round gives one more to each category that has one while any are left, and gives none only when no category has more |
| `Sampling.CapCounts` | scripts/live_e2e/bfcl_v4.py:286-302 | the rounds end with all cases handed out, or all ids, and counts levelled to within one |
| `Sampling.RoundIsNearest` | scripts/live_e2e/bfcl_v4.py:365-368 | rounding is to the nearest integer, halves to the even one |
| `Sampling.RoundApart` | scripts/live_e2e/bfcl_v4.py:365-368 | values more than one apart round to different integers |
| `Sampling.PicksFit` | scripts/live_e2e/bfcl_v4.py:364-368 | the picks are strictly increasing from the first index to the last |
| `Sampling.Chosen` | scripts/live_e2e/bfcl_v4.py:315-346 | as many indexes as asked for or available, increasing and in bounds: the middle one if one is asked for, otherwise those nearest to evenly spread positions |
| `Sampling.Select` | scripts/live_e2e/bfcl_v4.py:348-377 | the selection takes the evenly spread items, and never needs topping up |
| `Sampling.NonEmptyKeeps` | scripts/live_e2e/bfcl_v4.py:264-275 | exactly the categories that have ids stay |
| `Sampling.CapSampledIds` | scripts/live_e2e/bfcl_v4.py:264-312 | for every cap and floor, exactly the cap or the floor if larger, or all that the chosen categories have, levelled across categories and even within each |

## Left out

- InMemorySessionStore: the index under one lock, with no file; its operations are those of `SessionIndex`.
- The advisory lock file, directory paths and everything below "write some bytes, sync, rename".
- Lifetimes.OneSessionForLife: an id is taken to belong to one channel, as in `Restart.RestartsAreInvisible`; a file written by anything but this store is not covered.
- A lease dropped in the middle of an eviction pass is taken to be dropped before or after it; the pass itself is one step of a run.
- Overlapping calls are steps of `StoreRuns`; `SessionStore` describes each call on its own.
- Upload.UploadsAreBounded: over many uploads the semaphore is a counter of a step machine; the read deadline is the `Stop` step.
- Admission.SlotsAreConserved: over whole runs the reference count of a permit is a counter of a step machine; frames are numbered, and the bytes in them are not modelled.
- Outcome.Meter.Account: a report carries its index, status and route; durations, usage and error classes are left out, and the `u32` casts of indexes.
- OutcomeRuns.EveryRequestIsSettledOnce: ends at the hand-off to the stream meter; what that meter posts, and the report of a finalizer that fails after it, are not modelled.
- EventStream.PayloadsAreData: event ids and reconnection times are not modelled; they change no event's data or type.
- SseProtocol.ErrorSplices: the JSON bodies of errors are parameters, assumed to be one line.
- Receipt.SignatureCoversTheRest: signing and key lookup are parameters; the check that the key is Ed25519 is part of whether the key is known.
- Pricing.FlatPrice: rates are real numbers; `Decimal` overflow, parsing of rates and the final `f64` are left out, as are image and audio prices.
- Sampling.PicksFit: positions are exact rationals, not floats; the random sample mode is left out.
- Request and response transforms, the forwarder's verification and transport, control-plane reports, E2EE, metrics and HTTP wiring.

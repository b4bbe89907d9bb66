/**
  The calls of the durable store are runs of the locking protocol: what
  `StoreRuns` proves of every run therefore holds of the store's own methods.
 */
module StoreCalls {
  import opened Foundation
  import opened Session
  import opened Vault
  import opened Registry
  import opened SessionLog
  import opened StoreRuns
  import Store = SessionStore

  function LogOf(w: World): Store.Log {
    Store.Log(w.file, w.nextSeq, w.needsSeparator)
  }

  lemma RunCons(v: Vault, c: Codec, w: World, a: Action, rest: seq<Action>)
    requires Enabled(v, c, w, a) && Runs(v, c, Apply(v, c, w, a), rest)
    ensures Runs(v, c, w, [a] + rest) && After(v, c, w, [a] + rest) == After(v, c, Apply(v, c, w, a), rest)
  {
    assert ([a] + rest)[1..] == rest;
  }

  lemma RunOne(v: Vault, c: Codec, w: World, a: Action)
    requires Enabled(v, c, w, a)
    ensures Runs(v, c, w, [a]) && After(v, c, w, [a]) == Apply(v, c, w, a)
  {
    assert [a][1..] == [];
  }

  /** The writer has sealed `p` and is about to write it. */
  ghost predicate AboutToWrite(w: World, q: Request, p: Split) {
    w.holder == Composed(q, p, p.digest in w.registry.stored && w.registry.stored[p.digest].persisted)
  }

  lemma SameRecords(c: Codec, w: World, q: Request, p: Split)
    requires AboutToWrite(w, q, p)
    ensures Store.NewRecords(c, w.registry, LogOf(w), q.fingerprint, Max(q.retentionUntil, p.stripped.expiresAt), q.now, p)
            == NewRecords(c, w)
  {
  }

  ghost function Writes(c: Codec, w: World, q: Request, p: Split, torn: Option<nat>): (Store.Log, bool) {
    Store.Wrote(c, w.registry, LogOf(w), q.fingerprint, p, Max(q.retentionUntil, p.stripped.expiresAt), q.now, torn)
  }

  /** The write of an append is one step of the protocol. */
  lemma WriteIsStep(v: Vault, c: Codec, w: World, q: Request, p: Split, torn: Option<nat>) returns (a: Action)
    requires AboutToWrite(w, q, p)
    ensures Enabled(v, c, w, a)
    ensures var w' := Apply(v, c, w, a);
            && (LogOf(w'), w'.holder == Written(q, p)) == Writes(c, w, q, p, torn)
            && (w'.holder == Written(q, p) || w'.holder.Free?)
            && w'.registry == w.registry && w'.tokens == w.tokens && w'.latest == w.latest
  {
    SameRecords(c, w, q, p);
    if w.nextSeq + |NewRecords(c, w)| > U64_MAX {
      a := WriteRefused;
    } else if Store.Torn(torn, Appended(c, w)) {
      a := WriteFails(torn.value);
    } else {
      a := WriteOk;
    }
  }

  /** The world is where a call left it: registry, file and tokens as the outcome says, and no lock held. */
  ghost predicate Left(w: World, out: Store.Outcome, latest: nat) {
    w.registry == out.registry && LogOf(w) == out.log && w.tokens == out.tokens && w.latest == latest && w.holder.Free?
  }

  /** An append, from the sealed session to the published one, is a run. */
  lemma AppendIsRun(v: Vault, c: Codec, w: World, q: Request, p: Split, held: set<nat>, torn: Option<nat>)
    returns (actions: seq<Action>)
    requires AboutToWrite(w, q, p)
    ensures Runs(v, c, w, actions)
    ensures var w', out := After(v, c, w, actions),
                           Store.Appended(c, w.registry, LogOf(w), w.tokens, q.fingerprint, p,
                                          Max(q.retentionUntil, p.stripped.expiresAt), q.now, held, torn);
            Left(w', out, w.latest)
  {
    var a := WriteIsStep(v, c, w, q, p, torn);
    var w1 := Apply(v, c, w, a);
    if w1.holder == Written(q, p) {
      var until := Max(q.retentionUntil, p.stripped.expiresAt);
      var lease := Store.Published(w.registry, q.fingerprint, p, until, w.tokens, q.now, held).1;
      RunOne(v, c, w1, Publish(held + {lease.token}));
      RunCons(v, c, w, a, [Publish(held + {lease.token})]);
      actions := [a] + [Publish(held + {lease.token})];
    } else {
      RunOne(v, c, w, a);
      actions := [a];
    }
  }

  ghost function CallOutcome(c: Codec, e: Registry, w: World, q: Request, held: set<nat>, seal: Option<Split>,
                             torn: Option<nat>): Store.Outcome {
    Store.Acquired(c, e, LogOf(w), w.tokens, q.fingerprint, q.retentionUntil, q.now, held, seal, torn)
  }

  // After a second miss under the writer lock.
  lemma SealIsRun(v: Vault, c: Codec, w: World, q: Request, held: set<nat>, seal: Option<Split>, torn: Option<nat>)
    returns (actions: seq<Action>)
    requires w.holder == Sealing(q) && w.registry.Usable(q.fingerprint, q.now).None?
    requires seal.Some? ==> v.genuine(seal.value)
    ensures Runs(v, c, w, actions)
    ensures Left(After(v, c, w, actions), CallOutcome(c, w.registry, w, q, held, seal, torn), w.latest)
  {
    if seal.None? {
      RunOne(v, c, w, SealFails);
      actions := [SealFails];
    } else {
      var w1 := Apply(v, c, w, SealOk(seal.value));
      var rest := AppendIsRun(v, c, w1, q, seal.value, held, torn);
      RunCons(v, c, w, SealOk(seal.value), rest);
      actions := [SealOk(seal.value)] + rest;
    }
  }

  // After a first miss: the writer lock is taken and the lookup repeated, which alone finds the same.
  lemma MissIsRun(v: Vault, c: Codec, w: World, q: Request, held: set<nat>, seal: Option<Split>, torn: Option<nat>)
    returns (actions: seq<Action>)
    requires w.holder.Free? && q in w.waiting
    requires w.registry.Evict(q.now, held) == w.registry && w.registry.Usable(q.fingerprint, q.now).None?
    requires seal.Some? ==> v.genuine(seal.value)
    ensures Runs(v, c, w, actions)
    ensures Left(After(v, c, w, actions), CallOutcome(c, w.registry, w, q, held, seal, torn), w.latest)
  {
    var w1 := Apply(v, c, w, TakeWriter(q));
    var w2 := Apply(v, c, w1, Recheck(held));
    var rest := SealIsRun(v, c, w2, q, held, seal, torn);
    RunCons(v, c, w1, Recheck(held), rest);
    RunCons(v, c, w, TakeWriter(q), [Recheck(held)] + rest);
    actions := [TakeWriter(q)] + ([Recheck(held)] + rest);
  }

  /** A whole `current_or_seal` call is a run of the protocol that releases both locks. */
  lemma CurrentOrSealIsRun(v: Vault, c: Codec, w: World, q: Request, held: set<nat>, seal: Option<Split>,
                           torn: Option<nat>) returns (actions: seq<Action>)
    requires w.holder.Free? && (forall d :: d in w.registry.stored ==> w.registry.Citing(d) != {})
    requires seal.Some? ==> v.genuine(seal.value)
    ensures Runs(v, c, w, actions)
    ensures Left(After(v, c, w, actions), CallOutcome(c, w.registry.Evict(q.now, held), w, q, held, seal, torn),
                 Max(w.latest, q.now))
  {
    var e := w.registry.Evict(q.now, held);
    var w1 := Apply(v, c, w, Arrive(q, held));
    if e.Usable(q.fingerprint, q.now).Some? {
      RunOne(v, c, w, Arrive(q, held));
      actions := [Arrive(q, held)];
    } else {
      Store.EvictTwice(w.registry, q.now, held);
      var rest := MissIsRun(v, c, w1, q, held, seal, torn);
      RunCons(v, c, w, Arrive(q, held), rest);
      actions := [Arrive(q, held)] + rest;
    }
  }

  /** A compaction, failed or not, is a run. */
  lemma CompactIsRun(v: Vault, c: Codec, w: World, now: nat, held: set<nat>, digests: seq<string>, ids: seq<string>,
                     fails: bool)
    returns (actions: seq<Action>)
    requires w.holder.Free? && Listing(w.registry.Evict(now, held), digests, ids)
    ensures Runs(v, c, w, actions)
    ensures var w', r := After(v, c, w, actions), w.registry.Evict(now, held);
            var records := CompactRecords(c, now, r, digests, ids);
            && w'.holder.Free? && w'.tokens == w.tokens
            && if fails then w'.registry == r && LogOf(w') == LogOf(w)
               else w'.registry == r.MarkAllPersisted() && LogOf(w') == Store.Log(Text(c, records), |records|, false)
  {
    var w1 := Apply(v, c, w, CompactStart(now));
    var snapshot := CompactSnapshot(held, digests, ids);
    var w2 := Apply(v, c, w1, snapshot);
    if fails {
      RunOne(v, c, w2, CompactFails);
      actions := [CompactFails];
    } else {
      var w3 := Apply(v, c, w2, CompactRename);
      RunOne(v, c, w3, CompactFinish);
      RunCons(v, c, w2, CompactRename, [CompactFinish]);
      actions := [CompactRename] + [CompactFinish];
    }
    RunCons(v, c, w1, snapshot, actions);
    RunCons(v, c, w, CompactStart(now), [snapshot] + actions);
    actions := [CompactStart(now)] + ([snapshot] + actions);
  }

  // ---------- when one session per channel fails ----------

  /** Channels map to sessions of their own. */
  ghost predicate OwnMappings(r: Registry) {
    forall fp :: fp in r.current && r.current[fp] in r.entries ==> r.entries[r.current[fp]].fingerprint == fp
  }

  lemma EvictKeepsValid(r: Registry, now: nat, held: set<nat>, id: string)
    requires id in r.entries && now < r.entries[id].retentionUntil
    ensures id in r.Evict(now, held).entries && r.Evict(now, held).entries[id] == r.entries[id]
  {
  }

  lemma PublishedHolds(e: Registry, fp: string, p: Split, until: nat, token: nat, now: nat, held: set<nat>, id: string)
    requires id in e.entries && id != p.id && p.id !in e.entries && now < e.entries[id].retentionUntil && now < until
    ensures var r := Store.Published(e, fp, p, until, token, now, held).0;
            && id in r.entries && r.entries[id] == e.entries[id]
            && p.id in r.entries && r.entries[p.id].stripped == p.stripped && r.entries[p.id].fingerprint == fp
  {
    var i := e.Insert(fp, p, until, token).MarkPersisted(p.digest);
    var with := held + {i.LeaseOf(p.id).token};
    EvictKeepsValid(i, now, with, id);
    EvictKeepsValid(i, now, with, p.id);
  }

  lemma WholeWrite(c: Codec, e: Registry, log: Store.Log, fp: string, p: Split, until: nat, now: nat)
    requires log.nextSeq + 2 <= U64_MAX
    ensures Store.Wrote(c, e, log, fp, p, until, now, None).1
  {
  }

  /**
    A store with a valid session that its channel does not map to, as a file
    can leave one, comes to have two: at once, or by the next session sealed.
    With `OneUsableSession` this makes the mapping the exact condition.
   */
  lemma MappingIsNeeded(v: Vault, c: Codec, w: World, id: string, p: Split) returns (actions: seq<Action>,
                        other: string)
    requires AtRest(w) && OwnMappings(w.registry) && (forall d :: d in w.registry.stored ==> w.registry.Citing(d) != {})
    requires id in w.registry.entries && w.latest < w.registry.entries[id].stripped.expiresAt
    requires var fp := w.registry.entries[id].fingerprint; !(fp in w.registry.current && w.registry.current[fp] == id)
    requires v.genuine(p) && p.id !in w.registry.entries && w.latest < p.stripped.expiresAt
    requires w.nextSeq + 2 <= U64_MAX
    ensures Runs(v, c, w, actions) && TwoUsable(After(v, c, w, actions), id, other)
  {
    var r, fp := w.registry, w.registry.entries[id].fingerprint;
    if r.Usable(fp, w.latest).Some? {
      actions, other := [], r.Usable(fp, w.latest).value;
    } else {
      var e, q := r.Evict(w.latest, {}), Request(fp, 0, w.latest);
      EvictKeepsValid(r, w.latest, {}, id);
      WholeWrite(c, e, LogOf(w), fp, p, p.stripped.expiresAt, w.latest);
      PublishedHolds(e, fp, p, p.stripped.expiresAt, w.tokens, w.latest, {}, id);
      actions := CurrentOrSealIsRun(v, c, w, q, {}, Some(p), None);
      other := p.id;
    }
  }

  // ---------- a file that brings such a store up ----------

  lemma StartsEmpty(v: Vault, c: Codec, t: nat)
    requires c.Lawful()
    ensures Reopened(v, c, [], t).Evict(t, {}) == Empty && Listing(Reopened(v, c, [], t).Evict(t, {}), [], [])
    ensures Startup(v, c, [], t, t, [], [], 0) == World(Empty, [], false, 0, Free, multiset{}, t, 0)
  {
    NoRecordInNothing(c);
    assert Reopened(v, c, [], t) == Empty;
    assert Empty.Evict(t, {}) == Empty;
  }

  /** The two records a first session is logged as. */
  function Pair(c: Codec, fp: string, t: nat, p: Split): seq<Record> {
    AppendRecords(c, 0, t, fp, p.stripped.expiresAt, p, false)
  }

  /** All of the text is out, or all but its last newline. */
  predicate NearlyAll(k: nat, text: seq<byte>) {
    |text| <= k + 1 && k <= |text|
  }

  lemma NewlineLast(c: Codec, line: seq<byte>)
    requires c.Lawful()
    ensures Records(c, line) == Records(c, line + [LF])
  {
    RecordsAcrossNewline(c, line, []);
    NoRecordInNothing(c);
    assert line + [LF] + [] == line + [LF];
  }

  lemma DropLast(text: seq<byte>, k: nat)
    requires |text| == k + 1 && Clean(text)
    ensures text == text[..k] + [LF]
  {
  }

  lemma NearlyAllReads(c: Codec, records: seq<Record>, k: nat)
    requires c.Lawful() && records != [] && NearlyAll(k, Text(c, records))
    ensures Records(c, Text(c, records)[..k]) == records
  {
    var text := Text(c, records);
    RecordsOfText(c, records);
    if k < |text| {
      DropLast(text, k);
      NewlineLast(c, text[..k]);
    } else {
      assert text[..k] == text;
    }
  }

  ghost predicate Ready(v: Vault, p: Split, t: nat) {
    v.genuine(p) && Replayable(p.contentType) && t < p.stripped.expiresAt
  }

  // The append of the first session fails with all its bytes out, or all but the last.
  lemma FirstCall(v: Vault, c: Codec, fp: string, p: Split, t: nat, k: nat) returns (actions: seq<Action>)
    requires v.Lawful() && c.Lawful() && Ready(v, p, t) && NearlyAll(k, Text(c, Pair(c, fp, t, p)))
    ensures Listing(Reopened(v, c, [], t).Evict(t, {}), [], [])
    ensures var w := Startup(v, c, [], t, t, [], [], 0);
            && Runs(v, c, w, actions)
            && var w' := After(v, c, w, actions);
               && w'.registry == Empty && w'.file == Text(c, Pair(c, fp, t, p))[..k] && w'.needsSeparator
               && w'.nextSeq == 0 && w'.holder.Free? && w'.latest == t && w'.tokens == 0
  {
    StartsEmpty(v, c, t);
    var w := Startup(v, c, [], t, t, [], [], 0);
    var q, text := Request(fp, 0, t), Text(c, Pair(c, fp, t, p));
    assert Empty.Evict(t, {}) == Empty;
    actions := CurrentOrSealIsRun(v, c, w, q, {}, Some(p), Some(k));
    assert Lead(false) + text == text && [] + text[..k] == text[..k];
  }

  // The next caller of the channel finds nothing and seals another session.
  lemma SecondCall(v: Vault, c: Codec, w: World, fp: string, p: Split) returns (actions: seq<Action>)
    requires v.Lawful() && c.Lawful() && Ready(v, p, w.latest)
    requires w.registry == Empty && w.needsSeparator && w.nextSeq == 0 && w.holder.Free?
    ensures Runs(v, c, w, actions)
    ensures var w' := After(v, c, w, actions);
            w'.file == w.file + ([LF] + Text(c, Pair(c, fp, w.latest, p))) && w'.holder.Free?
            && w'.registry.entries.Keys == {p.id}
  {
    assert Empty.Evict(w.latest, {}) == Empty;
    actions := CurrentOrSealIsRun(v, c, w, Request(fp, 0, w.latest), {}, Some(p), None);
    SecondOutcome(c, LogOf(w), fp, p, w.latest, w.tokens);
  }

  lemma SecondOutcome(c: Codec, log: Store.Log, fp: string, p: Split, t: nat, tokens: nat)
    requires log.needsSeparator && log.nextSeq == 0 && t < p.stripped.expiresAt
    ensures var out := Store.Acquired(c, Empty, log, tokens, fp, 0, t, {}, Some(p), None);
            out.log.file == log.file + ([LF] + Text(c, Pair(c, fp, t, p))) && out.registry.entries.Keys == {p.id}
  {
    PublishedAlone(fp, p, p.stripped.expiresAt, tokens, t);
  }

  lemma PublishedAlone(fp: string, p: Split, until: nat, token: nat, now: nat)
    requires now < until
    ensures Store.Published(Empty, fp, p, until, token, now, {}).0.entries.Keys == {p.id}
  {
    var i := Empty.Insert(fp, p, until, token).MarkPersisted(p.digest);
    EvictKeepsValid(i, now, {} + {i.LeaseOf(p.id).token}, p.id);
  }

  ghost predicate OfChannel(records: seq<Record>, fp: string) {
    forall i :: 0 <= i < |records| && records[i].fingerprint.Some? ==> records[i].fingerprint.value == fp
  }

  lemma {:induction false} ReplaysOneChannel(v: Vault, c: Codec, now: nat, records: seq<Record>, fp: string)
    requires OfChannel(records, fp)
    ensures forall id :: id in ReplayAll(v, c, now, records).registry.entries
              ==> ReplayAll(v, c, now, records).registry.entries[id].fingerprint == fp
  {
    if records != [] { ReplaysOneChannel(v, c, now, records[..|records| - 1], fp); }
  }

  lemma PairCarries(v: Vault, c: Codec, fp: string, t: nat, p: Split)
    requires v.Lawful() && c.Lawful() && v.genuine(p)
    ensures var pair := Pair(c, fp, t, p);
            && |pair| == 2 && Holds(v, c, pair[0], p.digest) && Carries(c, pair[1], p) && OfChannel(pair, fp)
            && pair[1].retentionUntil == Some(p.stripped.expiresAt)
  {
    assert v.Whole(p);
    BundleRecord(v, c, 0, t, p.bundle);
    SplitRecord(c, 1, t, fp, p.stripped.expiresAt, p);
  }

  /** Both sessions come back: valid, under the same channel. */
  lemma BothLoaded(v: Vault, c: Codec, fp: string, t: nat, p: Split, p': Split, now: nat)
    requires v.Lawful() && c.Lawful() && Ready(v, p, now) && Ready(v, p', now)
    ensures var r := ReplayAll(v, c, now, Pair(c, fp, t, p) + Pair(c, fp, t, p')).registry;
            LoadedAs(r, fp, p) && LoadedAs(r, fp, p')
  {
    var all := Pair(c, fp, t, p) + Pair(c, fp, t, p');
    PairCarries(v, c, fp, t, p);
    PairCarries(v, c, fp, t, p');
    ReplayRebuilds(v, c, now, all, 0, 1, p);
    ReplayRebuilds(v, c, now, all, 2, 3, p');
    ReplaysOneChannel(v, c, now, all, fp);
  }

  ghost predicate LoadedAs(r: Registry, fp: string, p: Split) {
    && p.id in r.entries && r.entries[p.id].fingerprint == fp && r.entries[p.id].stripped == p.stripped
    && p.stripped.expiresAt <= r.entries[p.id].retentionUntil
  }

  lemma BothUsable(v: Vault, c: Codec, file: seq<byte>, loaded: nat, compacted: nat, digests: seq<string>,
                   ids: seq<string>, tokens: nat, fp: string, p: Split, p': Split)
    requires Listing(Reopened(v, c, file, loaded).Evict(compacted, {}), digests, ids) && p.id != p'.id
    requires var r := ReplayAll(v, c, loaded, Records(c, file)).registry; LoadedAs(r, fp, p) && LoadedAs(r, fp, p')
    requires Max(loaded, compacted) < p.stripped.expiresAt && Max(loaded, compacted) < p'.stripped.expiresAt
    ensures TwoUsable(Startup(v, c, file, loaded, compacted, digests, ids, tokens), p.id, p'.id)
  {
    var o := Reopened(v, c, file, loaded);
    EvictKeepsValid(o, compacted, {}, p.id);
    EvictKeepsValid(o, compacted, {}, p'.id);
  }

  /**
    An append that fails with its record out, and a second one: the file then
    brings up a store with two valid sessions of one channel, and its records
    repeat their numbers. So that failure is what `Lifetimes.OneSessionForLife`
    and `StoreRuns.NumbersAreConsecutive` have to leave out.
   */
  lemma FailedWriteLeavesTwo(v: Vault, c: Codec, fp: string, p: Split, p': Split, t: nat, k: nat)
    returns (first: seq<Action>, second: seq<Action>)
    requires v.Lawful() && c.Lawful() && Ready(v, p, t) && Ready(v, p', t) && p.id != p'.id
    requires NearlyAll(k, Text(c, Pair(c, fp, t, p)))
    ensures Listing(Reopened(v, c, [], t).Evict(t, {}), [], [])
    ensures var start := Startup(v, c, [], t, t, [], [], 0);
            Runs(v, c, start, first) && Runs(v, c, After(v, c, start, first), second)
    ensures var w := After(v, c, After(v, c, Startup(v, c, [], t, t, [], [], 0), first), second);
            && w.registry.entries.Keys == {p'.id}
            && (exists i, j :: 0 <= i < j < |Records(c, w.file)| && Records(c, w.file)[i].seqNo == Records(c, w.file)[j].seqNo)
            && forall loaded: nat, compacted: nat, digests: seq<string>, ids: seq<string>, tokens: nat ::
                 Max(loaded, compacted) < p.stripped.expiresAt && Max(loaded, compacted) < p'.stripped.expiresAt
                 && Listing(Reopened(v, c, w.file, loaded).Evict(compacted, {}), digests, ids)
                 ==> TwoUsable(Startup(v, c, w.file, loaded, compacted, digests, ids, tokens), p.id, p'.id)
  {
    StartsEmpty(v, c, t);
    var start := Startup(v, c, [], t, t, [], [], 0);
    first := FirstCall(v, c, fp, p, t, k);
    var w1 := After(v, c, start, first);
    second := SecondCall(v, c, w1, fp, p');
    var w := After(v, c, w1, second);
    TwoPairsRead(c, w.file, Pair(c, fp, t, p), Pair(c, fp, t, p'), k);
    assert Records(c, w.file)[0].seqNo == Records(c, w.file)[2].seqNo;
    forall loaded: nat, compacted: nat, digests: seq<string>, ids: seq<string>, tokens: nat
      | Max(loaded, compacted) < p.stripped.expiresAt && Max(loaded, compacted) < p'.stripped.expiresAt
        && Listing(Reopened(v, c, w.file, loaded).Evict(compacted, {}), digests, ids)
      ensures TwoUsable(Startup(v, c, w.file, loaded, compacted, digests, ids, tokens), p.id, p'.id)
    {
      BothLoaded(v, c, fp, t, p, p', loaded);
      BothUsable(v, c, w.file, loaded, compacted, digests, ids, tokens, fp, p, p');
    }
  }

  lemma TwoPairsRead(c: Codec, file: seq<byte>, a: seq<Record>, b: seq<Record>, k: nat)
    requires c.Lawful() && a != [] && NearlyAll(k, Text(c, a)) && file == Text(c, a)[..k] + ([LF] + Text(c, b))
    ensures Records(c, file) == a + b
  {
    NearlyAllReads(c, a, k);
    RecordsOfText(c, b);
    RecordsAcrossNewline(c, Text(c, a)[..k], Text(c, b));
    ConcatAssoc(Text(c, a)[..k], [LF], Text(c, b));
  }
}

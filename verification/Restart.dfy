/**
  Compaction followed by reopening (src/aggregator/session_store.rs) is
  invisible: the store after a restart answers every later call as the store
  before it would have.
 */
module Restart {
  import opened Foundation
  import opened Session
  import opened Vault
  import opened Registry
  import opened SessionLog
  import opened StoreRuns
  import Store = SessionStore

  // ---------- histories ----------

  /**
    One call, with what each of two stores under comparison knows privately: the
    tokens held by leases and the token it would allocate. `held(false)` and
    `token(false)` are the first store's.
   */
  datatype Op =
    | Get(id: string, now: nat, held: bool -> set<nat>)
    | Acquire(fingerprint: string, retentionUntil: nat, now: nat, p: Split, held: bool -> set<nat>, token: bool -> nat)
    | AcquireFails(fingerprint: string, retentionUntil: nat, now: nat, held: bool -> set<nat>) // in sealing or writing
    | Prolong(id: string, deadline: nat)
    | CompactFails(now: nat, held: bool -> set<nat>)
    | Relaunch(compactedAt: nat, held: bool -> set<nat>, digests: seq<string>, ids: seq<string>, reopenedAt: nat)

  /** What a caller learns from a call. */
  datatype Answer = Served(session: Option<Session>) | Reused(id: string) | Sealed(id: string) | Failed | Silent

  /** The file a compaction leaves. */
  function CompactedFile(c: Codec, ts: nat, r: Registry, digests: seq<string>, ids: seq<string>): seq<byte> {
    if (forall d :: d in digests ==> d in r.stored) && (forall id :: id in ids ==> id in r.entries)
    then Text(c, CompactRecords(c, ts, r, digests, ids)) else []
  }

  function Until(op: Op): nat
    requires op.Acquire?
  {
    Max(op.retentionUntil, op.p.stripped.expiresAt)
  }

  function AfterSeal(e: Registry, op: Op, side: bool): Registry
    requires op.Acquire?
  {
    Store.Published(e, op.fingerprint, op.p, Until(op), op.token(side), op.now, op.held(side)).0
  }

  /** What `current_or_seal` leaves and answers, once lapsed sessions are out. */
  function Acquired(e: Registry, op: Op, side: bool): (Registry, Answer)
    requires op.Acquire?
  {
    match e.Usable(op.fingerprint, op.now)
    case Some(id) => (e.Prolong(id, op.retentionUntil), Reused(id))
    case None => (AfterSeal(e, op, side), Sealed(op.p.id))
  }

  /** What it leaves and answers if no session can be sealed and written. A hit needs neither. */
  function NotAcquired(e: Registry, op: Op): (Registry, Answer)
    requires op.AcquireFails?
  {
    match e.Usable(op.fingerprint, op.now)
    case Some(id) => (e.Prolong(id, op.retentionUntil), Reused(id))
    case None => (e, Failed)
  }

  /** This is what the durable store's own call leaves, whenever that call succeeds. */
  lemma CallIsStep(c: Codec, e: Registry, log: Store.Log, op: Op, side: bool, torn: Option<nat>)
    requires op.Acquire?
    ensures var out := Store.Acquired(c, e, log, op.token(side), op.fingerprint, op.retentionUntil, op.now,
                                      op.held(side), Some(op.p), torn);
            out.lease.Some? ==>
              && out.registry == Acquired(e, op, side).0
              && Acquired(e, op, side).1 == (if e.Usable(op.fingerprint, op.now).Some? then Reused(out.lease.value.id)
                                             else Sealed(out.lease.value.id))
  {
  }

  /** And this when it fails: the file may have changed, the index has not. */
  lemma FailedCallIsStep(c: Codec, e: Registry, log: Store.Log, tokens: nat, op: Op, side: bool, seal: Option<Split>,
                         torn: Option<nat>)
    requires op.AcquireFails?
    ensures var out := Store.Acquired(c, e, log, tokens, op.fingerprint, op.retentionUntil, op.now, op.held(side), seal, torn);
            && (out.lease.None? ==> (out.registry, Failed) == NotAcquired(e, op))
            && (seal.None? && out.lease.Some? ==> (out.registry, Reused(out.lease.value.id)) == NotAcquired(e, op))
  {
  }

  /** On the first store a relaunch only compacts; the second also closes and reopens its file. */
  function Step(v: Vault, c: Codec, r: Registry, op: Op, side: bool): (Registry, Answer) {
    match op
    case Get(id, now, held) =>
      var e := r.Evict(now, held(side));
      (e, Served(e.Rebuild(v, id)))
    case Acquire(_, _, now, _, held, _) => Acquired(r.Evict(now, held(side)), op, side)
    case AcquireFails(_, _, now, held) => NotAcquired(r.Evict(now, held(side)), op)
    case Prolong(id, deadline) =>
      (if id in r.entries then r.Prolong(id, deadline) else r, Silent)
    case CompactFails(now, held) => (r.Evict(now, held(side)), Failed)
    case Relaunch(t, held, digests, ids, reopenedAt) =>
      var e := r.Evict(t, held(side));
      (if side then Reopened(v, c, CompactedFile(c, t, e, digests, ids), reopenedAt) else e.MarkAllPersisted(), Silent)
  }

  /** A lookup answers exactly the sessions retained or held, each with what is stored of it, as the durable store does. */
  lemma GetIsStep(v: Vault, c: Codec, r: Registry, op: Op, side: bool)
    requires v.Lawful() && r.Sound(v) && op.Get?
    ensures var answer := Step(v, c, r, op, side).1;
            && answer.Served?
            && (answer.session.Some? <==>
                  op.id in r.entries && (op.now < r.entries[op.id].retentionUntil || r.entries[op.id].token in op.held(side)))
            && (answer.session.Some? ==> answer.session == r.Rebuild(v, op.id) && answer.session.value.id == op.id)
  {
    var e := r.Evict(op.now, op.held(side));
    if op.id in r.entries {
      GoneExactlyWhen(r, op.id, op.now, op.held(side));
      EntryWhole(v, r, op.id);
    }
    WithoutSound(v, r, r.Lapsed(op.now, op.held(side)));
    WithoutWithin(r, r.Lapsed(op.now, op.held(side)));
    RebuildTotal(v, e, op.id);
  }

  lemma ProlongIsStep(v: Vault, c: Codec, r: Registry, op: Op, side: bool)
    requires op.Prolong?
    ensures var r' := Step(v, c, r, op, side).0;
            if op.id in r.entries then RetainedTo(r, r', op.id, op.deadline) else r' == r
  {
    if op.id in r.entries { ProlongRetains(r, op.id, op.deadline); }
  }

  function TimeOf(op: Op, now: nat): nat {
    match op
    case Get(_, t, _) => t
    case Acquire(_, _, t, _, _, _) => t
    case AcquireFails(_, _, t, _) => t
    case Prolong(_, _) => now
    case CompactFails(t, _) => t
    case Relaunch(_, _, _, _, t) => t
  }

  /**
    Calls as the gateway makes them: time does not run backwards, a session is
    sealed at the caller's `now`, and an id belongs to one channel.
   */
  ghost predicate Proper(v: Vault, channel: string -> string, r: Registry, now: nat, op: Op, side: bool) {
    && now <= TimeOf(op, now)
    && match op
       case Get(_, _, _) => true
       case Acquire(fingerprint, _, t, p, _, _) =>
         && v.genuine(p) && Replayable(p.contentType) && channel(p.id) == fingerprint
         && p.stripped.establishedAt == t < p.stripped.expiresAt
       case AcquireFails(_, _, _, _) => true
       case Prolong(id, _) => id in r.entries && now < r.entries[id].retentionUntil
       case CompactFails(_, _) => true
       case Relaunch(t, held, digests, ids, reopenedAt) =>
         var e := r.Evict(t, held(side));
         now <= t <= reopenedAt && (side ==> Listing(e, digests, ids) && Chronological(e, ids))
  }

  /** The durable store lists sessions so. */
  lemma SortedIsChronological(r: Registry, ids: seq<string>)
    requires Store.Sorted(r.entries, ids)
    ensures Chronological(r, ids)
  {
  }

  lemma RebootIs(v: Vault, c: Codec, r: Registry, op: Op, file: seq<byte>)
    requires op.Relaunch? && op.compactedAt <= op.reopenedAt
    requires var e := r.Evict(op.compactedAt, op.held(true));
             && Enumerates(op.digests, e.stored.Keys) && Enumerates(op.ids, e.entries.Keys) && Store.Sorted(e.entries, op.ids)
             && file == Text(c, CompactRecords(c, op.compactedAt, e, op.digests, op.ids))
    ensures Reopened(v, c, file, op.reopenedAt) == Step(v, c, r, op, true).0
    ensures |op.digests| + |op.ids| <= U64_MAX ==>
              forall channel: string -> string :: Proper(v, channel, r, op.compactedAt, op, true)
  {
    SortedIsChronological(r.Evict(op.compactedAt, op.held(true)), op.ids);
  }

  /** The durable store compacted, and opened again on its file: a relaunch, and a proper one. */
  method Reboot(store: Store.JsonlSessionStore, t: nat, held: set<nat>, later: nat)
    returns (next: Store.JsonlSessionStore, ghost op: Op)
    requires store.Valid() && store.vault.Lawful() && store.codec.Lawful() && t <= later
    modifies store`file, store`nextSeq, store`needsSeparator, store.index
    ensures next.Valid() && next.vault == store.vault && next.codec == store.codec
    ensures op.Relaunch? && op.compactedAt == t && op.held(true) == held && op.reopenedAt == later
    ensures next.View() == Step(store.vault, store.codec, old(store.View()), op, true).0
    ensures store.nextSeq <= U64_MAX ==>
              forall channel: string -> string :: Proper(store.vault, channel, old(store.View()), t, op, true)
  {
    ghost var r := store.View();
    var kept, digests, ids := store.Compact(t, held, false);
    op := Relaunch(t, _ => held, digests, ids, later);
    RebootIs(store.vault, store.codec, r, op, store.file);
    next := new Store.JsonlSessionStore(store.vault, store.codec, store.file, later);
  }

  // ---------- what proper histories keep ----------

  ghost predicate EntryProper(channel: string -> string, r: Registry, id: string)
    requires id in r.entries
  {
    var e := r.entries[id];
    Replayable(e.contentType) && e.fingerprint == channel(id) && e.stripped.establishedAt < e.stripped.expiresAt
  }

  /** The session a channel maps to is the newest of the channel's. */
  ghost predicate Newest(r: Registry) {
    forall fp, id :: fp in r.current && r.current[fp] in r.entries && id in r.entries && r.entries[id].fingerprint == fp
                     ==> r.entries[id].stripped.establishedAt <= r.entries[r.current[fp]].stripped.establishedAt
  }

  /** No two sessions of one channel were established at the same time. */
  ghost predicate Spaced(r: Registry) {
    forall a, b :: a in r.entries && b in r.entries && a != b && r.entries[a].fingerprint == r.entries[b].fingerprint
                   ==> r.entries[a].stripped.establishedAt != r.entries[b].stripped.establishedAt
  }

  /** What proper histories keep of the maps alone. */
  ghost predicate Orderly(channel: string -> string, r: Registry, now: nat) {
    && Covered(r) && Mapped(r, now) && Newest(r) && Spaced(r)
    && (forall id :: id in r.entries ==> EntryProper(channel, r, id))
    && (forall fp :: fp in r.current ==> channel(r.current[fp]) == fp)
  }

  ghost predicate Disciplined(v: Vault, channel: string -> string, r: Registry, now: nat) {
    r.Sound(v) && Orderly(channel, r, now)
  }

  lemma LaterDisciplined(v: Vault, channel: string -> string, r: Registry, now: nat, later: nat)
    requires Disciplined(v, channel, r, now) && now <= later
    ensures Disciplined(v, channel, r, later)
  {
  }

  lemma EvictOrderly(channel: string -> string, r: Registry, now: nat, held: set<nat>)
    requires Orderly(channel, r, now)
    ensures Orderly(channel, r.Evict(now, held), now)
  {
    var e := r.Evict(now, held);
    EvictMapped(r, now, held, now);
    forall id | id in e.entries
      ensures EntryProper(channel, e, id)
    {
      assert EntryProper(channel, r, id);
    }
  }

  lemma EvictDisciplined(v: Vault, channel: string -> string, r: Registry, now: nat, held: set<nat>)
    requires Disciplined(v, channel, r, now)
    ensures Disciplined(v, channel, r.Evict(now, held), now)
  {
    WithoutSound(v, r, r.Lapsed(now, held));
    EvictOrderly(channel, r, now, held);
  }

  lemma ProlongNewest(r: Registry, id: string, deadline: nat)
    requires Newest(r) && Spaced(r) && id in r.entries
    ensures Newest(r.Prolong(id, deadline)) && Spaced(r.Prolong(id, deadline))
  {
    var r' := r.Prolong(id, deadline);
    assert forall i :: i in r.entries ==> r'.entries[i].stripped == r.entries[i].stripped
                                          && r'.entries[i].fingerprint == r.entries[i].fingerprint;
  }

  lemma ProlongProper(channel: string -> string, r: Registry, id: string, deadline: nat)
    requires id in r.entries && forall i :: i in r.entries ==> EntryProper(channel, r, i)
    ensures forall i :: i in r.entries ==> EntryProper(channel, r.Prolong(id, deadline), i)
  {
    var r' := r.Prolong(id, deadline);
    forall i | i in r.entries
      ensures EntryProper(channel, r', i)
    {
      assert EntryProper(channel, r, i);
    }
  }

  lemma ProlongDisciplined(v: Vault, channel: string -> string, r: Registry, now: nat, id: string, deadline: nat)
    requires Disciplined(v, channel, r, now) && id in r.entries
    ensures Disciplined(v, channel, r.Prolong(id, deadline), now)
  {
    ProlongSound(v, r, id, deadline);
    ProlongMapped(r, id, deadline, now);
    ProlongNewest(r, id, deadline);
    ProlongProper(channel, r, id, deadline);
  }

  lemma MarkOrderly(channel: string -> string, r: Registry, now: nat, digest: string)
    requires Orderly(channel, r, now)
    ensures Orderly(channel, r.MarkPersisted(digest), now)
    ensures Orderly(channel, r.MarkAllPersisted(), now)
  {
    var a, b := r.MarkPersisted(digest), r.MarkAllPersisted();
    forall id | id in r.entries
      ensures EntryProper(channel, a, id) && EntryProper(channel, b, id)
    {
      assert EntryProper(channel, r, id);
    }
  }

  lemma MarkDisciplined(v: Vault, channel: string -> string, r: Registry, now: nat, digest: string)
    requires Disciplined(v, channel, r, now)
    ensures Disciplined(v, channel, r.MarkPersisted(digest), now)
    ensures Disciplined(v, channel, r.MarkAllPersisted(), now)
  {
    MarkSound(v, r, digest);
    MarkOrderly(channel, r, now, digest);
  }

  // A miss: nothing of the channel is valid, and the sealed session is not stored already.
  lemma MissIsFresh(v: Vault, channel: string -> string, r: Registry, now: nat, p: Split)
    requires v.Lawful() && Disciplined(v, channel, r, now) && v.genuine(p) && now < p.stripped.expiresAt
    requires r.Usable(channel(p.id), now).None?
    ensures Vacant(r, channel(p.id), now) && p.id !in r.entries
  {
    InsertAgrees(v, r, p);
    forall id | id in r.entries
      ensures r.entries[id].fingerprint == channel(id)
    {
      assert EntryProper(channel, r, id);
    }
  }

  lemma InsertNewest(channel: string -> string, r: Registry, now: nat, p: Split, retentionUntil: nat, token: nat)
    requires Newest(r) && Spaced(r)
    requires Vacant(r, channel(p.id), now) && p.id !in r.entries && p.stripped.establishedAt == now
    requires forall id :: id in r.entries ==> EntryProper(channel, r, id)
    requires forall fp :: fp in r.current ==> channel(r.current[fp]) == fp
    ensures var r' := r.Insert(channel(p.id), p, retentionUntil, token); Newest(r') && Spaced(r')
  {
    var r' := r.Insert(channel(p.id), p, retentionUntil, token);
    forall id | id in r.entries && r.entries[id].fingerprint == channel(p.id)
      ensures r.entries[id].stripped.establishedAt < now
    {
      assert EntryProper(channel, r, id);
    }
    forall fp, id | fp in r'.current && r'.current[fp] in r'.entries && id in r'.entries && r'.entries[id].fingerprint == fp
      ensures r'.entries[id].stripped.establishedAt <= r'.entries[r'.current[fp]].stripped.establishedAt
    {
      if fp != channel(p.id) { assert r'.current[fp] == r.current[fp] != p.id; }
    }
  }

  lemma InsertOrderly(channel: string -> string, r: Registry, now: nat, p: Split, retentionUntil: nat, token: nat)
    requires Orderly(channel, r, now) && Vacant(r, channel(p.id), now) && p.id !in r.entries
    requires Replayable(p.contentType) && p.stripped.establishedAt == now < p.stripped.expiresAt
    ensures Orderly(channel, r.Insert(channel(p.id), p, retentionUntil, token), now)
  {
    var r' := r.Insert(channel(p.id), p, retentionUntil, token);
    InsertMapped(r, channel(p.id), p, retentionUntil, token, now);
    InsertNewest(channel, r, now, p, retentionUntil, token);
    forall id | id in r'.entries
      ensures EntryProper(channel, r', id)
    {
      if id != p.id { assert EntryProper(channel, r, id); }
    }
  }

  lemma InsertDisciplined(v: Vault, channel: string -> string, r: Registry, now: nat, p: Split,
                          retentionUntil: nat, token: nat)
    requires v.Lawful() && Disciplined(v, channel, r, now) && v.genuine(p) && Replayable(p.contentType)
    requires p.stripped.establishedAt == now < p.stripped.expiresAt
    requires r.Usable(channel(p.id), now).None?
    ensures Disciplined(v, channel, r.Insert(channel(p.id), p, retentionUntil, token), now)
  {
    MissIsFresh(v, channel, r, now, p);
    InsertSound(v, r, channel(p.id), p, retentionUntil, token);
    InsertOrderly(channel, r, now, p, retentionUntil, token);
  }

  // ---------- stores no caller can tell apart ----------

  predicate Live(r: Registry, id: string, now: nat) {
    id in r.entries && now < r.entries[id].retentionUntil
  }

  ghost predicate SameEntry(a: Entry, b: Entry) {
    a.stripped == b.stripped && a.contentType == b.contentType && a.fingerprint == b.fingerprint
    && a.retentionUntil == b.retentionUntil
  }

  /** The two stores retain the same sessions past `now`. */
  ghost predicate Alike(r: Registry, r': Registry, now: nat) {
    forall id :: (Live(r, id, now) <==> Live(r', id, now))
                 && (Live(r, id, now) ==> SameEntry(r.entries[id], r'.entries[id]))
  }

  lemma AlikeLater(r: Registry, r': Registry, now: nat, later: nat)
    requires Alike(r, r', now) && now <= later
    ensures Alike(r, r', later)
  {
    forall id
      ensures (Live(r, id, later) <==> Live(r', id, later)) && (Live(r, id, later) ==> SameEntry(r.entries[id], r'.entries[id]))
    {
      assert Live(r, id, later) ==> Live(r, id, now);
      assert Live(r', id, later) ==> Live(r', id, now);
    }
  }

  /** A channel's usable session is the one retained session of the channel that is still valid. */
  lemma UsableIs(channel: string -> string, r: Registry, now: nat, fp: string, id: string)
    requires Orderly(channel, r, now)
    ensures r.Usable(fp, now) == Some(id)
            <==> Live(r, id, now) && r.entries[id].fingerprint == fp && now < r.entries[id].stripped.expiresAt
  {
    forall i | i in r.entries
      ensures r.entries[i].fingerprint == channel(i)
    {
      assert EntryProper(channel, r, i);
    }
  }

  lemma UsableAlike(channel: string -> string, r: Registry, r': Registry, now: nat, fp: string)
    requires Orderly(channel, r, now) && Orderly(channel, r', now) && Alike(r, r', now)
    ensures r.Usable(fp, now) == r'.Usable(fp, now)
  {
    if r.Usable(fp, now).Some? {
      UsableIs(channel, r, now, fp, r.Usable(fp, now).value);
      UsableIs(channel, r', now, fp, r.Usable(fp, now).value);
    }
    if r'.Usable(fp, now).Some? {
      UsableIs(channel, r, now, fp, r'.Usable(fp, now).value);
      UsableIs(channel, r', now, fp, r'.Usable(fp, now).value);
    }
  }

  lemma EvictLive(r: Registry, now: nat, held: set<nat>)
    ensures var e := r.Evict(now, held); Alike(r, e, now)
  {
  }

  lemma AlikeTrans(a: Registry, b: Registry, d: Registry, now: nat)
    requires Alike(a, b, now) && Alike(b, d, now)
    ensures Alike(a, d, now)
  {
    forall id
      ensures (Live(a, id, now) <==> Live(d, id, now)) && (Live(a, id, now) ==> SameEntry(a.entries[id], d.entries[id]))
    {
      assert Live(a, id, now) <==> Live(b, id, now);
    }
  }

  lemma AlikeSym(a: Registry, b: Registry, now: nat)
    requires Alike(a, b, now)
    ensures Alike(b, a, now)
  {
    forall id
      ensures (Live(b, id, now) <==> Live(a, id, now)) && (Live(b, id, now) ==> SameEntry(b.entries[id], a.entries[id]))
    {
      assert Live(a, id, now) <==> Live(b, id, now);
    }
  }

  lemma EvictAlike(r: Registry, r': Registry, now: nat, held: set<nat>, held': set<nat>)
    requires Alike(r, r', now)
    ensures Alike(r.Evict(now, held), r'.Evict(now, held'), now)
  {
    EvictLive(r, now, held);
    EvictLive(r', now, held');
    AlikeSym(r, r.Evict(now, held), now);
    AlikeTrans(r.Evict(now, held), r, r', now);
    AlikeTrans(r.Evict(now, held), r', r'.Evict(now, held'), now);
  }

  lemma ProlongAlike(r: Registry, r': Registry, now: nat, id: string, deadline: nat)
    requires Alike(r, r', now) && Live(r, id, now)
    ensures id in r'.entries && Alike(r.Prolong(id, deadline), r'.Prolong(id, deadline), now)
  {
    assert Live(r', id, now);
    var p, p' := r.Prolong(id, deadline), r'.Prolong(id, deadline);
    forall i
      ensures (Live(p, i, now) <==> Live(p', i, now)) && (Live(p, i, now) ==> SameEntry(p.entries[i], p'.entries[i]))
    {
      assert Live(r, i, now) <==> Live(r', i, now);
    }
  }

  lemma InsertAlike(r: Registry, r': Registry, now: nat, fp: string, p: Split, until: nat, token: nat, token': nat)
    requires Alike(r, r', now) && p.id !in r.entries && p.id !in r'.entries
    ensures Alike(r.Insert(fp, p, until, token), r'.Insert(fp, p, until, token'), now)
  {
    var q, q' := r.Insert(fp, p, until, token), r'.Insert(fp, p, until, token');
    forall i
      ensures (Live(q, i, now) <==> Live(q', i, now)) && (Live(q, i, now) ==> SameEntry(q.entries[i], q'.entries[i]))
    {
      assert Live(r, i, now) <==> Live(r', i, now);
    }
  }

  lemma MarkAlike(r: Registry, digest: string, now: nat)
    ensures Alike(r, r.MarkPersisted(digest), now) && Alike(r, r.MarkAllPersisted(), now)
  {
  }

  lemma RebuildAlike(v: Vault, r: Registry, r': Registry, now: nat, id: string)
    requires v.Lawful() && r.Sound(v) && r'.Sound(v) && Alike(r, r', now) && Live(r, id, now)
    ensures r.Rebuild(v, id) == r'.Rebuild(v, id)
  {
    assert Live(r', id, now);
    EntryWhole(v, r, id);
    ServesGenuine(v, r, r.SplitAt(id));
    ServesGenuine(v, r', r.SplitAt(id));
  }

  // ---------- the bisimulation ----------

  ghost predicate Twins(v: Vault, channel: string -> string, r: Registry, r': Registry, now: nat) {
    Disciplined(v, channel, r, now) && Disciplined(v, channel, r', now) && Alike(r, r', now)
  }

  /** The session asked for is past its deadline in the store and there only because a lease keeps it. */
  predicate KeptByLease(r: Registry, op: Op, side: bool) {
    op.Get? && op.id in r.entries && r.entries[op.id].retentionUntil <= op.now && r.entries[op.id].token in op.held(side)
  }

  lemma SameRebuild(v: Vault, e: Registry, e': Registry, now: nat, id: string)
    requires v.Lawful() && e.Sound(v) && e'.Sound(v) && Alike(e, e', now)
    requires (id in e.entries ==> Live(e, id, now)) && (id in e'.entries ==> Live(e', id, now))
    ensures e.Rebuild(v, id) == e'.Rebuild(v, id)
  {
    RebuildTotal(v, e, id);
    RebuildTotal(v, e', id);
    assert Live(e, id, now) <==> Live(e', id, now);
    if Live(e, id, now) { RebuildAlike(v, e, e', now, id); }
  }

  lemma EvictedIsLive(r: Registry, op: Op, side: bool)
    requires op.Get? && !KeptByLease(r, op, side)
    ensures op.id in r.Evict(op.now, op.held(side)).entries ==> Live(r.Evict(op.now, op.held(side)), op.id, op.now)
  {
  }

  lemma GetAgrees(v: Vault, c: Codec, r: Registry, r': Registry, op: Op)
    requires v.Lawful() && op.Get? && r.Sound(v) && r'.Sound(v) && Alike(r, r', op.now)
    requires !KeptByLease(r, op, false) && !KeptByLease(r', op, true)
    ensures Step(v, c, r, op, false).1 == Step(v, c, r', op, true).1
  {
    EvictAlike(r, r', op.now, op.held(false), op.held(true));
    WithoutSound(v, r, r.Lapsed(op.now, op.held(false)));
    WithoutSound(v, r', r'.Lapsed(op.now, op.held(true)));
    EvictedIsLive(r, op, false);
    EvictedIsLive(r', op, true);
    SameRebuild(v, r.Evict(op.now, op.held(false)), r'.Evict(op.now, op.held(true)), op.now, op.id);
  }

  lemma SealedAlike(v: Vault, channel: string -> string, e: Registry, e': Registry, op: Op)
    requires v.Lawful() && op.Acquire? && Twins(v, channel, e, e', op.now) && Proper(v, channel, e, op.now, op, false)
    requires e.Usable(op.fingerprint, op.now).None? && e'.Usable(op.fingerprint, op.now).None?
    ensures Alike(AfterSeal(e, op, false), AfterSeal(e', op, true), op.now)
  {
    var Acquire(fp, _, now, p, held, token) := op;
    MissIsFresh(v, channel, e, now, p);
    MissIsFresh(v, channel, e', now, p);
    InsertAlike(e, e', now, fp, p, Until(op), token(false), token(true));
    AfterSealIs(e, op, false);
    AfterSealIs(e', op, true);
    MarkedAndEvictedAlike(e.Insert(fp, p, Until(op), token(false)), e'.Insert(fp, p, Until(op), token(true)), now, p.digest,
                          held(false) + {token(false)}, held(true) + {token(true)});
  }

  lemma AcquiredAlike(v: Vault, channel: string -> string, e: Registry, e': Registry, op: Op)
    requires v.Lawful() && op.Acquire? && Twins(v, channel, e, e', op.now) && Proper(v, channel, e, op.now, op, false)
    ensures Acquired(e, op, false).1 == Acquired(e', op, true).1
    ensures Alike(Acquired(e, op, false).0, Acquired(e', op, true).0, op.now)
  {
    var hit := e.Usable(op.fingerprint, op.now);
    UsableAlike(channel, e, e', op.now, op.fingerprint);
    if hit.Some? {
      UsableIs(channel, e, op.now, op.fingerprint, hit.value);
      ProlongAlike(e, e', op.now, hit.value, op.retentionUntil);
    } else {
      SealedAlike(v, channel, e, e', op);
    }
  }

  lemma AcquireAgrees(v: Vault, c: Codec, channel: string -> string, r: Registry, r': Registry, op: Op)
    requires v.Lawful() && op.Acquire? && Twins(v, channel, r, r', op.now) && Proper(v, channel, r, op.now, op, false)
    ensures Step(v, c, r, op, false).1 == Step(v, c, r', op, true).1
    ensures Alike(Step(v, c, r, op, false).0, Step(v, c, r', op, true).0, op.now)
  {
    var now, held := op.now, op.held;
    EvictAlike(r, r', now, held(false), held(true));
    EvictDisciplined(v, channel, r, now, held(false));
    EvictDisciplined(v, channel, r', now, held(true));
    AcquiredAlike(v, channel, r.Evict(now, held(false)), r'.Evict(now, held(true)), op);
  }

  lemma NotAcquiredAlike(channel: string -> string, e: Registry, e': Registry, op: Op)
    requires op.AcquireFails? && Orderly(channel, e, op.now) && Orderly(channel, e', op.now) && Alike(e, e', op.now)
    ensures NotAcquired(e, op).1 == NotAcquired(e', op).1
    ensures Alike(NotAcquired(e, op).0, NotAcquired(e', op).0, op.now)
  {
    var hit := e.Usable(op.fingerprint, op.now);
    UsableAlike(channel, e, e', op.now, op.fingerprint);
    if hit.Some? {
      UsableIs(channel, e, op.now, op.fingerprint, hit.value);
      ProlongAlike(e, e', op.now, hit.value, op.retentionUntil);
    }
  }

  lemma AcquireFailsAlike(v: Vault, c: Codec, channel: string -> string, r: Registry, r': Registry, op: Op)
    requires op.AcquireFails? && Twins(v, channel, r, r', op.now)
    ensures Step(v, c, r, op, false).1 == Step(v, c, r', op, true).1
    ensures Alike(Step(v, c, r, op, false).0, Step(v, c, r', op, true).0, op.now)
  {
    var now, held := op.now, op.held;
    EvictAlike(r, r', now, held(false), held(true));
    EvictOrderly(channel, r, now, held(false));
    EvictOrderly(channel, r', now, held(true));
    NotAcquiredAlike(channel, r.Evict(now, held(false)), r'.Evict(now, held(true)), op);
  }

  lemma MarkedAndEvictedAlike(i: Registry, i': Registry, now: nat, digest: string, held: set<nat>, held': set<nat>)
    requires Alike(i, i', now)
    ensures Alike(i.MarkPersisted(digest).Evict(now, held), i'.MarkPersisted(digest).Evict(now, held'), now)
  {
    var m, m' := i.MarkPersisted(digest), i'.MarkPersisted(digest);
    MarkAlike(i, digest, now);
    MarkAlike(i', digest, now);
    AlikeSym(i, m, now);
    AlikeTrans(m, i, i', now);
    AlikeTrans(m, i', m', now);
    EvictAlike(m, m', now, held, held');
  }

  lemma TwinsLater(v: Vault, channel: string -> string, r: Registry, r': Registry, now: nat, later: nat)
    requires Twins(v, channel, r, r', now) && now <= later
    ensures Twins(v, channel, r, r', later)
  {
    LaterDisciplined(v, channel, r, now, later);
    LaterDisciplined(v, channel, r', now, later);
    AlikeLater(r, r', now, later);
  }

  // ---------- replaying a compaction ----------

  /** `q` holds the sessions of `r` among `seen` whose retention is after `now`, each channel mapped to its newest. */
  ghost predicate Loaded(r: Registry, seen: set<string>, now: nat, q: Registry) {
    && (forall id :: id in q.entries <==> id in seen && Live(r, id, now))
    && (forall id :: id in q.entries ==> SameEntry(r.entries[id], q.entries[id]) && q.entries[id].fingerprint in q.current)
    && (forall fp :: fp in q.current ==> q.current[fp] in q.entries && q.entries[q.current[fp]].fingerprint == fp)
    && Newest(q)
  }

  lemma LoadedMore(r: Registry, seen: set<string>, p: Split, now: nat, q: Registry, token: nat)
    requires Loaded(r, seen, now, q) && p.id !in seen && Live(r, p.id, now)
    requires var e := r.entries[p.id];
             p.stripped == e.stripped && p.contentType == e.contentType && e.stripped.expiresAt <= e.retentionUntil
    requires forall i :: i in seen ==> i in r.entries && r.entries[i].stripped.establishedAt <= p.stripped.establishedAt
    ensures Loaded(r, seen + {p.id}, now, q.Insert(r.entries[p.id].fingerprint, p, r.entries[p.id].retentionUntil, token))
  {
    var e := r.entries[p.id];
    var q' := q.Insert(e.fingerprint, p, e.retentionUntil, token);
    assert p.id !in q.entries;
    InsertedNewest(r, seen, p, now, q, token);
    forall id | id in q'.entries
      ensures SameEntry(r.entries[id], q'.entries[id]) && q'.entries[id].fingerprint in q'.current
    {
    }
  }

  lemma InsertedNewest(r: Registry, seen: set<string>, p: Split, now: nat, q: Registry, token: nat)
    requires Loaded(r, seen, now, q) && p.id !in q.entries && p.id in r.entries
    requires forall i :: i in seen ==> i in r.entries && r.entries[i].stripped.establishedAt <= p.stripped.establishedAt
    ensures Newest(q.Insert(r.entries[p.id].fingerprint, p, r.entries[p.id].retentionUntil, token))
  {
    var q' := q.Insert(r.entries[p.id].fingerprint, p, r.entries[p.id].retentionUntil, token);
    forall fp, id | fp in q'.current && q'.current[fp] in q'.entries && id in q'.entries && q'.entries[id].fingerprint == fp
      ensures q'.entries[id].stripped.establishedAt <= q'.entries[q'.current[fp]].stripped.establishedAt
    {
      if id != p.id { assert SameEntry(r.entries[id], q.entries[id]); }
    }
  }

  function LoadOne(r: Registry, id: string, now: nat, loaded: (Registry, nat)): (Registry, nat)
    requires id in r.entries && r.entries[id].Digest() in r.stored
  {
    var e := r.entries[id];
    if e.retentionUntil <= now then loaded
    else (loaded.0.Insert(e.fingerprint, r.SplitAt(id), e.retentionUntil, loaded.1), loaded.1 + 1)
  }

  /** Inserting the retained sessions one by one, in the order listed; the second part counts them. */
  function Load(r: Registry, ids: seq<string>, now: nat, n: nat): (Registry, nat)
    requires n <= |ids| && AllBackedIn(r, ids)
  {
    if n == 0 then (Empty, 0) else LoadOne(r, ids[n - 1], now, Load(r, ids, now, n - 1))
  }

  lemma {:induction false} LoadLoads(r: Registry, ids: seq<string>, now: nat, n: nat)
    requires n <= |ids| && Covered(r) && AllBackedIn(r, ids)
    requires Chronological(r, ids) && forall i, j :: 0 <= i < j < |ids| ==> ids[i] != ids[j]
    ensures Loaded(r, Firsts(ids, n), now, Load(r, ids, now, n).0)
  {
    if n > 0 {
      var k := n - 1;
      LoadLoads(r, ids, now, k);
      FirstsMore(ids, k);
      var (q, token) := Load(r, ids, now, k);
      if Live(r, ids[k], now) {
        LoadedMore(r, Firsts(ids, k), r.SplitAt(ids[k]), now, q, token);
      }
    }
  }

  function Firsts(ids: seq<string>, n: nat): set<string>
    requires n <= |ids|
  {
    set k | 0 <= k < n :: ids[k]
  }

  lemma FirstsMore(ids: seq<string>, n: nat)
    requires n < |ids|
    ensures Firsts(ids, n + 1) == Firsts(ids, n) + {ids[n]}
  {
  }

  lemma {:induction false} BundlesOnly(v: Vault, c: Codec, now: nat, records: seq<Record>)
    requires forall i :: 0 <= i < |records| ==> records[i].kind == EVIDENCE
    ensures ReplayAll(v, c, now, records).registry == Empty && ReplayAll(v, c, now, records).tokens == 0
  {
    if records != [] {
      BundlesOnly(v, c, now, records[..|records| - 1]);
    }
  }

  lemma ReplaysSession(v: Vault, c: Codec, now: nat, st: Replayed, record: Record, p: Split)
    requires v.Lawful() && v.genuine(p) && Replayable(p.contentType) && Carries(c, record, p)
    requires ReplayInv(v, st) && p.digest in st.bundles
    ensures var st' := ReplayOne(v, c, now, st, record);
            if record.retentionUntil.value <= now then st'.registry == st.registry && st'.tokens == st.tokens
            else st'.registry == st.registry.Insert(record.fingerprint.value, p, record.retentionUntil.value, st.tokens)
                 && st'.tokens == st.tokens + 1
  {
    assert v.Whole(p);
    assert st.bundles[p.digest] == p.bundle;
    ReplaySessionExact(v, c, record, st.bundles, p);
  }

  lemma CompactBundles(c: Codec, ts: nat, r: Registry, digests: seq<string>, ids: seq<string>)
    requires Listing(r, digests, ids)
    ensures forall i :: 0 <= i < |digests| ==> CompactRecords(c, ts, r, digests, ids)[i].kind == EVIDENCE
  {
    forall i | 0 <= i < |digests|
      ensures CompactRecords(c, ts, r, digests, ids)[i].kind == EVIDENCE
    {
      CompactIsBundle(c, ts, r, digests, ids, i);
    }
  }

  lemma BundleLoaded(v: Vault, c: Codec, ts: nat, r: Registry, digests: seq<string>, ids: seq<string>, now: nat, k: nat)
    requires v.Lawful() && c.Lawful() && r.Sound(v) && Listing(r, digests, ids) && k < |ids|
    ensures r.entries[ids[k]].Digest() in ReplayAll(v, c, now, CompactRecords(c, ts, r, digests, ids)[..|digests| + k]).bundles
  {
    CompactSessionAt(v, c, ts, r, digests, ids, k);
    var records := CompactRecords(c, ts, r, digests, ids);
    var j := Place(digests, r.stored.Keys, r.entries[ids[k]].Digest());
    CompactBundleAt(v, c, ts, r, digests, ids, j);
    assert records[..|digests| + k][j] == records[j];
    BundleKnown(v, c, now, records[..|digests| + k], j, digests[j]);
  }

  lemma TakeOneMore(records: seq<Record>, n: nat)
    requires n < |records|
    ensures var more := records[..n + 1]; |more| - 1 == n && more[..n] == records[..n] && more[n] == records[n]
  {
  }

  lemma ReplayOneMore(v: Vault, c: Codec, now: nat, records: seq<Record>, n: nat)
    requires n < |records|
    ensures ReplayAll(v, c, now, records[..n + 1]) == ReplayOne(v, c, now, ReplayAll(v, c, now, records[..n]), records[n])
  {
    TakeOneMore(records, n);
  }

  /** What replay of the first `n` records leaves: the registry, and how many entries it made. */
  function Left(v: Vault, c: Codec, now: nat, records: seq<Record>, n: nat): (Registry, nat)
    requires n <= |records|
  {
    var st := ReplayAll(v, c, now, records[..n]);
    (st.registry, st.tokens)
  }

  lemma SessionStep(v: Vault, c: Codec, now: nat, records: seq<Record>, n: nat, p: Split)
    requires v.Lawful() && n < |records| && v.genuine(p) && Replayable(p.contentType) && Carries(c, records[n], p)
    requires p.digest in ReplayAll(v, c, now, records[..n]).bundles
    ensures var until, before := records[n].retentionUntil.value, Left(v, c, now, records, n);
            Left(v, c, now, records, n + 1)
            == if until <= now then before
               else (before.0.Insert(records[n].fingerprint.value, p, until, before.1), before.1 + 1)
  {
    ReplayKeeps(v, c, now, records[..n]);
    ReplaysSession(v, c, now, ReplayAll(v, c, now, records[..n]), records[n], p);
    ReplayOneMore(v, c, now, records, n);
  }

  lemma AllBacked(v: Vault, r: Registry, digests: seq<string>, ids: seq<string>)
    requires v.Lawful() && r.Sound(v) && Listing(r, digests, ids)
    ensures Covered(r) && AllBackedIn(r, ids)
  {
    forall id | id in r.entries
      ensures r.entries[id].Digest() in r.stored && r.entries[id].stripped.expiresAt <= r.entries[id].retentionUntil
    {
      EntryWhole(v, r, id);
    }
  }

  ghost predicate AllBackedIn(r: Registry, ids: seq<string>) {
    forall id :: id in ids ==> id in r.entries && r.entries[id].Digest() in r.stored
  }

  lemma CompactStart(v: Vault, c: Codec, ts: nat, r: Registry, digests: seq<string>, ids: seq<string>, now: nat)
    requires Listing(r, digests, ids)
    ensures Left(v, c, now, CompactRecords(c, ts, r, digests, ids), |digests|) == (Empty, 0)
  {
    CompactBundles(c, ts, r, digests, ids);
    BundlesOnly(v, c, now, CompactRecords(c, ts, r, digests, ids)[..|digests|]);
  }

  lemma StepFrom(v: Vault, c: Codec, r: Registry, now: nat, records: seq<Record>, n: nat, id: string)
    requires v.Lawful() && r.Sound(v) && id in r.entries && Replayable(r.entries[id].contentType) && n < |records|
    requires r.entries[id].Digest() in r.stored && Carries(c, records[n], r.SplitAt(id))
    requires records[n].fingerprint == Some(r.entries[id].fingerprint)
    requires records[n].retentionUntil == Some(r.entries[id].retentionUntil)
    requires r.entries[id].Digest() in ReplayAll(v, c, now, records[..n]).bundles
    ensures Left(v, c, now, records, n + 1) == LoadOne(r, id, now, Left(v, c, now, records, n))
  {
    EntryWhole(v, r, id);
    SessionStep(v, c, now, records, n, r.SplitAt(id));
  }

  lemma CompactStep(v: Vault, c: Codec, ts: nat, r: Registry, digests: seq<string>, ids: seq<string>, now: nat, k: nat)
    requires v.Lawful() && c.Lawful() && r.Sound(v) && AllReplayable(r) && Listing(r, digests, ids) && k < |ids|
    ensures r.entries[ids[k]].Digest() in r.stored
    ensures var records := CompactRecords(c, ts, r, digests, ids);
            Left(v, c, now, records, |digests| + k + 1) == LoadOne(r, ids[k], now, Left(v, c, now, records, |digests| + k))
  {
    CompactSessionAt(v, c, ts, r, digests, ids, k);
    BundleLoaded(v, c, ts, r, digests, ids, now, k);
    StepFrom(v, c, r, now, CompactRecords(c, ts, r, digests, ids), |digests| + k, ids[k]);
  }

  /** Reading session record `k` loads that session. */
  ghost predicate Advances(v: Vault, c: Codec, now: nat, records: seq<Record>, base: nat, r: Registry,
                           ids: seq<string>, k: nat) {
    k < |ids| && base + |ids| == |records| && ids[k] in r.entries && r.entries[ids[k]].Digest() in r.stored
    && Left(v, c, now, records, base + k + 1) == LoadOne(r, ids[k], now, Left(v, c, now, records, base + k))
  }

  ghost predicate AllAdvance(v: Vault, c: Codec, now: nat, records: seq<Record>, base: nat, r: Registry,
                             ids: seq<string>) {
    forall k: nat :: k < |ids| ==> Advances(v, c, now, records, base, r, ids, k)
  }

  lemma {:induction false} AdvancesLoad(v: Vault, c: Codec, now: nat, records: seq<Record>, base: nat, r: Registry,
                                        ids: seq<string>, n: nat)
    requires n <= |ids| && base + |ids| == |records| && AllBackedIn(r, ids) && Left(v, c, now, records, base) == (Empty, 0)
    requires AllAdvance(v, c, now, records, base, r, ids)
    ensures Left(v, c, now, records, base + n) == Load(r, ids, now, n)
  {
    if n > 0 {
      AdvancesLoad(v, c, now, records, base, r, ids, n - 1);
      assert Advances(v, c, now, records, base, r, ids, n - 1);
    }
  }

  lemma CompactAdvances(v: Vault, c: Codec, ts: nat, r: Registry, digests: seq<string>, ids: seq<string>, now: nat)
    requires v.Lawful() && c.Lawful() && r.Sound(v) && AllReplayable(r) && Listing(r, digests, ids)
    ensures AllAdvance(v, c, now, CompactRecords(c, ts, r, digests, ids), |digests|, r, ids)
  {
    forall k: nat | k < |ids|
      ensures Advances(v, c, now, CompactRecords(c, ts, r, digests, ids), |digests|, r, ids, k)
    {
      CompactStep(v, c, ts, r, digests, ids, now, k);
    }
  }

  lemma ReopenedText(v: Vault, c: Codec, now: nat, file: seq<byte>, records: seq<Record>, n: nat,
                     loaded: (Registry, nat))
    requires c.Lawful() && file == Text(c, records) && n == |records| && Left(v, c, now, records, n) == loaded
    ensures Reopened(v, c, file, now) == loaded.0.MarkAllPersisted()
  {
    RecordsOfText(c, records);
    assert records[..n] == records;
  }

  lemma CompactedFileIs(c: Codec, ts: nat, r: Registry, digests: seq<string>, ids: seq<string>)
    requires Listing(r, digests, ids)
    ensures CompactedFile(c, ts, r, digests, ids) == Text(c, CompactRecords(c, ts, r, digests, ids))
    ensures |CompactRecords(c, ts, r, digests, ids)| == |digests| + |ids|
  {
  }

  lemma LoadedFile(v: Vault, c: Codec, now: nat, file: seq<byte>, records: seq<Record>, base: nat, r: Registry,
                   ids: seq<string>)
    requires c.Lawful() && file == Text(c, records) && base + |ids| == |records| && AllBackedIn(r, ids)
    requires Left(v, c, now, records, base) == (Empty, 0) && AllAdvance(v, c, now, records, base, r, ids)
    ensures Reopened(v, c, file, now) == Load(r, ids, now, |ids|).0.MarkAllPersisted()
  {
    AdvancesLoad(v, c, now, records, base, r, ids, |ids|);
    ReopenedText(v, c, now, file, records, base + |ids|, Load(r, ids, now, |ids|));
  }

  lemma ReopenedLoad(v: Vault, c: Codec, ts: nat, r: Registry, digests: seq<string>, ids: seq<string>, now: nat)
    requires v.Lawful() && c.Lawful() && r.Sound(v) && AllReplayable(r) && Listing(r, digests, ids) && AllBackedIn(r, ids)
    ensures Reopened(v, c, CompactedFile(c, ts, r, digests, ids), now) == Load(r, ids, now, |ids|).0.MarkAllPersisted()
  {
    CompactStart(v, c, ts, r, digests, ids, now);
    CompactAdvances(v, c, ts, r, digests, ids, now);
    CompactedFileIs(c, ts, r, digests, ids);
    LoadedFile(v, c, now, CompactedFile(c, ts, r, digests, ids), CompactRecords(c, ts, r, digests, ids), |digests|, r, ids);
  }

  lemma AllListed(r: Registry, digests: seq<string>, ids: seq<string>)
    requires Listing(r, digests, ids)
    ensures Firsts(ids, |ids|) == r.entries.Keys
  {
  }

  lemma MarkLoaded(r: Registry, seen: set<string>, now: nat, q: Registry)
    requires Loaded(r, seen, now, q)
    ensures Loaded(r, seen, now, q.MarkAllPersisted())
  {
  }

  /** Reopening a compacted file loads exactly the sessions whose retention is not over. */
  lemma ReopenedIs(v: Vault, c: Codec, ts: nat, r: Registry, digests: seq<string>, ids: seq<string>, now: nat)
    requires v.Lawful() && c.Lawful() && r.Sound(v) && AllReplayable(r)
    requires Listing(r, digests, ids) && Chronological(r, ids)
    ensures Loaded(r, r.entries.Keys, now, Reopened(v, c, CompactedFile(c, ts, r, digests, ids), now))
  {
    AllBacked(v, r, digests, ids);
    ReopenedLoad(v, c, ts, r, digests, ids, now);
    LoadLoads(r, ids, now, |ids|);
    AllListed(r, digests, ids);
    MarkLoaded(r, r.entries.Keys, now, Load(r, ids, now, |ids|).0);
  }

  /** One session under two channels, one after the other, as if sealed within one second of the same material. */
  function Shared(fp: string, fp': string, p: Split, until: nat): Registry {
    Empty.Insert(fp, p, until, 0).Insert(fp', p, until, 1)
  }

  /** A restart forgets a channel that no entry is named after. */
  lemma RestartForgets(v: Vault, c: Codec, r: Registry, digests: seq<string>, ids: seq<string>, t: nat, later: nat,
                       fp: string)
    requires v.Lawful() && c.Lawful() && r.Sound(v) && AllReplayable(r)
    requires Listing(r, digests, ids) && Chronological(r, ids)
    requires forall id :: id in r.entries ==> r.entries[id].fingerprint != fp
    ensures Reopened(v, c, CompactedFile(c, t, r, digests, ids), later).Usable(fp, later).None?
  {
    ReopenedIs(v, c, t, r, digests, ids, later);
  }

  lemma SharedUsable(fp: string, fp': string, p: Split, until: nat, now: nat)
    requires fp != fp' && now < p.stripped.expiresAt
    ensures Shared(fp, fp', p, until).Usable(fp, now) == Some(p.id)
  {
  }

  lemma SharedSound(v: Vault, fp: string, fp': string, p: Split, until: nat)
    requires v.Lawful() && v.genuine(p) && Replayable(p.contentType)
    ensures var r := Shared(fp, fp', p, until);
            && r.Sound(v) && r.entries.Keys == {p.id} && r.entries[p.id].fingerprint == fp'
            && Listing(r, [p.digest], [p.id]) && AllReplayable(r)
  {
    InsertSound(v, Empty, fp, p, until, 0);
    InsertSound(v, Empty.Insert(fp, p, until, 0), fp', p, until, 1);
  }

  /** The one channel per id of `Proper` is needed: the first of two channels loses its session in a restart. */
  lemma SharedIdShows(v: Vault, c: Codec, fp: string, fp': string, p: Split, until: nat, t: nat, later: nat)
    requires v.Lawful() && c.Lawful() && v.genuine(p) && Replayable(p.contentType)
    requires fp != fp' && later < p.stripped.expiresAt
    ensures var r := Shared(fp, fp', p, until);
            && r.Usable(fp, later) == Some(p.id)
            && Reopened(v, c, CompactedFile(c, t, r, [p.digest], [p.id]), later).Usable(fp, later).None?
  {
    SharedSound(v, fp, fp', p, until);
    SharedUsable(fp, fp', p, until, later);
    RestartForgets(v, c, Shared(fp, fp', p, until), [p.digest], [p.id], t, later, fp);
  }

  // The channel's mapping in `q` is no older than `id`, and in `r` nothing of the channel is newer than `id`.
  lemma LoadedMappedAt(r: Registry, ts: nat, now: nat, q: Registry, id: string)
    requires Mapped(r, ts) && Newest(r) && Spaced(r) && ts <= now && Loaded(r, r.entries.Keys, now, q)
    requires id in q.entries && now < q.entries[id].stripped.expiresAt
    ensures q.current[q.entries[id].fingerprint] == id
  {
    var fp := q.entries[id].fingerprint;
    var newest := q.current[fp];
    assert SameEntry(r.entries[id], q.entries[id]) && SameEntry(r.entries[newest], q.entries[newest]);
    assert r.current[fp] == id;
    assert r.entries[newest].stripped.establishedAt == r.entries[id].stripped.establishedAt;
  }

  lemma LoadedMapped(r: Registry, ts: nat, now: nat, q: Registry)
    requires Mapped(r, ts) && Newest(r) && Spaced(r) && ts <= now && Loaded(r, r.entries.Keys, now, q)
    ensures Mapped(q, now)
  {
    forall id | id in q.entries && now < q.entries[id].stripped.expiresAt
      ensures q.current[q.entries[id].fingerprint] == id
    {
      LoadedMappedAt(r, ts, now, q, id);
    }
  }

  lemma LoadedProper(channel: string -> string, r: Registry, now: nat, q: Registry)
    requires (forall id :: id in r.entries ==> EntryProper(channel, r, id)) && Loaded(r, r.entries.Keys, now, q)
    ensures forall id :: id in q.entries ==> EntryProper(channel, q, id)
    ensures forall fp :: fp in q.current ==> channel(q.current[fp]) == fp
  {
    forall id | id in q.entries
      ensures EntryProper(channel, q, id)
    {
      assert EntryProper(channel, r, id) && SameEntry(r.entries[id], q.entries[id]);
    }
    forall fp | fp in q.current
      ensures channel(q.current[fp]) == fp
    {
      assert EntryProper(channel, q, q.current[fp]);
    }
  }

  lemma LoadedSpaced(r: Registry, now: nat, q: Registry)
    requires Covered(r) && Spaced(r) && Loaded(r, r.entries.Keys, now, q)
    ensures Covered(q) && Spaced(q) && Alike(r, q, now)
  {
  }

  lemma RelaunchTwins(v: Vault, c: Codec, channel: string -> string, r: Registry, now: nat, op: Op)
    requires v.Lawful() && c.Lawful() && op.Relaunch?
    requires Disciplined(v, channel, r, now) && Proper(v, channel, r, now, op, true)
    ensures var r' := Step(v, c, r, op, true).0; Disciplined(v, channel, r', op.reopenedAt) && Alike(r, r', op.reopenedAt)
  {
    var Relaunch(t, held, digests, ids, later) := op;
    var e := r.Evict(t, held(true));
    LaterDisciplined(v, channel, r, now, t);
    EvictDisciplined(v, channel, r, t, held(true));
    AllAccepted(channel, e);
    ReopenedIs(v, c, t, e, digests, ids, later);
    ReopenedSound(v, c, CompactedFile(c, t, e, digests, ids), later);
    var q := Reopened(v, c, CompactedFile(c, t, e, digests, ids), later);
    LoadedMapped(e, t, later, q);
    LoadedProper(channel, e, later, q);
    LoadedSpaced(e, later, q);
    EvictLive(r, t, held(true));
    AlikeLater(r, e, t, later);
    AlikeTrans(r, e, q, later);
  }

  lemma AllAccepted(channel: string -> string, r: Registry)
    requires forall id :: id in r.entries ==> EntryProper(channel, r, id)
    ensures AllReplayable(r)
  {
    forall id | id in r.entries
      ensures Replayable(r.entries[id].contentType)
    {
      assert EntryProper(channel, r, id);
    }
  }

  // ---------- whole runs ----------

  lemma AfterSealIs(e: Registry, op: Op, side: bool)
    requires op.Acquire? && op.p.id !in e.entries
    ensures AfterSeal(e, op, side)
            == e.Insert(op.fingerprint, op.p, Until(op), op.token(side)).MarkPersisted(op.p.digest)
                .Evict(op.now, op.held(side) + {op.token(side)})
  {
  }

  lemma AfterSealDisciplined(v: Vault, channel: string -> string, e: Registry, op: Op, side: bool)
    requires v.Lawful() && op.Acquire? && Disciplined(v, channel, e, op.now) && Proper(v, channel, e, op.now, op, side)
    requires e.Usable(op.fingerprint, op.now).None?
    ensures Disciplined(v, channel, AfterSeal(e, op, side), op.now)
  {
    var i := e.Insert(op.fingerprint, op.p, Until(op), op.token(side));
    MissIsFresh(v, channel, e, op.now, op.p);
    AfterSealIs(e, op, side);
    InsertDisciplined(v, channel, e, op.now, op.p, Until(op), op.token(side));
    MarkDisciplined(v, channel, i, op.now, op.p.digest);
    EvictDisciplined(v, channel, i.MarkPersisted(op.p.digest), op.now, op.held(side) + {op.token(side)});
  }

  lemma AcquireDisciplined(v: Vault, c: Codec, channel: string -> string, r: Registry, op: Op, side: bool)
    requires v.Lawful() && op.Acquire? && Disciplined(v, channel, r, op.now) && Proper(v, channel, r, op.now, op, side)
    ensures Disciplined(v, channel, Step(v, c, r, op, side).0, op.now)
  {
    var e := r.Evict(op.now, op.held(side));
    EvictDisciplined(v, channel, r, op.now, op.held(side));
    if e.Usable(op.fingerprint, op.now).Some? {
      ProlongDisciplined(v, channel, e, op.now, e.Usable(op.fingerprint, op.now).value, op.retentionUntil);
    } else {
      AfterSealDisciplined(v, channel, e, op, side);
    }
  }

  lemma NotAcquiredDisciplined(v: Vault, channel: string -> string, e: Registry, op: Op)
    requires op.AcquireFails? && Disciplined(v, channel, e, op.now)
    ensures Disciplined(v, channel, NotAcquired(e, op).0, op.now)
  {
    var hit := e.Usable(op.fingerprint, op.now);
    if hit.Some? { ProlongDisciplined(v, channel, e, op.now, hit.value, op.retentionUntil); }
  }

  lemma StepDisciplined(v: Vault, c: Codec, channel: string -> string, r: Registry, now: nat, op: Op, side: bool)
    requires v.Lawful() && c.Lawful() && Disciplined(v, channel, r, now) && Proper(v, channel, r, now, op, side)
    ensures Disciplined(v, channel, Step(v, c, r, op, side).0, TimeOf(op, now))
  {
    var t := TimeOf(op, now);
    LaterDisciplined(v, channel, r, now, t);
    match op
    case Get(id, _, held) => EvictDisciplined(v, channel, r, t, held(side));
    case Prolong(id, deadline) => ProlongDisciplined(v, channel, r, t, id, deadline);
    case Acquire(_, _, _, _, _, _) => AcquireDisciplined(v, c, channel, r, op, side);
    case AcquireFails(_, _, _, held) =>
      EvictDisciplined(v, channel, r, t, held(side));
      NotAcquiredDisciplined(v, channel, r.Evict(t, held(side)), op);
    case CompactFails(_, held) => EvictDisciplined(v, channel, r, t, held(side));
    case Relaunch(compactedAt, held, _, _, _) =>
      if side {
        RelaunchTwins(v, c, channel, r, now, op);
      } else {
        LaterDisciplined(v, channel, r, now, compactedAt);
        EvictDisciplined(v, channel, r, compactedAt, held(side));
        MarkDisciplined(v, channel, r.Evict(compactedAt, held(side)), compactedAt, "");
        LaterDisciplined(v, channel, r.Evict(compactedAt, held(side)).MarkAllPersisted(), compactedAt, t);
      }
  }

  lemma RelaunchAlike(v: Vault, c: Codec, channel: string -> string, r: Registry, r': Registry, now: nat, op: Op)
    requires v.Lawful() && c.Lawful() && op.Relaunch? && Twins(v, channel, r, r', now)
    requires Proper(v, channel, r, now, op, false) && Proper(v, channel, r', now, op, true)
    ensures Alike(Step(v, c, r, op, false).0, Step(v, c, r', op, true).0, op.reopenedAt)
  {
    var t, later := op.compactedAt, op.reopenedAt;
    var e := r.Evict(t, op.held(false));
    var m, q := e.MarkAllPersisted(), Step(v, c, r', op, true).0;
    RelaunchTwins(v, c, channel, r', now, op);
    EvictLive(r, t, op.held(false));
    MarkAlike(e, "", t);
    AlikeTrans(r, e, m, t);
    AlikeSym(r, m, t);
    AlikeLater(m, r, t, later);
    AlikeLater(r, r', now, later);
    AlikeTrans(m, r, r', later);
    AlikeTrans(m, r', q, later);
  }

  lemma GetAlike(v: Vault, c: Codec, channel: string -> string, r: Registry, r': Registry, op: Op)
    requires v.Lawful() && op.Get? && Twins(v, channel, r, r', op.now)
    ensures Alike(Step(v, c, r, op, false).0, Step(v, c, r', op, true).0, op.now) && SameAnswer(v, c, r, r', op)
  {
    EvictAlike(r, r', op.now, op.held(false), op.held(true));
    if !KeptByLease(r, op, false) && !KeptByLease(r', op, true) { GetAgrees(v, c, r, r', op); }
  }

  lemma ProlongedAlike(v: Vault, c: Codec, r: Registry, r': Registry, now: nat, op: Op)
    requires op.Prolong? && Alike(r, r', now) && Live(r, op.id, now)
    ensures Alike(Step(v, c, r, op, false).0, Step(v, c, r', op, true).0, now) && SameAnswer(v, c, r, r', op)
  {
    ProlongAlike(r, r', now, op.id, op.deadline);
  }

  lemma StepAlike(v: Vault, c: Codec, channel: string -> string, r: Registry, r': Registry, now: nat, op: Op)
    requires v.Lawful() && c.Lawful() && Twins(v, channel, r, r', now)
    requires Proper(v, channel, r, now, op, false) && Proper(v, channel, r', now, op, true)
    ensures Alike(Step(v, c, r, op, false).0, Step(v, c, r', op, true).0, TimeOf(op, now))
    ensures SameAnswer(v, c, r, r', op)
  {
    var t := TimeOf(op, now);
    TwinsLater(v, channel, r, r', now, t);
    match op
    case Get(_, _, _) => GetAlike(v, c, channel, r, r', op);
    case Acquire(_, _, _, _, _, _) => AcquireAgrees(v, c, channel, r, r', op);
    case AcquireFails(_, _, _, _) => AcquireFailsAlike(v, c, channel, r, r', op);
    case CompactFails(_, held) => EvictAlike(r, r', t, held(false), held(true));
    case Prolong(_, _) => ProlongedAlike(v, c, r, r', t, op);
    case Relaunch(_, _, _, _, _) => RelaunchAlike(v, c, channel, r, r', now, op);
  }

  /** One call, made of both stores: the same answer, and two stores still alike. */
  lemma StepAgrees(v: Vault, c: Codec, channel: string -> string, r: Registry, r': Registry, now: nat, op: Op)
    requires v.Lawful() && c.Lawful() && Twins(v, channel, r, r', now)
    requires Proper(v, channel, r, now, op, false) && Proper(v, channel, r', now, op, true)
    ensures Twins(v, channel, Step(v, c, r, op, false).0, Step(v, c, r', op, true).0, TimeOf(op, now))
    ensures SameAnswer(v, c, r, r', op)
  {
    StepDisciplined(v, c, channel, r, now, op, false);
    StepDisciplined(v, c, channel, r', now, op, true);
    StepAlike(v, c, channel, r, r', now, op);
  }

  ghost predicate SameAnswer(v: Vault, c: Codec, r: Registry, r': Registry, op: Op) {
    KeptByLease(r, op, false) || KeptByLease(r', op, true) || Step(v, c, r, op, false).1 == Step(v, c, r', op, true).1
  }

  ghost predicate ProperRun(v: Vault, c: Codec, channel: string -> string, r: Registry, r': Registry,
                            now: nat, ops: seq<Op>)
    decreases |ops|
  {
    ops != [] ==>
      && Proper(v, channel, r, now, ops[0], false) && Proper(v, channel, r', now, ops[0], true)
      && ProperRun(v, c, channel, Step(v, c, r, ops[0], false).0, Step(v, c, r', ops[0], true).0, TimeOf(ops[0], now), ops[1..])
  }

  ghost predicate SameAnswers(v: Vault, c: Codec, r: Registry, r': Registry, ops: seq<Op>)
    decreases |ops|
  {
    ops != [] ==>
      && SameAnswer(v, c, r, r', ops[0])
      && SameAnswers(v, c, Step(v, c, r, ops[0], false).0, Step(v, c, r', ops[0], true).0, ops[1..])
  }

  lemma {:induction false} RunAgrees(v: Vault, c: Codec, channel: string -> string, r: Registry,
                                     r': Registry, now: nat, ops: seq<Op>)
    requires v.Lawful() && c.Lawful() && Twins(v, channel, r, r', now) && ProperRun(v, c, channel, r, r', now, ops)
    ensures SameAnswers(v, c, r, r', ops)
    decreases |ops|
  {
    if ops != [] {
      StepAgrees(v, c, channel, r, r', now, ops[0]);
      RunAgrees(v, c, channel, Step(v, c, r, ops[0], false).0, Step(v, c, r', ops[0], true).0, TimeOf(ops[0], now), ops[1..]);
    }
  }

  /**
    A store that compacts and reopens its file at any points of its life gives,
    to every call, the answer of one that only compacts: the same session for
    every id, the same hit, miss or failure and the same id for every channel,
    with sealing, writing and compaction failing anywhere. The one
    exception is a session that a store still has only because a lease keeps it.
   */
  lemma RestartsAreInvisible(v: Vault, c: Codec, channel: string -> string, now: nat, ops: seq<Op>)
    requires v.Lawful() && c.Lawful() && ProperRun(v, c, channel, Empty, Empty, now, ops)
    ensures SameAnswers(v, c, Empty, Empty, ops)
  {
    RunAgrees(v, c, channel, Empty, Empty, now, ops);
  }
}

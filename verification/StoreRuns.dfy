/**
  Concurrent use of one durable store (src/aggregator/session_store.rs).

  The store has two locks, taken in the order writer then index. An index
  section is one atomic step. A caller that holds the writer lock passes through
  several such steps, and other callers' index sections may fall between them;
  `holder` is where the caller with the writer lock stands. Every step may use a
  stale `now`, any set of held tokens, any outcome of `seal`, and a file write
  may fail after any number of bytes.
 */
module StoreRuns {
  import opened Foundation
  import opened Session
  import opened Vault
  import opened Registry
  import opened SessionLog

  /** The arguments of one `current_or_seal` call. */
  datatype Request = Request(fingerprint: string, retentionUntil: nat, now: nat)

  datatype Holder =
    | Free
    | Rechecking(q: Request)                              // writer lock taken after a miss
    | Sealing(q: Request)                                 // second lookup missed too
    | Composed(q: Request, p: Split, bundlePersisted: bool) // sealed, split, bundle flag read
    | Written(q: Request, p: Split)                       // on file, not yet indexed
    | Compacting(now: nat)                                // writer lock taken by `compact`
    | Snapshot(records: seq<Record>)                      // serialized under the index lock
    | Renamed                                             // new file in place, flags not yet set

  datatype World = World(
    registry: Registry, file: seq<byte>, needsSeparator: bool, nextSeq: nat,
    holder: Holder, waiting: multiset<Request>, latest: nat, tokens: nat)

  datatype Action =
    | Arrive(q: Request, held: set<nat>)   // first lookup
    | TakeWriter(q: Request)
    | Recheck(held: set<nat>)
    | SealFails
    | SealOk(p: Split)
    | WriteRefused                          // sequence numbers exhausted
    | WriteFails(k: nat)                    // after k bytes
    | WriteOk
    | Publish(held: set<nat>)
    | Lookup(now: nat, held: set<nat>)
    | Extend(id: string, deadline: nat)
    | CompactStart(now: nat)
    | CompactSnapshot(held: set<nat>, digests: seq<string>, ids: seq<string>)
    | CompactFails
    | CompactRename
    | CompactFinish

  /** What an append writes, with the separator a torn line before it needs. */
  function Appended(c: Codec, w: World): seq<byte>
    requires w.holder.Composed?
  {
    Lead(w.needsSeparator) + Text(c, NewRecords(c, w))
  }

  function NewRecords(c: Codec, w: World): seq<Record>
    requires w.holder.Composed?
  {
    var Composed(q, p, bundlePersisted) := w.holder;
    AppendRecords(c, w.nextSeq, q.now, q.fingerprint, q.retentionUntil, p, bundlePersisted)
  }

  function CompactFrom(w: World, held: set<nat>): Registry
    requires w.holder.Compacting?
  {
    w.registry.Evict(w.holder.now, held)
  }

  ghost predicate Enabled(v: Vault, c: Codec, w: World, a: Action) {
    match a
    case Arrive(_, _) => true
    case TakeWriter(q) => w.holder.Free? && q in w.waiting
    case Recheck(_) => w.holder.Rechecking?
    case SealFails => w.holder.Sealing?
    case SealOk(p) => w.holder.Sealing? && v.genuine(p)
    case WriteRefused => w.holder.Composed? && w.nextSeq + |NewRecords(c, w)| > U64_MAX
    case WriteFails(k) => w.holder.Composed? && w.nextSeq + |NewRecords(c, w)| <= U64_MAX && k <= |Appended(c, w)|
    case WriteOk => w.holder.Composed? && w.nextSeq + |NewRecords(c, w)| <= U64_MAX
    case Publish(_) => w.holder.Written?
    case Lookup(_, _) => true
    case Extend(id, _) => id in w.registry.entries
    case CompactStart(_) => w.holder.Free?
    case CompactSnapshot(held, digests, ids) => w.holder.Compacting? && Listing(CompactFrom(w, held), digests, ids)
    case CompactFails => w.holder.Snapshot? || w.holder.Compacting?
    case CompactRename => w.holder.Snapshot?
    case CompactFinish => w.holder.Renamed?
  }

  ghost function Apply(v: Vault, c: Codec, w: World, a: Action): World
    requires Enabled(v, c, w, a)
  {
    match a
    case Arrive(q, held) =>
      var (r, hit) := w.registry.Current(q.fingerprint, q.retentionUntil, q.now, held);
      w.(registry := r, latest := Max(w.latest, q.now),
         waiting := if hit.Some? then w.waiting else w.waiting + multiset{q})
    case TakeWriter(q) => w.(holder := Rechecking(q), waiting := w.waiting - multiset{q})
    case Recheck(held) =>
      var q := w.holder.q;
      var (r, hit) := w.registry.Current(q.fingerprint, q.retentionUntil, q.now, held);
      w.(registry := r, holder := if hit.Some? then Free else Sealing(q))
    case SealFails => w.(holder := Free)
    case SealOk(p) =>
      w.(holder := Composed(w.holder.q, p, p.digest in w.registry.stored && w.registry.stored[p.digest].persisted))
    case WriteRefused => w.(holder := Free)
    case WriteFails(k) => w.(file := w.file + Appended(c, w)[..k], needsSeparator := true, holder := Free)
    case WriteOk =>
      w.(file := w.file + Appended(c, w), needsSeparator := false, nextSeq := w.nextSeq + |NewRecords(c, w)|,
         holder := Written(w.holder.q, w.holder.p))
    case Publish(held) =>
      var Written(q, p) := w.holder;
      var r := w.registry.Insert(q.fingerprint, p, Max(q.retentionUntil, p.stripped.expiresAt), w.tokens);
      w.(registry := r.MarkPersisted(p.digest).Evict(q.now, held), tokens := w.tokens + 1, holder := Free)
    case Lookup(now, held) => w.(registry := w.registry.Evict(now, held), latest := Max(w.latest, now))
    case Extend(id, deadline) => w.(registry := w.registry.Prolong(id, deadline))
    case CompactStart(now) => w.(holder := Compacting(now), latest := Max(w.latest, now))
    case CompactSnapshot(held, digests, ids) =>
      var r := CompactFrom(w, held);
      w.(registry := r, holder := Snapshot(CompactRecords(c, w.holder.now, r, digests, ids)))
    case CompactFails => w.(holder := Free)
    case CompactRename =>
      w.(file := Text(c, w.holder.records), nextSeq := |w.holder.records|, needsSeparator := false, holder := Renamed)
    case CompactFinish => w.(registry := w.registry.MarkAllPersisted(), holder := Free)
  }

  ghost predicate Runs(v: Vault, c: Codec, w: World, actions: seq<Action>)
    decreases |actions|
  {
    actions == [] || (Enabled(v, c, w, actions[0]) && Runs(v, c, Apply(v, c, w, actions[0]), actions[1..]))
  }

  ghost function After(v: Vault, c: Codec, w: World, actions: seq<Action>): World
    requires Runs(v, c, w, actions)
    decreases |actions|
  {
    if actions == [] then w else After(v, c, Apply(v, c, w, actions[0]), actions[1..])
  }

  // ---------- one usable session per channel ----------

  /** A session valid at `now` is the one its channel maps to. */
  ghost predicate Mapped(r: Registry, now: nat) {
    forall id :: id in r.entries && now < r.entries[id].stripped.expiresAt
                 ==> r.entries[id].fingerprint in r.current && r.current[r.entries[id].fingerprint] == id
  }

  /** The channel has no session that is valid at `now`. */
  ghost predicate Vacant(r: Registry, fingerprint: string, now: nat) {
    forall id :: id in r.entries && r.entries[id].fingerprint == fingerprint
                 ==> r.entries[id].stripped.expiresAt <= now
  }

  ghost predicate Covered(r: Registry) {
    forall id :: id in r.entries ==> r.entries[id].stripped.expiresAt <= r.entries[id].retentionUntil
  }

  ghost predicate ChannelInv(w: World) {
    && Covered(w.registry) && Mapped(w.registry, w.latest)
    && (forall q :: q in w.waiting ==> q.now <= w.latest)
    && match w.holder
       case Rechecking(q) => q.now <= w.latest
       case Sealing(q) => q.now <= w.latest && Vacant(w.registry, q.fingerprint, w.latest)
       case Composed(q, _, _) => q.now <= w.latest && Vacant(w.registry, q.fingerprint, w.latest)
       case Written(q, _) => q.now <= w.latest && Vacant(w.registry, q.fingerprint, w.latest)
       case Compacting(now) => now <= w.latest
       case _ => true
  }

  // Eviction at or before `latest` loses no session still valid then, because retention covers validity.
  lemma EvictMapped(r: Registry, now: nat, held: set<nat>, latest: nat)
    requires Covered(r) && Mapped(r, latest) && now <= latest
    ensures var r' := r.Evict(now, held);
            && Covered(r') && Mapped(r', latest)
            && (forall fp :: Vacant(r, fp, latest) ==> Vacant(r', fp, latest))
            && (forall id :: id in r.entries && latest < r.entries[id].stripped.expiresAt ==> id in r'.entries)
  {
    var r' := r.Evict(now, held);
    forall id | id in r'.entries && latest < r'.entries[id].stripped.expiresAt
      ensures r'.entries[id].fingerprint in r'.current && r'.current[r'.entries[id].fingerprint] == id
    {
      assert id in r.entries && r.entries[id] == r'.entries[id];
    }
  }

  lemma LaterMapped(r: Registry, before: nat, latest: nat)
    requires Mapped(r, before) && before <= latest
    ensures Mapped(r, latest)
    ensures forall fp :: Vacant(r, fp, before) ==> Vacant(r, fp, latest)
  {
  }

  lemma ProlongMapped(r: Registry, id: string, deadline: nat, latest: nat)
    requires Covered(r) && Mapped(r, latest) && id in r.entries
    ensures var r' := r.Prolong(id, deadline);
            Covered(r') && Mapped(r', latest) && (forall fp :: Vacant(r, fp, latest) ==> Vacant(r', fp, latest))
  {
    var r' := r.Prolong(id, deadline);
    forall fp | Vacant(r, fp, latest)
      ensures Vacant(r', fp, latest)
    {
      forall i | i in r'.entries && r'.entries[i].fingerprint == fp
        ensures r'.entries[i].stripped.expiresAt <= latest
      {
        assert r.entries[i].fingerprint == fp;
      }
    }
  }

  // A lookup that misses at `now` proves the channel vacant at every later time used so far.
  lemma CurrentMapped(r: Registry, q: Request, held: set<nat>, latest: nat)
    requires Covered(r) && Mapped(r, latest) && q.now <= latest
    ensures var (r', hit) := r.Current(q.fingerprint, q.retentionUntil, q.now, held);
            && Covered(r') && Mapped(r', latest)
            && (forall fp :: Vacant(r, fp, latest) ==> Vacant(r', fp, latest))
            && (hit.None? ==> Vacant(r', q.fingerprint, latest))
  {
    var e := r.Evict(q.now, held);
    EvictMapped(r, q.now, held, latest);
    if e.Usable(q.fingerprint, q.now).Some? {
      ProlongMapped(e, e.Usable(q.fingerprint, q.now).value, q.retentionUntil, latest);
    }
  }

  lemma InsertMapped(r: Registry, fingerprint: string, p: Split, retentionUntil: nat, token: nat, latest: nat)
    requires Covered(r) && Mapped(r, latest) && Vacant(r, fingerprint, latest)
    ensures var r' := r.Insert(fingerprint, p, retentionUntil, token); Covered(r') && Mapped(r', latest)
  {
  }

  lemma MarkMapped(r: Registry, digest: string, latest: nat)
    requires Covered(r) && Mapped(r, latest)
    ensures Covered(r.MarkPersisted(digest)) && Mapped(r.MarkPersisted(digest), latest)
    ensures Covered(r.MarkAllPersisted()) && Mapped(r.MarkAllPersisted(), latest)
  {
  }

  lemma PublishMapped(w: World, held: set<nat>)
    requires ChannelInv(w) && w.holder.Written?
    ensures var Written(q, p) := w.holder;
            var r := w.registry.Insert(q.fingerprint, p, Max(q.retentionUntil, p.stripped.expiresAt), w.tokens);
            var r' := r.MarkPersisted(p.digest).Evict(q.now, held);
            Covered(r') && Mapped(r', w.latest)
  {
    var Written(q, p) := w.holder;
    var asked := Max(q.retentionUntil, p.stripped.expiresAt);
    var r := w.registry.Insert(q.fingerprint, p, asked, w.tokens);
    InsertMapped(w.registry, q.fingerprint, p, asked, w.tokens, w.latest);
    MarkMapped(r, p.digest, w.latest);
    EvictMapped(r.MarkPersisted(p.digest), q.now, held, w.latest);
  }

  lemma ArriveKeeps(v: Vault, c: Codec, w: World, q: Request, held: set<nat>)
    requires ChannelInv(w)
    ensures ChannelInv(Apply(v, c, w, Arrive(q, held)))
  {
    var latest := Max(w.latest, q.now);
    LaterMapped(w.registry, w.latest, latest);
    CurrentMapped(w.registry, q, held, latest);
  }

  lemma LookupKeeps(v: Vault, c: Codec, w: World, now: nat, held: set<nat>)
    requires ChannelInv(w)
    ensures ChannelInv(Apply(v, c, w, Lookup(now, held)))
  {
    LaterMapped(w.registry, w.latest, Max(w.latest, now));
    EvictMapped(w.registry, now, held, Max(w.latest, now));
  }

  lemma ChannelStep(v: Vault, c: Codec, w: World, a: Action)
    requires ChannelInv(w) && Enabled(v, c, w, a)
    ensures ChannelInv(Apply(v, c, w, a))
  {
    match a
    case Arrive(q, held) => ArriveKeeps(v, c, w, q, held);
    case Recheck(held) => CurrentMapped(w.registry, w.holder.q, held, w.latest);
    case Publish(held) => PublishMapped(w, held);
    case Lookup(now, held) => LookupKeeps(v, c, w, now, held);
    case Extend(id, deadline) => ProlongMapped(w.registry, id, deadline, w.latest);
    case CompactStart(now) => LaterMapped(w.registry, w.latest, Max(w.latest, now));
    case CompactSnapshot(held, _, _) => EvictMapped(w.registry, w.holder.now, held, w.latest);
    case CompactFinish => MarkMapped(w.registry, "", w.latest);
    case _ =>
  }

  lemma {:induction false} ChannelRun(v: Vault, c: Codec, w: World, actions: seq<Action>)
    requires ChannelInv(w) && Runs(v, c, w, actions)
    ensures ChannelInv(After(v, c, w, actions))
    decreases |actions|
  {
    if actions != [] {
      ChannelStep(v, c, w, actions[0]);
      ChannelRun(v, c, Apply(v, c, w, actions[0]), actions[1..]);
    }
  }

  /** Nobody is in the middle of a call, and retention covers validity, as every load from a file makes it. */
  ghost predicate AtRest(w: World) {
    w.holder.Free? && w.waiting == multiset{} && Covered(w.registry)
  }

  /** Two stored sessions of one channel are both valid at the latest time any caller has used. */
  ghost predicate TwoUsable(w: World, a: string, b: string) {
    && a in w.registry.entries && b in w.registry.entries && a != b
    && w.registry.entries[a].fingerprint == w.registry.entries[b].fingerprint
    && w.latest < w.registry.entries[a].stripped.expiresAt && w.latest < w.registry.entries[b].stripped.expiresAt
  }

  /**
    From a store whose valid sessions are the ones their channels map to, such as
    an empty one: in every interleaving, at most one stored session of a channel
    is valid at the latest time any caller has used; and while some caller is
    sealing for a channel there is none, so no seal replaces a usable session,
    however stale the caller's own clock reading is.
   */
  lemma OneUsableSession(v: Vault, c: Codec, w: World, actions: seq<Action>, a: string, b: string)
    requires AtRest(w) && Mapped(w.registry, w.latest) && Runs(v, c, w, actions)
    ensures var w' := After(v, c, w, actions);
            && !TwoUsable(w', a, b)
            && (w'.holder.Sealing? ==> Vacant(w'.registry, w'.holder.q.fingerprint, w'.latest))
  {
    ChannelRun(v, c, w, actions);
  }

  /** In every such run, no step at all loses a session that is still valid at the latest time used. */
  lemma ValidSessionsStay(v: Vault, c: Codec, w: World, actions: seq<Action>, a: Action, id: string)
    requires AtRest(w) && Mapped(w.registry, w.latest) && Runs(v, c, w, actions)
    requires var w' := After(v, c, w, actions);
             Enabled(v, c, w', a) && id in w'.registry.entries
             && Apply(v, c, w', a).latest < w'.registry.entries[id].stripped.expiresAt
    ensures id in Apply(v, c, After(v, c, w, actions), a).registry.entries
  {
    ChannelRun(v, c, w, actions);
    StepKeepsValid(v, c, After(v, c, w, actions), a, id);
  }

  // Retention covers validity, so eviction passes over what is still valid.
  lemma StepKeepsValid(v: Vault, c: Codec, w: World, a: Action, id: string)
    requires ChannelInv(w) && Enabled(v, c, w, a) && id in w.registry.entries
    requires Apply(v, c, w, a).latest < w.registry.entries[id].stripped.expiresAt
    ensures id in Apply(v, c, w, a).registry.entries
  {
    var latest := Apply(v, c, w, a).latest;
    LaterMapped(w.registry, w.latest, latest);
    match a
    case Arrive(q, held) => EvictMapped(w.registry, q.now, held, latest);
    case Recheck(held) => EvictMapped(w.registry, w.holder.q.now, held, latest);
    case Lookup(now, held) => EvictMapped(w.registry, now, held, latest);
    case CompactSnapshot(held, _, _) => EvictMapped(w.registry, w.holder.now, held, latest);
    case _ =>
  }

  // ---------- the log ----------

  ghost predicate AllReplayable(r: Registry) {
    forall id :: id in r.entries ==> Replayable(r.entries[id].contentType)
  }

  /** Every indexed session has a record. */
  ghost predicate SessionsLogged(c: Codec, r: Registry, records: seq<Record>) {
    forall id :: id in r.entries && r.entries[id].Digest() in r.stored ==> InLog(c, records, r.SplitAt(id))
  }

  /** Every bundle has a record. */
  ghost predicate BundlesLogged(v: Vault, c: Codec, r: Registry, records: seq<Record>) {
    forall d :: d in r.stored ==> HasBundle(v, c, records, d)
  }

  /** A bundle marked persisted has a record. */
  ghost predicate PersistedLogged(v: Vault, c: Codec, r: Registry, records: seq<Record>) {
    forall d :: d in r.stored && r.stored[d].persisted ==> HasBundle(v, c, records, d)
  }

  ghost predicate RegistryInv(v: Vault, c: Codec, r: Registry, records: seq<Record>) {
    r.Sound(v) && SessionsLogged(c, r, records) && PersistedLogged(v, c, r, records)
  }

  ghost predicate HolderInv(v: Vault, c: Codec, w: World, records: seq<Record>) {
    match w.holder
    case Composed(_, p, bundlePersisted) =>
      v.genuine(p) && (bundlePersisted ==> HasBundle(v, c, records, p.digest))
    case Written(_, p) =>
      v.genuine(p) && HasBundle(v, c, records, p.digest) && InLog(c, records, p)
    case Snapshot(next) =>
      |next| <= U64_MAX && Ordered(v, c, next) && SessionsLogged(c, w.registry, next) && BundlesLogged(v, c, w.registry, next)
    case Renamed => BundlesLogged(v, c, w.registry, records)
    case _ => true
  }

  /** The world as it should be when the file reads as `records`. */
  ghost predicate Faithful(v: Vault, c: Codec, w: World, records: seq<Record>) {
    && v.Lawful() && c.Lawful() && w.nextSeq <= U64_MAX
    && Ordered(v, c, records) && RegistryInv(v, c, w.registry, records) && HolderInv(v, c, w, records)
  }

  ghost predicate LogInv(v: Vault, c: Codec, w: World) {
    (w.needsSeparator || Clean(w.file)) && Faithful(v, c, w, Records(c, w.file))
  }

  /** The second registry holds nothing the first did not: same sessions and bundles, or fewer. */
  ghost predicate Less(r: Registry, r': Registry) {
    && (forall id :: id in r'.entries ==>
          (id in r.entries
           && r'.entries[id].stripped == r.entries[id].stripped
           && r'.entries[id].contentType == r.entries[id].contentType))
    && (forall d :: d in r'.stored ==> d in r.stored && r'.stored[d] == r.stored[d])
  }

  lemma WithinLogged(v: Vault, c: Codec, r: Registry, r': Registry, records: seq<Record>)
    requires v.Lawful() && r.Sound(v) && r'.Sound(v) && Less(r, r')
    ensures SessionsLogged(c, r, records) ==> SessionsLogged(c, r', records)
    ensures BundlesLogged(v, c, r, records) ==> BundlesLogged(v, c, r', records)
    ensures PersistedLogged(v, c, r, records) ==> PersistedLogged(v, c, r', records)
  {
    if SessionsLogged(c, r, records) {
      forall id | id in r'.entries && r'.entries[id].Digest() in r'.stored
        ensures InLog(c, records, r'.SplitAt(id))
      {
        assert r'.SplitAt(id) == r.SplitAt(id);
      }
    }
  }

  // Steps that only shrink the registry or prolong retention leave the log's claims standing.
  lemma ShrinkKeepsLog(v: Vault, c: Codec, w: World, r: Registry, records: seq<Record>)
    requires Faithful(v, c, w, records) && r.Sound(v) && Less(w.registry, r)
    ensures Faithful(v, c, w.(registry := r), records)
  {
    WithinLogged(v, c, w.registry, r, records);
    if w.holder.Snapshot? {
      WithinLogged(v, c, w.registry, r, w.holder.records);
    }
  }

  lemma EvictWithin(v: Vault, r: Registry, now: nat, held: set<nat>)
    requires r.Sound(v)
    ensures r.Evict(now, held).Sound(v) && Less(r, r.Evict(now, held))
  {
    WithoutSound(v, r, r.Lapsed(now, held));
  }

  lemma ProlongLess(r: Registry, id: string, deadline: nat)
    requires id in r.entries
    ensures Less(r, r.Prolong(id, deadline))
  {
  }

  lemma CurrentWithin(v: Vault, r: Registry, q: Request, held: set<nat>)
    requires r.Sound(v)
    ensures var r' := r.Current(q.fingerprint, q.retentionUntil, q.now, held).0; r'.Sound(v) && Less(r, r')
  {
    CurrentSound(v, r, q.fingerprint, q.retentionUntil, q.now, held);
    CurrentLess(r, q, held);
  }

  lemma CurrentLess(r: Registry, q: Request, held: set<nat>)
    ensures Less(r, r.Current(q.fingerprint, q.retentionUntil, q.now, held).0)
  {
    var e := r.Evict(q.now, held);
    if e.Usable(q.fingerprint, q.now).Some? {
      ProlongLess(e, e.Usable(q.fingerprint, q.now).value, q.retentionUntil);
    }
  }

  /** A torn append adds some first records of what it was writing; a completed one adds them all. */
  lemma AppendRead(c: Codec, w: World, k: nat) returns (some: seq<Record>)
    requires c.Lawful() && w.holder.Composed? && (w.needsSeparator || Clean(w.file)) && k <= |Appended(c, w)|
    ensures some <= NewRecords(c, w) && Records(c, w.file + Appended(c, w)[..k]) == Records(c, w.file) + some
    ensures k + 1 < |Appended(c, w)| ==> |some| < |NewRecords(c, w)|
    ensures Records(c, w.file + Appended(c, w)) == Records(c, w.file) + NewRecords(c, w)
    ensures Clean(w.file + Appended(c, w))
  {
    some := TornAppend(c, w.file, w.needsSeparator, NewRecords(c, w), k);
    WholeAppend(c, w.file, w.needsSeparator, NewRecords(c, w));
  }

  lemma RegistryMonotone(v: Vault, c: Codec, r: Registry, records: seq<Record>, more: seq<Record>)
    requires RegistryInv(v, c, r, records)
    ensures RegistryInv(v, c, r, records + more)
  {
    forall id | id in r.entries && r.entries[id].Digest() in r.stored
      ensures InLog(c, records + more, r.SplitAt(id))
    {
      InLogMonotone(c, records, more, r.SplitAt(id));
    }
    forall d | d in r.stored && r.stored[d].persisted
      ensures HasBundle(v, c, records + more, d)
    {
      HasBundleMonotone(v, c, records, more, d);
    }
  }

  lemma WriteKeepsFaith(v: Vault, c: Codec, w: World, a: Action, records: seq<Record>, some: seq<Record>)
    requires Faithful(v, c, w, records) && Enabled(v, c, w, a) && (a.WriteFails? || a.WriteOk?)
    requires some <= NewRecords(c, w) && (a.WriteOk? ==> some == NewRecords(c, w))
    ensures Faithful(v, c, Apply(v, c, w, a), records + some)
  {
    var Composed(q, p, bundlePersisted) := w.holder;
    AppendOrdered(v, c, records, w.nextSeq, q.now, q.fingerprint, q.retentionUntil, p, bundlePersisted, some);
    RegistryMonotone(v, c, w.registry, records, some);
  }

  lemma WriteKeepsLog(v: Vault, c: Codec, w: World, a: Action)
    requires LogInv(v, c, w) && Enabled(v, c, w, a) && (a.WriteFails? || a.WriteOk?)
    ensures LogInv(v, c, Apply(v, c, w, a))
  {
    var torn := AppendRead(c, w, if a.WriteFails? then a.k else 0);
    WriteKeepsFaith(v, c, w, a, Records(c, w.file), if a.WriteFails? then torn else NewRecords(c, w));
  }

  ghost function AfterPublish(w: World): Registry
    requires w.holder.Written?
  {
    var Written(q, p) := w.holder;
    w.registry.Insert(q.fingerprint, p, Max(q.retentionUntil, p.stripped.expiresAt), w.tokens).MarkPersisted(p.digest)
  }

  lemma PublishedSound(v: Vault, w: World)
    requires v.Lawful() && w.registry.Sound(v) && w.holder.Written? && v.genuine(w.holder.p)
    ensures AfterPublish(w).Sound(v)
  {
    var Written(q, p) := w.holder;
    var asked := Max(q.retentionUntil, p.stripped.expiresAt);
    InsertSound(v, w.registry, q.fingerprint, p, asked, w.tokens);
    MarkSound(v, w.registry.Insert(q.fingerprint, p, asked, w.tokens), p.digest);
  }

  lemma PublishedHolds(v: Vault, w: World)
    requires v.Lawful() && w.registry.Sound(v) && w.holder.Written? && v.genuine(w.holder.p)
    ensures var m, p := AfterPublish(w), w.holder.p;
            p.id in m.entries && m.entries[p.id].Digest() == p.digest && p.digest in m.stored && m.SplitAt(p.id) == p
  {
    var Written(q, p) := w.holder;
    InsertBacks(v, w.registry, q.fingerprint, p, Max(q.retentionUntil, p.stripped.expiresAt), w.tokens);
  }

  // Publishing touches nothing but the new session and its bundle.
  lemma PublishedRest(w: World)
    requires w.holder.Written?
    ensures var r, m, p := w.registry, AfterPublish(w), w.holder.p;
            && (forall id :: id in m.entries && id != p.id ==> id in r.entries && m.entries[id] == r.entries[id])
            && (forall d :: d in m.stored && d != p.digest ==> d in r.stored && m.stored[d] == r.stored[d])
            && (forall d :: d in r.stored ==> d in m.stored && m.stored[d].bytes == r.stored[d].bytes)
  {
  }

  lemma PublishedLogged(v: Vault, c: Codec, w: World, records: seq<Record>, id: string)
    requires v.Lawful() && w.registry.Sound(v) && SessionsLogged(c, w.registry, records)
    requires w.holder.Written? && v.genuine(w.holder.p) && InLog(c, records, w.holder.p)
    requires id in AfterPublish(w).entries && AfterPublish(w).entries[id].Digest() in AfterPublish(w).stored
    ensures InLog(c, records, AfterPublish(w).SplitAt(id))
  {
    PublishedHolds(v, w);
    PublishedRest(w);
    if id != w.holder.p.id {
      EntryWhole(v, w.registry, id);
      assert AfterPublish(w).SplitAt(id) == w.registry.SplitAt(id);
    }
  }

  lemma PublishedSessions(v: Vault, c: Codec, w: World, records: seq<Record>)
    requires v.Lawful() && w.registry.Sound(v) && SessionsLogged(c, w.registry, records)
    requires w.holder.Written? && v.genuine(w.holder.p) && InLog(c, records, w.holder.p)
    ensures SessionsLogged(c, AfterPublish(w), records)
  {
    forall id | id in AfterPublish(w).entries && AfterPublish(w).entries[id].Digest() in AfterPublish(w).stored
      ensures InLog(c, records, AfterPublish(w).SplitAt(id))
    {
      PublishedLogged(v, c, w, records, id);
    }
  }

  lemma PublishRegistry(v: Vault, c: Codec, w: World, records: seq<Record>)
    requires v.Lawful() && RegistryInv(v, c, w.registry, records) && w.holder.Written? && HolderInv(v, c, w, records)
    ensures RegistryInv(v, c, AfterPublish(w), records)
  {
    PublishedSound(v, w);
    PublishedSessions(v, c, w, records);
    PublishedPersisted(v, c, w, records);
  }

  lemma PublishedPersisted(v: Vault, c: Codec, w: World, records: seq<Record>)
    requires w.holder.Written? && PersistedLogged(v, c, w.registry, records) && HasBundle(v, c, records, w.holder.p.digest)
    ensures PersistedLogged(v, c, AfterPublish(w), records)
  {
    PublishedRest(w);
  }

  lemma EvictRegistry(v: Vault, c: Codec, r: Registry, now: nat, held: set<nat>, records: seq<Record>)
    requires v.Lawful() && RegistryInv(v, c, r, records)
    ensures RegistryInv(v, c, r.Evict(now, held), records)
  {
    EvictWithin(v, r, now, held);
    WithinLogged(v, c, r, r.Evict(now, held), records);
  }

  lemma PublishKeepsLog(v: Vault, c: Codec, w: World, held: set<nat>, records: seq<Record>)
    requires Faithful(v, c, w, records) && w.holder.Written?
    ensures RegistryInv(v, c, AfterPublish(w).Evict(w.holder.q.now, held), records)
  {
    PublishRegistry(v, c, w, records);
    EvictRegistry(v, c, AfterPublish(w), w.holder.q.now, held, records);
  }

  lemma SnapshotKeepsLog(v: Vault, c: Codec, w: World, a: Action, records: seq<Record>)
    requires Faithful(v, c, w, records) && Enabled(v, c, w, a) && a.CompactSnapshot?
    ensures Faithful(v, c, Apply(v, c, w, a), records)
  {
    var r := CompactFrom(w, a.held);
    EvictWithin(v, w.registry, w.holder.now, a.held);
    ShrinkKeepsLog(v, c, w, r, records);
    CompactComplete(v, c, w.holder.now, r, a.digests, a.ids);
  }

  lemma RenameKeepsLog(v: Vault, c: Codec, w: World, records: seq<Record>)
    requires Faithful(v, c, w, records) && w.holder.Snapshot?
    ensures Faithful(v, c, Apply(v, c, w, CompactRename), w.holder.records)
  {
  }

  lemma MarkAllRegistry(v: Vault, c: Codec, r: Registry, records: seq<Record>)
    requires RegistryInv(v, c, r, records) && BundlesLogged(v, c, r, records)
    ensures RegistryInv(v, c, r.MarkAllPersisted(), records)
  {
    var m := r.MarkAllPersisted();
    MarkSound(v, r, "");
    assert SessionsLogged(c, m, records) by {
      forall id | id in m.entries && m.entries[id].Digest() in m.stored
        ensures InLog(c, records, m.SplitAt(id))
      {
        assert m.SplitAt(id) == r.SplitAt(id);
      }
    }
  }

  // Once the writer lock is released, the log answers for the registry alone.
  lemma ReleaseKeepsLog(v: Vault, c: Codec, w: World, r: Registry, tokens: nat, records: seq<Record>)
    requires Faithful(v, c, w, records) && RegistryInv(v, c, r, records)
    ensures Faithful(v, c, w.(registry := r, holder := Free, tokens := tokens), records)
  {
  }

  // The steps of a caller that does not hold the writer lock.
  lemma ReaderStep(v: Vault, c: Codec, w: World, a: Action, records: seq<Record>)
    requires Faithful(v, c, w, records) && Enabled(v, c, w, a)
    requires a.Arrive? || a.Lookup? || a.Extend? || a.TakeWriter? || a.CompactStart?
    ensures Faithful(v, c, Apply(v, c, w, a), records)
  {
    match a
    case Arrive(q, held) =>
      CurrentWithin(v, w.registry, q, held);
      ShrinkKeepsLog(v, c, w, w.registry.Current(q.fingerprint, q.retentionUntil, q.now, held).0, records);
    case Lookup(now, held) =>
      EvictWithin(v, w.registry, now, held);
      ShrinkKeepsLog(v, c, w, w.registry.Evict(now, held), records);
    case Extend(id, deadline) =>
      ProlongSound(v, w.registry, id, deadline);
      ShrinkKeepsLog(v, c, w, w.registry.Prolong(id, deadline), records);
    case _ =>
  }

  // The steps of the writer that leave the file alone.
  lemma WriterStep(v: Vault, c: Codec, w: World, a: Action, records: seq<Record>)
    requires Faithful(v, c, w, records) && Enabled(v, c, w, a)
    requires a.Recheck? || a.SealFails? || a.SealOk? || a.WriteRefused? || a.CompactFails?
    ensures Faithful(v, c, Apply(v, c, w, a), records)
  {
    match a
    case Recheck(held) =>
      var q := w.holder.q;
      CurrentWithin(v, w.registry, q, held);
      ShrinkKeepsLog(v, c, w, w.registry.Current(q.fingerprint, q.retentionUntil, q.now, held).0, records);
    case _ =>
  }

  ghost predicate Releases(a: Action) {
    a.Publish? || a.CompactFinish?
  }

  ghost function ReleasedRegistry(w: World, a: Action): Registry
    requires (a.Publish? && w.holder.Written?) || (a.CompactFinish? && w.holder.Renamed?)
  {
    if a.Publish? then AfterPublish(w).Evict(w.holder.q.now, a.held) else w.registry.MarkAllPersisted()
  }

  lemma ReleasedIs(v: Vault, c: Codec, w: World, a: Action)
    requires Enabled(v, c, w, a) && Releases(a)
    ensures Apply(v, c, w, a)
            == w.(registry := ReleasedRegistry(w, a), holder := Free, tokens := if a.Publish? then w.tokens + 1 else w.tokens)
  {
  }

  lemma ReleaseStep(v: Vault, c: Codec, w: World, a: Action, records: seq<Record>)
    requires Faithful(v, c, w, records) && Enabled(v, c, w, a) && Releases(a)
    ensures RegistryInv(v, c, ReleasedRegistry(w, a), records)
  {
    if a.Publish? {
      PublishKeepsLog(v, c, w, a.held, records);
    } else {
      MarkAllRegistry(v, c, w.registry, records);
    }
  }

  lemma LogStep(v: Vault, c: Codec, w: World, a: Action)
    requires LogInv(v, c, w) && Enabled(v, c, w, a)
    ensures LogInv(v, c, Apply(v, c, w, a))
  {
    if a.WriteFails? || a.WriteOk? {
      WriteKeepsLog(v, c, w, a);
    } else if a.CompactRename? {
      RenameKeepsLog(v, c, w, Records(c, w.file));
      RecordsOfText(c, w.holder.records);
    } else if Releases(a) {
      ReleasedIs(v, c, w, a);
      ReleaseStep(v, c, w, a, Records(c, w.file));
      ReleaseKeepsLog(v, c, w, ReleasedRegistry(w, a), if a.Publish? then w.tokens + 1 else w.tokens, Records(c, w.file));
    } else if a.CompactSnapshot? {
      SnapshotKeepsLog(v, c, w, a, Records(c, w.file));
    } else if a.Arrive? || a.Lookup? || a.Extend? || a.TakeWriter? || a.CompactStart? {
      ReaderStep(v, c, w, a, Records(c, w.file));
    } else {
      WriterStep(v, c, w, a, Records(c, w.file));
    }
  }

  lemma {:induction false} LogRun(v: Vault, c: Codec, w: World, actions: seq<Action>)
    requires LogInv(v, c, w) && Runs(v, c, w, actions)
    ensures LogInv(v, c, After(v, c, w, actions))
    decreases |actions|
  {
    if actions != [] {
      LogStep(v, c, w, actions[0]);
      LogRun(v, c, Apply(v, c, w, actions[0]), actions[1..]);
    }
  }

  ghost predicate LoggedAs(c: Codec, records: seq<Record>, p: Split, fingerprint: string, until: nat) {
    && records != []
    && var last := records[|records| - 1];
       Carries(c, last, p) && last.fingerprint == Some(fingerprint) && last.retentionUntil == Some(until)
  }

  lemma AppendLogs(v: Vault, c: Codec, w: World, records: seq<Record>)
    requires v.Lawful() && c.Lawful() && w.holder.Composed? && v.genuine(w.holder.p)
    requires w.nextSeq + |NewRecords(c, w)| <= U64_MAX
    ensures var Composed(q, p, _) := w.holder;
            LoggedAs(c, records + NewRecords(c, w), p, q.fingerprint, Max(q.retentionUntil, p.stripped.expiresAt))
  {
    var Composed(q, p, _) := w.holder;
    assert v.Whole(p);
    SplitRecord(c, w.nextSeq + |NewRecords(c, w)| - 1, q.now, q.fingerprint, Max(q.retentionUntil, p.stripped.expiresAt), p);
  }

  lemma PublishIndexes(w: World, held: set<nat>)
    requires w.holder.Written? && w.holder.p.id !in w.registry.entries
    ensures var Written(q, p) := w.holder;
            var r := AfterPublish(w).Evict(q.now, held);
            p.id in r.entries ==>
              && r.entries[p.id].fingerprint == q.fingerprint
              && r.entries[p.id].retentionUntil == Max(q.retentionUntil, p.stripped.expiresAt)
  {
  }

  /**
    What an append wrote is what it indexes: the last record of the file carries
    the session, its channel and the very deadline it is retained until.
   */
  lemma IndexedAsLogged(v: Vault, c: Codec, w: World, held: set<nat>)
    requires LogInv(v, c, w) && Enabled(v, c, w, WriteOk) && w.holder.p.id !in w.registry.entries
    ensures var w1, p := Apply(v, c, w, WriteOk), w.holder.p;
            var r := Apply(v, c, w1, Publish(held)).registry;
            p.id in r.entries ==>
              LoggedAs(c, Records(c, w1.file), p, r.entries[p.id].fingerprint, r.entries[p.id].retentionUntil)
  {
    WrittenAndIndexed(v, c, w, Apply(v, c, w, WriteOk), held);
  }

  lemma WrittenAndIndexed(v: Vault, c: Codec, w: World, w1: World, held: set<nat>)
    requires v.Lawful() && c.Lawful() && w.holder.Composed? && v.genuine(w.holder.p) && (w.needsSeparator || Clean(w.file))
    requires w.nextSeq + |NewRecords(c, w)| <= U64_MAX && w.holder.p.id !in w.registry.entries
    requires w1.holder == Written(w.holder.q, w.holder.p) && w1.registry == w.registry
    requires w1.file == w.file + (Lead(w.needsSeparator) + Text(c, NewRecords(c, w)))
    ensures var r, p := AfterPublish(w1).Evict(w.holder.q.now, held), w.holder.p;
            p.id in r.entries ==>
              LoggedAs(c, Records(c, w1.file), p, r.entries[p.id].fingerprint, r.entries[p.id].retentionUntil)
  {
    WholeAppend(c, w.file, w.needsSeparator, NewRecords(c, w));
    AppendLogs(v, c, w, Records(c, w.file));
    PublishIndexes(w1, held);
  }

  // ---------- marks and numbers ----------

  /** No bundle is in the index without its mark: the log has it. */
  ghost predicate AllMarked(r: Registry) {
    forall d :: d in r.stored ==> r.stored[d].persisted
  }

  lemma MarkedStep(v: Vault, c: Codec, w: World, a: Action)
    requires AllMarked(w.registry) && Enabled(v, c, w, a)
    ensures AllMarked(Apply(v, c, w, a).registry)
  {
    if a.Publish? { PublishedRest(w); }
  }

  lemma {:induction false} MarkedRun(v: Vault, c: Codec, w: World, actions: seq<Action>)
    requires AllMarked(w.registry) && Runs(v, c, w, actions)
    ensures AllMarked(After(v, c, w, actions).registry)
    decreases |actions|
  {
    if actions != [] {
      MarkedStep(v, c, w, actions[0]);
      MarkedRun(v, c, Apply(v, c, w, actions[0]), actions[1..]);
    }
  }

  /** The records are numbered from zero, without gaps. */
  ghost predicate Numbered(records: seq<Record>) {
    forall i :: 0 <= i < |records| ==> records[i].seqNo == i
  }

  ghost predicate NumbersInv(c: Codec, w: World) {
    && Numbered(Records(c, w.file)) && w.nextSeq == |Records(c, w.file)|
    && (w.holder.Snapshot? ==> Numbered(w.holder.records))
  }

  /** A failed write is tame if it left no record behind. */
  ghost predicate Tame(c: Codec, w: World, a: Action) {
    a.WriteFails? && w.holder.Composed? && a.k <= |Appended(c, w)|
    ==> Records(c, w.file + Appended(c, w)[..a.k]) == Records(c, w.file)
  }

  ghost predicate TameRun(v: Vault, c: Codec, w: World, actions: seq<Action>)
    requires Runs(v, c, w, actions)
    decreases |actions|
  {
    actions != [] ==> Tame(c, w, actions[0]) && TameRun(v, c, Apply(v, c, w, actions[0]), actions[1..])
  }

  lemma AppendNumbered(c: Codec, w: World, records: seq<Record>)
    requires w.holder.Composed? && Numbered(records) && w.nextSeq == |records|
    ensures Numbered(records + NewRecords(c, w))
  {
  }

  lemma CompactNumbered(c: Codec, ts: nat, r: Registry, digests: seq<string>, ids: seq<string>)
    requires (forall d :: d in digests ==> d in r.stored) && (forall id :: id in ids ==> id in r.entries)
    ensures Numbered(CompactRecords(c, ts, r, digests, ids)) && |CompactRecords(c, ts, r, digests, ids)| == |digests| + |ids|
  {
  }

  lemma NumbersStep(v: Vault, c: Codec, w: World, a: Action)
    requires LogInv(v, c, w) && NumbersInv(c, w) && Enabled(v, c, w, a) && Tame(c, w, a)
    ensures NumbersInv(c, Apply(v, c, w, a))
  {
    if a.WriteOk? {
      WholeAppend(c, w.file, w.needsSeparator, NewRecords(c, w));
      AppendNumbered(c, w, Records(c, w.file));
    } else if a.CompactSnapshot? {
      CompactNumbered(c, w.holder.now, CompactFrom(w, a.held), a.digests, a.ids);
    } else if a.CompactRename? {
      RecordsOfText(c, w.holder.records);
    }
  }

  lemma {:induction false} NumbersRun(v: Vault, c: Codec, w: World, actions: seq<Action>)
    requires LogInv(v, c, w) && NumbersInv(c, w) && Runs(v, c, w, actions) && TameRun(v, c, w, actions)
    ensures NumbersInv(c, After(v, c, w, actions))
    decreases |actions|
  {
    if actions != [] {
      NumbersStep(v, c, w, actions[0]);
      LogStep(v, c, w, actions[0]);
      NumbersRun(v, c, Apply(v, c, w, actions[0]), actions[1..]);
    }
  }

  // ---------- from startup on ----------

  /**
    The world once `open` has replayed a file and the startup compaction has
    rewritten it. No lease exists yet.
   */
  ghost function Startup(v: Vault, c: Codec, file: seq<byte>, loaded: nat, compacted: nat,
                         digests: seq<string>, ids: seq<string>, tokens: nat): World
    requires Listing(Reopened(v, c, file, loaded).Evict(compacted, {}), digests, ids)
  {
    var r := Reopened(v, c, file, loaded).Evict(compacted, {});
    var records := CompactRecords(c, compacted, r, digests, ids);
    World(r.MarkAllPersisted(), Text(c, records), false, |records|, Free, multiset{}, Max(loaded, compacted), tokens)
  }

  lemma ReopenedSound(v: Vault, c: Codec, file: seq<byte>, now: nat)
    requires v.Lawful()
    ensures Reopened(v, c, file, now).Sound(v) && AllReplayable(Reopened(v, c, file, now))
  {
    var records := Records(c, file);
    ReplayKeeps(v, c, now, records);
    MarkSound(v, ReplayAll(v, c, now, records).registry, "");
    forall id | id in ReplayAll(v, c, now, records).registry.entries
      ensures Replayable(ReplayAll(v, c, now, records).registry.entries[id].contentType)
    {
      ReplayLoadsReplayable(v, c, now, records, id);
    }
  }

  lemma CompactedRegistry(v: Vault, c: Codec, ts: nat, r: Registry, digests: seq<string>, ids: seq<string>)
    requires v.Lawful() && c.Lawful() && r.Sound(v) && Listing(r, digests, ids)
    ensures var records := CompactRecords(c, ts, r, digests, ids);
            Ordered(v, c, records) && RegistryInv(v, c, r.MarkAllPersisted(), records)
  {
    var records := CompactRecords(c, ts, r, digests, ids);
    CompactComplete(v, c, ts, r, digests, ids);
    MarkAllRegistry(v, c, r, records);
  }

  lemma StartupLog(v: Vault, c: Codec, file: seq<byte>, loaded: nat, compacted: nat,
                   digests: seq<string>, ids: seq<string>, tokens: nat)
    requires v.Lawful() && c.Lawful()
    requires Listing(Reopened(v, c, file, loaded).Evict(compacted, {}), digests, ids)
    ensures LogInv(v, c, Startup(v, c, file, loaded, compacted, digests, ids, tokens))
  {
    var o := Reopened(v, c, file, loaded);
    var r := o.Evict(compacted, {});
    ReopenedSound(v, c, file, loaded);
    EvictWithin(v, o, compacted, {});
    CompactedRegistry(v, c, compacted, r, digests, ids);
    RecordsOfText(c, CompactRecords(c, compacted, r, digests, ids));
  }

  /**
    From startup on any bytes at all, in every run, with appends torn at any byte
    and compactions failing at any step: every session record in the file follows
    the record of its bundle; every bundle in the index is marked persisted and is
    in the file; every indexed session has a record there, and reopening the file at a time before
    the retention that record carries serves that session again, byte for byte,
    exactly if its content type is one replay accepts.
   */
  lemma LogTellsTheRegistry(v: Vault, c: Codec, file: seq<byte>, loaded: nat, compacted: nat,
                            digests: seq<string>, ids: seq<string>, tokens: nat, actions: seq<Action>)
    requires v.Lawful() && c.Lawful()
    requires Listing(Reopened(v, c, file, loaded).Evict(compacted, {}), digests, ids)
    requires Runs(v, c, Startup(v, c, file, loaded, compacted, digests, ids, tokens), actions)
    ensures var w := After(v, c, Startup(v, c, file, loaded, compacted, digests, ids, tokens), actions);
            var records := Records(c, w.file);
            && Ordered(v, c, records)
            && (forall d :: d in w.registry.stored ==> w.registry.stored[d].persisted && HasBundle(v, c, records, d))
            && (forall id :: id in w.registry.entries ==> Recoverable(v, c, w, id))
  {
    var start := Startup(v, c, file, loaded, compacted, digests, ids, tokens);
    StartupLog(v, c, file, loaded, compacted, digests, ids, tokens);
    LogRun(v, c, start, actions);
    MarkedRun(v, c, start, actions);
    var w := After(v, c, start, actions);
    forall id | id in w.registry.entries
      ensures Recoverable(v, c, w, id)
    {
      RecoverableFromLog(v, c, w, id);
    }
  }

  /** What reopening the file at `t` serves for session `id`. */
  ghost predicate ServedAgain(v: Vault, c: Codec, w: World, id: string, t: nat)
    requires id in w.registry.entries
  {
    Reopened(v, c, w.file, t).Rebuild(v, id)
    == if Replayable(w.registry.entries[id].contentType) then w.registry.Rebuild(v, id) else None
  }

  /** The file has a record of session `id`, and whichever such record is read in time decides as its content type says. */
  ghost predicate Recoverable(v: Vault, c: Codec, w: World, id: string)
    requires id in w.registry.entries
  {
    var records := Records(c, w.file);
    && w.registry.Rebuild(v, id).Some?
    && w.registry.entries[id].Digest() in w.registry.stored
    && InLog(c, records, w.registry.SplitAt(id))
    && (forall i, t: nat :: 0 <= i < |records| && Carries(c, records[i], w.registry.SplitAt(id))
                            && t < records[i].retentionUntil.value
                            ==> ServedAgain(v, c, w, id, t))
  }

  lemma RecoverableFromLog(v: Vault, c: Codec, w: World, id: string)
    requires LogInv(v, c, w) && id in w.registry.entries
    ensures Recoverable(v, c, w, id)
  {
    var records := Records(c, w.file);
    EntryWhole(v, w.registry, id);
    RebuildTotal(v, w.registry, id);
    var p := w.registry.SplitAt(id);
    forall i, t: nat | 0 <= i < |records| && Carries(c, records[i], p) && t < records[i].retentionUntil.value
      ensures ServedAgain(v, c, w, id, t)
    {
      if Replayable(p.contentType) {
        RecordRebuilds(v, c, w, records, i, t, p);
      } else {
        RefusedStaysOut(v, c, w.file, t, p);
      }
    }
  }

  lemma BundleBefore(v: Vault, c: Codec, records: seq<Record>, i: nat, p: Split) returns (j: nat)
    requires v.Lawful() && Ordered(v, c, records) && v.genuine(p) && i < |records| && Carries(c, records[i], p)
    ensures j < i && Holds(v, c, records[j], p.digest)
  {
    assert v.Whole(p);
    assert NamedDigest(c, records[i]) == Some(p.digest);
    j :| 0 <= j < i && Holds(v, c, records[..i][j], p.digest);
    assert records[..i][j] == records[j];
  }

  lemma RecordRebuilds(v: Vault, c: Codec, w: World, records: seq<Record>, i: nat, t: nat, p: Split)
    requires Faithful(v, c, w, records) && records == Records(c, w.file)
    requires p.id in w.registry.entries && v.genuine(p) && Replayable(p.contentType)
    requires i < |records| && Carries(c, records[i], p) && t < records[i].retentionUntil.value
    ensures Reopened(v, c, w.file, t).Rebuild(v, p.id) == w.registry.Rebuild(v, p.id)
  {
    var j := BundleBefore(v, c, records, i, p);
    ReplayRebuilds(v, c, t, records, j, i, p);
    ReopenedSound(v, c, w.file, t);
    ServesGenuine(v, Reopened(v, c, w.file, t), p);
    ServesGenuine(v, w.registry, p);
  }

  // No file brings back a session whose content type replay refuses: its id can mean no other session.
  lemma RefusedStaysOut(v: Vault, c: Codec, file: seq<byte>, t: nat, p: Split)
    requires v.Lawful() && v.genuine(p) && !Replayable(p.contentType)
    ensures Reopened(v, c, file, t).Rebuild(v, p.id).None?
  {
    ReopenedSound(v, c, file, t);
    var r := Reopened(v, c, file, t);
    InsertAgrees(v, r, p);
    RebuildTotal(v, r, p.id);
  }

  /**
    From startup on any bytes, in every run in which no failed write left a record
    behind, the records of the file are numbered from zero without gap or repeat,
    and the next append goes on from there.
   */
  lemma NumbersAreConsecutive(v: Vault, c: Codec, file: seq<byte>, loaded: nat, compacted: nat,
                              digests: seq<string>, ids: seq<string>, tokens: nat, actions: seq<Action>)
    requires v.Lawful() && c.Lawful()
    requires Listing(Reopened(v, c, file, loaded).Evict(compacted, {}), digests, ids)
    requires Runs(v, c, Startup(v, c, file, loaded, compacted, digests, ids, tokens), actions)
    requires TameRun(v, c, Startup(v, c, file, loaded, compacted, digests, ids, tokens), actions)
    ensures var w := After(v, c, Startup(v, c, file, loaded, compacted, digests, ids, tokens), actions);
            Numbered(Records(c, w.file)) && w.nextSeq == |Records(c, w.file)|
  {
    var start := Startup(v, c, file, loaded, compacted, digests, ids, tokens);
    var r := Reopened(v, c, file, loaded).Evict(compacted, {});
    StartupLog(v, c, file, loaded, compacted, digests, ids, tokens);
    CompactNumbered(c, compacted, r, digests, ids);
    RecordsOfText(c, CompactRecords(c, compacted, r, digests, ids));
    NumbersRun(v, c, start, actions);
  }
}

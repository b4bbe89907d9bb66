/**
  Leases over whole runs (src/aggregator/session_store.rs).

  Several stores live in one process, each opened on a log of its own, which may
  hold anything. Every index operation runs under its
  store's index lock, so a run is a sequence of them, interleaved with leases
  being cloned and dropped. A lease may also be dropped while an eviction pass
  is under way; that drop takes effect either before or after the pass looks at
  the session concerned, so it is one of the orders a run can take.
 */
module LeaseRuns {
  import opened Foundation
  import opened Session
  import opened Vault
  import opened Registry
  import opened SessionLog

  /** A live lease and the store that issued it. */
  datatype Held = Held(store: nat, lease: Lease)

  /** The store and session a token was allocated for. */
  datatype Origin = Origin(store: nat, id: string)

  /** `issued[t]` is the history of allocations: what token `t` was made for. */
  datatype Fleet = Fleet(stores: map<nat, Registry>, leases: multiset<Held>, issued: seq<Origin>)
  {
    /** The tokens whose count is above one: some lease still shares them. */
    ghost function Tokens(): set<nat> {
      set h | h in leases :: h.lease.token
    }

    ghost function Put(k: nat, r: Registry): Fleet {
      this.(stores := stores[k := r])
    }
  }

  datatype Action =
    | Open(k: nat, file: seq<byte>, now: nat)                           // a new store over a log; none is an empty log
    | Lookup(k: nat, now: nat)                                          // get_session, compact: evict
    | Reuse(k: nat, fingerprint: string, retentionUntil: nat, now: nat) // the current session, leased on a hit
    | Admit(k: nat, fingerprint: string, p: Split, retentionUntil: nat, now: nat) // insert, lease, evict
    | Extend(k: nat, h: Held, deadline: nat)                            // by any live lease, at any store
    | Clone(h: Held)
    | Drop(h: Held)

  /** The session `r` indexes under token `t`. */
  ghost function Owner(r: Registry, t: nat): string {
    if exists id :: id in r.entries && r.entries[id].token == t
    then var id :| id in r.entries && r.entries[id].token == t; id else ""
  }

  /** The allocations replay made for store `k`, in order. */
  ghost function Allocations(r: Registry, n: nat, k: nat): seq<Origin> {
    seq(n, t requires 0 <= t < n => Origin(k, Owner(r, t)))
  }

  /** `r` with its tokens moved past the first `n`, which other allocations have. */
  ghost function Offset(r: Registry, n: nat): Registry {
    r.(entries := map id | id in r.entries :: r.entries[id].(token := r.entries[id].token + n))
  }

  /** `p` indexed and leased. */
  ghost function Admitted(f: Fleet, k: nat, fingerprint: string, p: Split, retentionUntil: nat): Fleet
    requires k in f.stores
  {
    var r := f.stores[k].Insert(fingerprint, p, retentionUntil, |f.issued|);
    Fleet(f.stores[k := r],
          f.leases + multiset{Held(k, r.LeaseOf(p.id))},
          if p.id in f.stores[k].entries then f.issued else f.issued + [Origin(k, p.id)])
  }

  ghost predicate Enabled(v: Vault, f: Fleet, a: Action) {
    match a
    case Open(k, _, _) => k !in f.stores
    case Lookup(k, _) => k in f.stores
    case Reuse(k, _, _, _) => k in f.stores
    case Admit(k, _, p, _, _) => k in f.stores && v.genuine(p)
    case Extend(k, h, _) => k in f.stores && h in f.leases
    case Clone(h) => h in f.leases
    case Drop(h) => h in f.leases
  }

  ghost function Apply(v: Vault, c: Codec, f: Fleet, a: Action): Fleet
    requires Enabled(v, f, a)
  {
    match a
    case Open(k, file, now) =>
      var st := ReplayAll(v, c, now, Records(c, file));
      Fleet(f.stores[k := Offset(Reopened(v, c, file, now), |f.issued|)], f.leases,
            f.issued + Allocations(st.registry, st.tokens, k))
    case Lookup(k, now) => f.Put(k, f.stores[k].Evict(now, f.Tokens()))
    case Reuse(k, fingerprint, retentionUntil, now) =>
      var (r, hit) := f.stores[k].Current(fingerprint, retentionUntil, now, f.Tokens());
      var g := f.Put(k, r);
      if hit.None? then g else g.(leases := g.leases + multiset{Held(k, r.LeaseOf(hit.value))})
    case Admit(k, fingerprint, p, retentionUntil, now) =>
      var g := Admitted(f, k, fingerprint, p, retentionUntil);
      g.Put(k, g.stores[k].Evict(now, g.Tokens()))
    case Extend(k, h, deadline) =>
      if f.stores[k].Owns(h.lease) then f.Put(k, f.stores[k].Prolong(h.lease.id, deadline)) else f
    case Clone(h) => f.(leases := f.leases + multiset{h})
    case Drop(h) => f.(leases := f.leases - multiset{h})
  }

  ghost predicate Runs(v: Vault, c: Codec, f: Fleet, actions: seq<Action>)
    decreases |actions|
  {
    actions == [] || (Enabled(v, f, actions[0]) && Runs(v, c, Apply(v, c, f, actions[0]), actions[1..]))
  }

  ghost function After(v: Vault, c: Codec, f: Fleet, actions: seq<Action>): Fleet
    requires Runs(v, c, f, actions)
    decreases |actions|
  {
    if actions == [] then f else After(v, c, Apply(v, c, f, actions[0]), actions[1..])
  }

  /** The lease an action hands out, if it does. */
  ghost function Granted(v: Vault, f: Fleet, a: Action): Option<Held>
    requires Enabled(v, f, a)
  {
    match a
    case Reuse(k, fingerprint, _, now) =>
      var e := f.stores[k].Evict(now, f.Tokens());
      if fingerprint in e.current && e.current[fingerprint] in e.entries
         && now < e.entries[e.current[fingerprint]].stripped.expiresAt
      then
        var entry := e.entries[e.current[fingerprint]];
        Some(Held(k, Lease(e.current[fingerprint], entry.stripped.establishedAt, entry.stripped.expiresAt, entry.token)))
      else None
    case Admit(k, _, p, _, _) =>
      var r := f.stores[k];
      Some(Held(k, Lease(p.id, p.stripped.establishedAt, p.stripped.expiresAt,
                         if p.id in r.entries then r.entries[p.id].token else |f.issued|)))
    case Clone(h) => Some(h)
    case _ => None
  }

  /** Leases come from hits, admissions and clones, one at a time, and go one at a time, when dropped. */
  lemma LeasesCount(v: Vault, c: Codec, f: Fleet, a: Action, h: Held)
    requires Enabled(v, f, a)
    ensures Apply(v, c, f, a).leases[h]
            == f.leases[h] + (if Granted(v, f, a) == Some(h) then 1 else 0) - (if a == Drop(h) then 1 else 0)
  {
  }

  ghost predicate IssuedFor(issued: seq<Origin>, token: nat, k: nat, id: string) {
    token < |issued| && issued[token] == Origin(k, id)
  }

  ghost predicate EntriesIssued(issued: seq<Origin>, k: nat, r: Registry) {
    forall id :: id in r.entries ==> IssuedFor(issued, r.entries[id].token, k, id)
  }

  /** A live lease's session is indexed under the lease's own token. */
  ghost predicate Safe(f: Fleet, h: Held) {
    h.store in f.stores && f.stores[h.store].Owns(h.lease)
  }

  ghost predicate Inv(f: Fleet) {
    && (forall k :: k in f.stores ==> EntriesIssued(f.issued, k, f.stores[k]))
    && (forall h :: h in f.leases ==> Safe(f, h))
  }

  // Eviction passes over every held session.
  lemma EvictKeeps(f: Fleet, k: nat, now: nat)
    requires Inv(f) && k in f.stores
    ensures Inv(f.Put(k, f.stores[k].Evict(now, f.Tokens())))
  {
    var g := f.Put(k, f.stores[k].Evict(now, f.Tokens()));
    forall h | h in g.leases
      ensures Safe(g, h)
    {
      assert Safe(f, h);
      assert h.lease.token in f.Tokens();
    }
  }

  lemma LeaseKeeps(f: Fleet, k: nat, id: string)
    requires Inv(f) && k in f.stores && id in f.stores[k].entries
    ensures Inv(f.(leases := f.leases + multiset{Held(k, f.stores[k].LeaseOf(id))}))
  {
    var g := f.(leases := f.leases + multiset{Held(k, f.stores[k].LeaseOf(id))});
    forall h | h in g.leases
      ensures Safe(g, h)
    {
      assert h in f.leases || h == Held(k, f.stores[k].LeaseOf(id));
      if h in f.leases { assert Safe(f, h); }
    }
  }

  lemma ProlongKeeps(f: Fleet, k: nat, id: string, deadline: nat)
    requires Inv(f) && k in f.stores && id in f.stores[k].entries
    ensures Inv(f.Put(k, f.stores[k].Prolong(id, deadline)))
  {
    var g := f.Put(k, f.stores[k].Prolong(id, deadline));
    forall h | h in g.leases
      ensures Safe(g, h)
    {
      assert Safe(f, h);
    }
  }

  lemma InsertKeeps(f: Fleet, k: nat, fingerprint: string, p: Split, retentionUntil: nat)
    requires Inv(f) && k in f.stores
    ensures var r := f.stores[k].Insert(fingerprint, p, retentionUntil, |f.issued|);
            var issued := if p.id in f.stores[k].entries then f.issued else f.issued + [Origin(k, p.id)];
            Inv(Fleet(f.stores[k := r], f.leases, issued))
  {
    var r := f.stores[k].Insert(fingerprint, p, retentionUntil, |f.issued|);
    var issued := if p.id in f.stores[k].entries then f.issued else f.issued + [Origin(k, p.id)];
    var g := Fleet(f.stores[k := r], f.leases, issued);
    forall j | j in g.stores
      ensures EntriesIssued(issued, j, g.stores[j])
    {
      assert EntriesIssued(f.issued, j, f.stores[j]);
    }
    forall h | h in g.leases
      ensures Safe(g, h)
    {
      assert Safe(f, h);
    }
  }

  lemma SubsetKeeps(f: Fleet, leases: multiset<Held>)
    requires Inv(f) && forall h :: h in leases ==> h in f.leases
    ensures Inv(f.(leases := leases))
  {
    forall h | h in leases
      ensures Safe(f.(leases := leases), h)
    {
      assert Safe(f, h);
    }
  }

  lemma HitKeeps(g: Fleet, k: nat, id: string, deadline: nat)
    requires Inv(g) && k in g.stores && id in g.stores[k].entries
    ensures var r := g.stores[k].Prolong(id, deadline);
            var g' := g.Put(k, r); Inv(g'.(leases := g'.leases + multiset{Held(k, r.LeaseOf(id))}))
  {
    var r := g.stores[k].Prolong(id, deadline);
    ProlongKeeps(g, k, id, deadline);
    LeaseKeeps(g.Put(k, r), k, id);
  }

  lemma PutTwice(f: Fleet, k: nat, a: Registry, b: Registry)
    ensures f.Put(k, a).Put(k, b) == f.Put(k, b)
  {
  }

  lemma ReuseKeeps(v: Vault, c: Codec, f: Fleet, k: nat, fingerprint: string, retentionUntil: nat, now: nat)
    requires Inv(f) && k in f.stores
    ensures Inv(Apply(v, c, f, Reuse(k, fingerprint, retentionUntil, now)))
  {
    var e := f.stores[k].Evict(now, f.Tokens());
    var hit := e.Usable(fingerprint, now);
    EvictKeeps(f, k, now);
    if hit.Some? {
      HitKeeps(f.Put(k, e), k, hit.value, retentionUntil);
      PutTwice(f, k, e, e.Prolong(hit.value, retentionUntil));
    }
  }

  lemma AdmitKeeps(v: Vault, c: Codec, f: Fleet, k: nat, fingerprint: string, p: Split, retentionUntil: nat, now: nat)
    requires Inv(f) && k in f.stores && v.genuine(p)
    ensures Inv(Apply(v, c, f, Admit(k, fingerprint, p, retentionUntil, now)))
  {
    var r := f.stores[k].Insert(fingerprint, p, retentionUntil, |f.issued|);
    var issued := if p.id in f.stores[k].entries then f.issued else f.issued + [Origin(k, p.id)];
    InsertKeeps(f, k, fingerprint, p, retentionUntil);
    var g := Fleet(f.stores[k := r], f.leases, issued);
    LeaseKeeps(g, k, p.id);
    EvictKeeps(g.(leases := g.leases + multiset{Held(k, r.LeaseOf(p.id))}), k, now);
  }

  /** Different sessions have different tokens, all below `n`. */
  ghost predicate Apart(r: Registry, n: nat) {
    && (forall id :: id in r.entries ==> r.entries[id].token < n)
    && (forall a, b :: a in r.entries && b in r.entries && r.entries[a].token == r.entries[b].token ==> a == b)
  }

  lemma {:induction false} ReplayApart(v: Vault, c: Codec, now: nat, records: seq<Record>)
    ensures var st := ReplayAll(v, c, now, records); Apart(st.registry, st.tokens)
  {
    if records != [] { ReplayApart(v, c, now, records[..|records| - 1]); }
  }

  lemma OwnerOf(r: Registry, n: nat, id: string)
    requires Apart(r, n) && id in r.entries
    ensures Owner(r, r.entries[id].token) == id
  {
  }

  lemma OffsetIssued(r: Registry, n: nat, k: nat, issued: seq<Origin>)
    requires Apart(r, n)
    ensures EntriesIssued(issued + Allocations(r, n, k), k, Offset(r.MarkAllPersisted(), |issued|))
  {
    var r' := Offset(r.MarkAllPersisted(), |issued|);
    forall id | id in r'.entries
      ensures IssuedFor(issued + Allocations(r, n, k), r'.entries[id].token, k, id)
    {
      OwnerOf(r, n, id);
      assert (issued + Allocations(r, n, k))[|issued| + r.entries[id].token] == Allocations(r, n, k)[r.entries[id].token];
    }
  }

  lemma IssuedMore(issued: seq<Origin>, more: seq<Origin>, k: nat, r: Registry)
    requires EntriesIssued(issued, k, r)
    ensures EntriesIssued(issued + more, k, r)
  {
  }

  // A store opened on any log has tokens of its own.
  lemma OpenKeeps(v: Vault, c: Codec, f: Fleet, k: nat, file: seq<byte>, now: nat)
    requires Inv(f) && k !in f.stores
    ensures Inv(Apply(v, c, f, Open(k, file, now)))
  {
    var st, g := ReplayAll(v, c, now, Records(c, file)), Apply(v, c, f, Open(k, file, now));
    ReplayApart(v, c, now, Records(c, file));
    OffsetIssued(st.registry, st.tokens, k, f.issued);
    forall j | j in f.stores
      ensures EntriesIssued(g.issued, j, f.stores[j])
    {
      IssuedMore(f.issued, Allocations(st.registry, st.tokens, k), j, f.stores[j]);
    }
    forall h | h in g.leases
      ensures Safe(g, h)
    {
      assert Safe(f, h);
    }
  }

  lemma StepKeeps(v: Vault, c: Codec, f: Fleet, a: Action)
    requires Inv(f) && Enabled(v, f, a)
    ensures Inv(Apply(v, c, f, a))
  {
    match a
    case Open(k, file, now) => OpenKeeps(v, c, f, k, file, now);
    case Lookup(k, now) => EvictKeeps(f, k, now);
    case Reuse(k, fingerprint, retentionUntil, now) => ReuseKeeps(v, c, f, k, fingerprint, retentionUntil, now);
    case Admit(k, fingerprint, p, retentionUntil, now) => AdmitKeeps(v, c, f, k, fingerprint, p, retentionUntil, now);
    case Extend(k, h, deadline) =>
      if f.stores[k].Owns(h.lease) { ProlongKeeps(f, k, h.lease.id, deadline); }
    case Clone(h) => SubsetKeeps(f, f.leases + multiset{h});
    case Drop(h) => SubsetKeeps(f, f.leases - multiset{h});
  }

  lemma {:induction false} RunKeeps(v: Vault, c: Codec, f: Fleet, actions: seq<Action>)
    requires Inv(f) && Runs(v, c, f, actions)
    ensures Inv(After(v, c, f, actions))
    decreases |actions|
  {
    if actions != [] {
      StepKeeps(v, c, f, actions[0]);
      RunKeeps(v, c, Apply(v, c, f, actions[0]), actions[1..]);
    }
  }

  // ---------- every session stays whole ----------

  ghost predicate Whole(v: Vault, f: Fleet) {
    forall k :: k in f.stores ==> f.stores[k].Sound(v)
  }

  lemma OffsetSound(v: Vault, r: Registry, n: nat)
    requires r.Sound(v)
    ensures Offset(r, n).Sound(v)
  {
    forall d | d in r.stored
      ensures Offset(r, n).Citing(d) == r.Citing(d)
    {
    }
    WithinSound(v, r, Offset(r, n));
  }

  lemma OpenSound(v: Vault, c: Codec, file: seq<byte>, now: nat, n: nat)
    requires v.Lawful()
    ensures Offset(Reopened(v, c, file, now), n).Sound(v)
  {
    var r := ReplayAll(v, c, now, Records(c, file)).registry;
    ReplayKeeps(v, c, now, Records(c, file));
    MarkSound(v, r, "");
    OffsetSound(v, r.MarkAllPersisted(), n);
  }

  lemma PutWhole(v: Vault, f: Fleet, k: nat, r: Registry)
    requires Whole(v, f) && r.Sound(v)
    ensures Whole(v, f.Put(k, r))
  {
  }

  lemma EvictWhole(v: Vault, f: Fleet, k: nat, now: nat)
    requires Whole(v, f) && k in f.stores
    ensures Whole(v, f.Put(k, f.stores[k].Evict(now, f.Tokens())))
  {
    WithoutSound(v, f.stores[k], f.stores[k].Lapsed(now, f.Tokens()));
    PutWhole(v, f, k, f.stores[k].Evict(now, f.Tokens()));
  }

  lemma AdmittedWhole(v: Vault, f: Fleet, k: nat, fingerprint: string, p: Split, retentionUntil: nat)
    requires v.Lawful() && Whole(v, f) && k in f.stores && v.genuine(p)
    ensures Whole(v, Admitted(f, k, fingerprint, p, retentionUntil))
  {
    var r := f.stores[k].Insert(fingerprint, p, retentionUntil, |f.issued|);
    InsertSound(v, f.stores[k], fingerprint, p, retentionUntil, |f.issued|);
    PutWhole(v, f, k, r);
  }

  lemma ReuseWhole(v: Vault, c: Codec, f: Fleet, k: nat, fingerprint: string, retentionUntil: nat, now: nat)
    requires v.Lawful() && Whole(v, f) && k in f.stores
    ensures Whole(v, Apply(v, c, f, Reuse(k, fingerprint, retentionUntil, now)))
  {
    var r := f.stores[k].Current(fingerprint, retentionUntil, now, f.Tokens()).0;
    CurrentSound(v, f.stores[k], fingerprint, retentionUntil, now, f.Tokens());
    PutWhole(v, f, k, r);
  }

  lemma OpenWhole(v: Vault, c: Codec, f: Fleet, k: nat, file: seq<byte>, now: nat)
    requires v.Lawful() && Whole(v, f) && k !in f.stores
    ensures Whole(v, Apply(v, c, f, Open(k, file, now)))
  {
    OpenSound(v, c, file, now, |f.issued|);
    PutWhole(v, f, k, Offset(Reopened(v, c, file, now), |f.issued|));
  }

  lemma StepWhole(v: Vault, c: Codec, f: Fleet, a: Action)
    requires v.Lawful() && Whole(v, f) && Enabled(v, f, a)
    ensures Whole(v, Apply(v, c, f, a))
  {
    match a
    case Open(k, file, now) => OpenWhole(v, c, f, k, file, now);
    case Lookup(k, now) => EvictWhole(v, f, k, now);
    case Reuse(k, fingerprint, retentionUntil, now) => ReuseWhole(v, c, f, k, fingerprint, retentionUntil, now);
    case Admit(k, fingerprint, p, retentionUntil, now) =>
      AdmittedWhole(v, f, k, fingerprint, p, retentionUntil);
      EvictWhole(v, Admitted(f, k, fingerprint, p, retentionUntil), k, now);
    case Extend(k, h, deadline) =>
      if f.stores[k].Owns(h.lease) {
        ProlongSound(v, f.stores[k], h.lease.id, deadline);
        PutWhole(v, f, k, f.stores[k].Prolong(h.lease.id, deadline));
      }
    case Clone(_) =>
    case Drop(_) =>
  }

  lemma {:induction false} RunWhole(v: Vault, c: Codec, f: Fleet, actions: seq<Action>)
    requires v.Lawful() && Whole(v, f) && Runs(v, c, f, actions)
    ensures Whole(v, After(v, c, f, actions))
    decreases |actions|
  {
    if actions != [] {
      StepWhole(v, c, f, actions[0]);
      RunWhole(v, c, Apply(v, c, f, actions[0]), actions[1..]);
    }
  }

  /** Stores of whole sessions, each with tokens of its own, and nothing leased yet. */
  ghost predicate Start(v: Vault, f: Fleet) {
    && f.leases == multiset{}
    && forall k :: k in f.stores ==> EntriesIssued(f.issued, k, f.stores[k]) && f.stores[k].Sound(v)
  }

  lemma Served(v: Vault, c: Codec, f: Fleet, actions: seq<Action>, h: Held, now: nat)
    requires v.Lawful() && Start(v, f) && Runs(v, c, f, actions) && h in After(v, c, f, actions).leases
    ensures var g := After(v, c, f, actions);
            && h.store in g.stores
            && var r := g.stores[h.store];
               var e := r.Evict(now, g.Tokens());
               && r.Owns(h.lease) && h.lease.id in e.entries
               && e.Rebuild(v, h.lease.id).Some? && e.Rebuild(v, h.lease.id) == r.Rebuild(v, h.lease.id)
               && e.Rebuild(v, h.lease.id).value.id == h.lease.id
  {
    var g := After(v, c, f, actions);
    RunKeeps(v, c, f, actions);
    RunWhole(v, c, f, actions);
    assert Safe(g, h);
    EvictKeeps(g, h.store, now);
    var r := g.stores[h.store];
    var e := r.Evict(now, g.Tokens());
    assert Safe(g.Put(h.store, e), h);
    WithoutWithin(r, r.Lapsed(now, g.Tokens()));
    WithoutSound(v, r, r.Lapsed(now, g.Tokens()));
    RebuildTotal(v, e, h.lease.id);
    assert SameSession(r, e, h.lease.id);
    EntryWhole(v, r, h.lease.id);
  }

  /**
    In every run of stores opened on any logs, at any time, while any clone of a
    lease lives: its session stays indexed under the lease's token, so extension
    at the issuing store never errs; no eviction at any time, however late,
    removes it or its bundle, so lookup by id serves it whole and unchanged; and
    every other store refuses the lease.
   */
  lemma LeaseSafety(v: Vault, c: Codec, f: Fleet, actions: seq<Action>, h: Held, now: nat, k: nat)
    requires v.Lawful() && Start(v, f) && Runs(v, c, f, actions)
    requires h in After(v, c, f, actions).leases
    requires k in After(v, c, f, actions).stores
    ensures var g := After(v, c, f, actions);
            && h.store in g.stores
            && g.stores[h.store].Owns(h.lease)
            && (g.stores[k].Owns(h.lease) <==> k == h.store)
            && var kept := g.stores[h.store].Evict(now, g.Tokens()).Rebuild(v, h.lease.id);
               kept.Some? && kept.value.id == h.lease.id && kept == g.stores[h.store].Rebuild(v, h.lease.id)
  {
    var g := After(v, c, f, actions);
    RunKeeps(v, c, f, actions);
    Served(v, c, f, actions, h, now);
    if g.stores[k].Owns(h.lease) {
      assert EntriesIssued(g.issued, k, g.stores[k]);
      assert EntriesIssued(g.issued, h.store, g.stores[h.store]);
      assert IssuedFor(g.issued, h.lease.token, k, h.lease.id);
      assert IssuedFor(g.issued, h.lease.token, h.store, h.lease.id);
    }
  }
}

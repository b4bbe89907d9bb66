/**
  The in-memory session index (src/aggregator/session_store.rs): four maps
  changed in place, which must agree exactly. Each method is proved against the
  `Registry` operation of the same meaning.
 */
module SessionIndex {
  import opened Foundation
  import opened Session
  import opened Vault
  import opened Registry

  datatype Bundle = Bundle(bytes: seq<byte>, citers: nat, persisted: bool)

  type Buckets = map<nat, set<string>>

  function BucketAt(buckets: Buckets, deadline: nat): set<string> {
    if deadline in buckets then buckets[deadline] else {}
  }

  function AddHint(buckets: Buckets, id: string, deadline: nat): Buckets {
    buckets[deadline := BucketAt(buckets, deadline) + {id}]
  }

  function DropHint(buckets: Buckets, id: string, deadline: nat): Buckets {
    if deadline !in buckets then buckets
    else if buckets[deadline] - {id} == {} then buckets - {deadline}
    else buckets[deadline := buckets[deadline] - {id}]
  }

  /** The ids whose deadline is `deadline`, apart from those set aside. */
  ghost function Due(entries: map<string, Entry>, deadline: nat, aside: set<string>): set<string> {
    set id | id in entries && entries[id].retentionUntil == deadline && id !in aside
  }

  /** Every bucket holds precisely the ids of its deadline, and none is empty. */
  ghost predicate BucketsAgree(buckets: Buckets, entries: map<string, Entry>, aside: set<string>) {
    && (forall t :: t in buckets ==> buckets[t] != {})
    && (forall t :: BucketAt(buckets, t) == Due(entries, t, aside))
  }

  /** Every session names a bundle; a bundle exists exactly while some session cites it, and counts those that do. */
  ghost predicate CitersAgree(bundles: map<string, Bundle>, entries: map<string, Entry>) {
    && (forall id :: id in entries ==> entries[id].stripped.evidence.digest.Some? && entries[id].Digest() in bundles)
    && (forall d :: d in bundles ==> bundles[d].citers == |Citing(entries, d)| >= 1)
  }

  ghost function Citing(entries: map<string, Entry>, digest: string): set<string> {
    set id | id in entries && entries[id].Digest() == digest
  }

  ghost function StoredOf(bundles: map<string, Bundle>): map<string, Stored> {
    map d | d in bundles :: Stored(bundles[d].bytes, bundles[d].persisted)
  }

  lemma CountAfterAdd(entries: map<string, Entry>, id: string, e: Entry, d: string)
    requires id in entries ==> entries[id].Digest() == e.Digest()
    ensures |Citing(entries[id := e], d)|
            == |Citing(entries, d)| + (if d == e.Digest() && id !in entries then 1 else 0)
  {
    if d == e.Digest() && id !in entries {
      assert Citing(entries[id := e], d) == Citing(entries, d) + {id};
    } else {
      assert Citing(entries[id := e], d) == Citing(entries, d);
    }
  }

  lemma CountAfterForget(entries: map<string, Entry>, id: string, d: string)
    requires id in entries
    ensures |Citing(entries - {id}, d)| == |Citing(entries, d)| - (if d == entries[id].Digest() then 1 else 0)
  {
    if d == entries[id].Digest() {
      assert id in Citing(entries, d);
      assert Citing(entries - {id}, d) == Citing(entries, d) - {id};
    } else {
      assert Citing(entries - {id}, d) == Citing(entries, d);
    }
  }

  // Adding an entry moves one count at most; so does replacing one by another that cites the same bundle.
  lemma CitersAfterReplace(bundles: map<string, Bundle>, entries: map<string, Entry>, id: string, e: Entry)
    requires CitersAgree(bundles, entries)
    requires e.stripped.evidence.digest.Some?
    requires id in entries && entries[id].Digest() == e.Digest()
    ensures CitersAgree(bundles, entries[id := e])
  {
    forall d | d in bundles
      ensures bundles[d].citers == |Citing(entries[id := e], d)|
    {
      CountAfterAdd(entries, id, e, d);
    }
  }

  lemma CitersAfterAdd(bundles: map<string, Bundle>, entries: map<string, Entry>, id: string, e: Entry, b: Bundle)
    requires CitersAgree(bundles, entries)
    requires e.stripped.evidence.digest.Some? && id !in entries
    requires if e.Digest() in bundles then b == bundles[e.Digest()] else b.citers == 0
    ensures CitersAgree(bundles[e.Digest() := b.(citers := b.citers + 1)], entries[id := e])
  {
    var bundles' := bundles[e.Digest() := b.(citers := b.citers + 1)];
    if e.Digest() !in bundles {
      assert Citing(entries, e.Digest()) == {};
    }
    forall d | d in bundles'
      ensures bundles'[d].citers == |Citing(entries[id := e], d)| >= 1
    {
      CountAfterAdd(entries, id, e, d);
    }
  }

  // No other bundle will do: one count would be left too high.
  lemma ReplaceExactly(bundles: map<string, Bundle>, entries: map<string, Entry>, id: string, e: Entry)
    requires CitersAgree(bundles, entries) && id in entries
    ensures CitersAgree(bundles, entries[id := e]) <==> e.stripped.evidence.digest == Some(entries[id].Digest())
  {
    var was := entries[id].Digest();
    if e.stripped.evidence.digest == Some(was) {
      CitersAfterReplace(bundles, entries, id, e);
    } else if e.stripped.evidence.digest.Some? {
      CountAfterForget(entries, id, was);
      assert Citing(entries[id := e], was) == Citing(entries - {id}, was);
    } else {
      assert entries[id := e][id] == e;
    }
  }

  lemma AddExactly(bundles: map<string, Bundle>, entries: map<string, Entry>, id: string, e: Entry, digest: string,
                   b: Bundle)
    requires CitersAgree(bundles, entries) && id !in entries
    requires if digest in bundles then b == bundles[digest] else b.citers == 0
    ensures CitersAgree(bundles[digest := b.(citers := b.citers + 1)], entries[id := e])
            <==> e.stripped.evidence.digest == Some(digest)
  {
    if e.stripped.evidence.digest == Some(digest) {
      CitersAfterAdd(bundles, entries, id, e, b);
    } else if e.stripped.evidence.digest.Some? {
      assert Citing(entries[id := e], digest) == Citing(entries, digest);
      if digest !in bundles { assert Citing(entries, digest) == {}; }
    } else {
      assert entries[id := e][id] == e;
    }
  }

  lemma CitersAfterForget(bundles: map<string, Bundle>, entries: map<string, Entry>, id: string)
    requires CitersAgree(bundles, entries) && id in entries
    ensures var d := entries[id].Digest();
            && d in bundles && bundles[d].citers >= 1
            && CitersAgree(if bundles[d].citers == 1 then bundles - {d}
                           else bundles[d := bundles[d].(citers := bundles[d].citers - 1)], entries - {id})
  {
    var digest := entries[id].Digest();
    var bundles' := if bundles[digest].citers == 1 then bundles - {digest}
                    else bundles[digest := bundles[digest].(citers := bundles[digest].citers - 1)];
    forall d | d in bundles'
      ensures bundles'[d].citers == |Citing(entries - {id}, d)| >= 1
    {
      CountAfterForget(entries, id, d);
    }
    CountAfterForget(entries, id, digest);
    forall i | i in entries - {id}
      ensures entries[i].Digest() in bundles'
    {
      if entries[i].Digest() == digest { assert i in Citing(entries - {id}, digest); }
    }
  }

  // Moving an id to another deadline, or giving it its first one.
  lemma BucketsAfterMove(buckets: Buckets, entries: map<string, Entry>, id: string, e: Entry)
    requires BucketsAgree(buckets, entries, {})
    ensures id !in entries ==> BucketsAgree(AddHint(buckets, id, e.retentionUntil), entries[id := e], {})
    ensures id in entries ==>
              BucketsAgree(AddHint(DropHint(buckets, id, entries[id].retentionUntil), id, e.retentionUntil),
                           entries[id := e], {})
  {
    var dropped := if id in entries then DropHint(buckets, id, entries[id].retentionUntil) else buckets;
    forall t
      ensures BucketAt(AddHint(dropped, id, e.retentionUntil), t) == Due(entries[id := e], t, {})
    {
      assert BucketAt(buckets, t) == Due(entries, t, {});
    }
  }

  // Taking a whole bucket out, putting one of its ids back, and losing one of them.
  lemma BucketsAfterTake(buckets: Buckets, entries: map<string, Entry>, deadline: nat)
    requires BucketsAgree(buckets, entries, {})
    ensures BucketAt(buckets, deadline) == Due(entries, deadline, {})
    ensures BucketsAgree(buckets - {deadline}, entries, Due(entries, deadline, {}))
  {
    var ids := Due(entries, deadline, {});
    forall t
      ensures BucketAt(buckets - {deadline}, t) == Due(entries, t, ids)
    {
      assert BucketAt(buckets, t) == Due(entries, t, {});
    }
  }

  lemma BucketsAfterReturn(buckets: Buckets, entries: map<string, Entry>, id: string, aside: set<string>)
    requires BucketsAgree(buckets, entries, aside) && id in aside && id in entries
    ensures BucketsAgree(AddHint(buckets, id, entries[id].retentionUntil), entries, aside - {id})
  {
    forall t
      ensures BucketAt(AddHint(buckets, id, entries[id].retentionUntil), t) == Due(entries, t, aside - {id})
    {
      assert BucketAt(buckets, t) == Due(entries, t, aside);
    }
  }

  lemma BucketsAfterForget(buckets: Buckets, entries: map<string, Entry>, id: string, aside: set<string>)
    requires BucketsAgree(buckets, entries, aside) && id in aside
    ensures BucketsAgree(buckets, entries - {id}, aside - {id})
  {
    forall t
      ensures BucketAt(buckets, t) == Due(entries - {id}, t, aside - {id})
    {
      assert Due(entries - {id}, t, aside - {id}) == Due(entries, t, aside);
    }
  }

  lemma StoredAfterAdd(r: Registry, bundles: map<string, Bundle>, fingerprint: string, p: Split,
                       retentionUntil: nat, newToken: nat, b: Bundle)
    requires r.stored == StoredOf(bundles) && p.id !in r.entries
    requires if p.digest in bundles then b == bundles[p.digest] else b == Bundle(p.bundle, 0, false)
    ensures StoredOf(bundles[p.digest := b.(citers := b.citers + 1)])
            == r.Insert(fingerprint, p, retentionUntil, newToken).stored
  {
  }

  lemma StoredAfterForget(r: Registry, bundles: map<string, Bundle>, bundles': map<string, Bundle>, id: string)
    requires id in r.entries && r.stored == StoredOf(bundles) && CitersAgree(bundles, r.entries)
    requires var d := r.entries[id].Digest();
             && d in bundles
             && bundles' == if bundles[d].citers == 1 then bundles - {d}
                            else bundles[d := bundles[d].(citers := bundles[d].citers - 1)]
    ensures StoredOf(bundles') == r.Without({id}).stored
  {
    var digest := r.entries[id].Digest();
    LastCiter(r, bundles, id);
    forall d | d in bundles && d != digest
      ensures r.Citing(d) - {id} != {}
    {
      OthersStillCite(r, id, d);
    }
    assert StoredOf(bundles').Keys == r.Without({id}).stored.Keys;
  }

  lemma LastCiter(r: Registry, bundles: map<string, Bundle>, id: string)
    requires id in r.entries && CitersAgree(bundles, r.entries)
    ensures bundles[r.entries[id].Digest()].citers == 1 <==> r.Citing(r.entries[id].Digest()) - {id} == {}
  {
    var digest := r.entries[id].Digest();
    CountAfterForget(r.entries, id, digest);
    assert r.Citing(digest) - {id} == Citing(r.entries - {id}, digest);
  }

  lemma OthersStillCite(r: Registry, id: string, d: string)
    requires id in r.entries && r.entries[id].Digest() != d && |Citing(r.entries, d)| >= 1
    ensures r.Citing(d) - {id} != {}
  {
    assert r.Citing(d) - {id} == Citing(r.entries, d);
  }

  lemma CurrentAfterForget(r: Registry, id: string, current': map<string, string>)
    requires id in r.entries
    requires var fp := r.entries[id].fingerprint;
             current' == if fp in r.current && r.current[fp] == id then r.current - {fp} else r.current
    ensures current' == r.Without({id}).current
  {
  }

  lemma NoneUncited(r: Registry, bundles: map<string, Bundle>)
    requires r.stored == StoredOf(bundles) && CitersAgree(bundles, r.entries)
    ensures forall d :: d in r.stored ==> r.Citing(d) != {}
  {
    forall d | d in r.stored
      ensures r.Citing(d) != {}
    {
      assert r.Citing(d) == Citing(r.entries, d);
    }
  }

  /** Those of `ids` that no lease keeps. */
  ghost function Released(r: Registry, ids: set<string>, held: set<nat>): set<string> {
    set id | id in ids && id in r.entries && r.entries[id].token !in held
  }

  /** The lapsed, unheld sessions whose deadline is not among `deadlines`. */
  ghost function LapsedOutside(r: Registry, now: nat, held: set<nat>, deadlines: set<nat>): set<string> {
    set id | id in r.Lapsed(now, held) && r.entries[id].retentionUntil !in deadlines
  }

  lemma EvictStart(r: Registry, buckets: Buckets, now: nat, held: set<nat>)
    requires BucketsAgree(buckets, r.entries, {})
    ensures LapsedOutside(r, now, held, set t | t in buckets && t <= now) == {}
  {
    forall id | id in r.entries && r.entries[id].retentionUntil <= now
      ensures r.entries[id].retentionUntil in buckets
    {
      BucketsAfterTake(buckets, r.entries, r.entries[id].retentionUntil);
      assert id in BucketAt(buckets, r.entries[id].retentionUntil);
    }
  }

  lemma EvictStep(r: Registry, now: nat, held: set<nat>, deadlines: set<nat>, deadline: nat)
    requires deadline in deadlines && deadline <= now
    ensures var r' := r.Without(LapsedOutside(r, now, held, deadlines));
            r'.Without(Released(r', Due(r'.entries, deadline, {}), held))
            == r.Without(LapsedOutside(r, now, held, deadlines - {deadline}))
  {
    var before := LapsedOutside(r, now, held, deadlines);
    var r' := r.Without(before);
    var more := Released(r', Due(r'.entries, deadline, {}), held);
    assert LapsedOutside(r, now, held, deadlines - {deadline}) == before + more;
    WithoutCompose(r, before, more);
  }

  lemma ReleasedNone(r: Registry, due: set<string>, ids: set<string>, held: set<nat>)
    requires due <= ids
    ensures Released(r, due - ids, held) == {}
  {
  }

  lemma ReleasedMore(r: Registry, due: set<string>, ids: set<string>, id: string, held: set<nat>)
    requires id in ids && ids <= due <= r.entries.Keys
    ensures var r' := r.Without(Released(r, due - ids, held));
            && id in r'.entries && r'.entries[id] == r.entries[id]
            && r.Without(Released(r, due - (ids - {id}), held)) == if r.entries[id].token in held then r' else r'.Without({id})
  {
    var before, after := Released(r, due - ids, held), Released(r, due - (ids - {id}), held);
    if r.entries[id].token in held {
      assert after == before;
    } else {
      assert after == before + {id};
      WithoutCompose(r, before, {id});
    }
  }

  class SessionIndex {
    var byId: map<string, Entry>
    var byFingerprint: map<string, string>
    var byRetention: Buckets
    var bundles: map<string, Bundle>

    ghost function View(): Registry
      reads this
    {
      Registry(byId, byFingerprint, StoredOf(bundles))
    }

    /** The maps agree, apart from ids taken out of their bucket for the moment. */
    ghost predicate ValidExcept(aside: set<string>)
      reads this
    {
      BucketsAgree(byRetention, byId, aside) && CitersAgree(bundles, byId)
    }

    /** The four maps agree: buckets, citation counts and bundles are exactly what the entries make them. */
    ghost predicate Valid()
      reads this
    {
      ValidExcept({})
    }

    constructor ()
      ensures Valid() && View() == Empty
    {
      byId, byFingerprint, byRetention, bundles := map[], map[], map[], map[];
    }

    method DropRetentionHint(id: string, deadline: nat)
      modifies this`byRetention
      ensures byRetention == DropHint(old(byRetention), id, deadline)
    {
      if deadline in byRetention {
        var ids := byRetention[deadline] - {id};
        byRetention := byRetention[deadline := ids];
        if ids == {} {
          byRetention := byRetention - {deadline};
          assert byRetention == old(byRetention) - {deadline};
        }
      }
    }

    /** `p` names the bundle that will be counted for it: the one stored under its id, or its own. */
    ghost predicate Consistent(p: Split)
      reads this
    {
      p.stripped.evidence.digest == Some(if p.id in byId then byId[p.id].Digest() else p.digest)
    }

    /** The maps agree afterwards exactly if `p` is consistent with what is stored; the buckets always do. */
    method Insert(fingerprint: string, p: Split, retentionUntil: nat, newToken: nat)
      requires Valid()
      modifies this
      ensures View() == old(View()).Insert(fingerprint, p, retentionUntil, newToken)
      ensures BucketsAgree(byRetention, byId, {}) && (Valid() <==> old(Consistent(p)))
    {
      ghost var r := View();
      var asked := Max(retentionUntil, p.stripped.expiresAt);
      var previous := if p.id in byId then Some(byId[p.id]) else None;
      var entry := Entry(p.stripped, p.contentType, fingerprint,
                         if previous.Some? then Max(previous.value.retentionUntil, asked) else asked,
                         if previous.Some? then previous.value.token else newToken);
      BucketsAfterMove(byRetention, byId, p.id, entry);
      if previous.Some? {
        ReplaceExactly(bundles, byId, p.id, entry);
        DropRetentionHint(p.id, previous.value.retentionUntil);
      } else {
        var bundle := if p.digest in bundles then bundles[p.digest] else Bundle(p.bundle, 0, false);
        AddExactly(bundles, byId, p.id, entry, p.digest, bundle);
        StoredAfterAdd(r, bundles, fingerprint, p, retentionUntil, newToken, bundle);
        bundles := bundles[p.digest := bundle.(citers := bundle.citers + 1)];
      }
      byId := byId[p.id := entry];
      byRetention := AddHint(byRetention, p.id, entry.retentionUntil);
      byFingerprint := byFingerprint[fingerprint := p.id];
    }

    /** Forget one session that has already left its bucket. */
    method Forget(id: string, ghost aside: set<string>)
      requires ValidExcept(aside) && id in byId && id in aside
      modifies this`byId, this`byFingerprint, this`bundles
      ensures ValidExcept(aside - {id})
      ensures View() == old(View()).Without({id})
    {
      ghost var r := View();
      CitersAfterForget(bundles, byId, id);
      BucketsAfterForget(byRetention, byId, id, aside);
      var entry := byId[id];
      var digest := entry.stripped.evidence.digest.value;
      byId := byId - {id};
      if entry.fingerprint in byFingerprint && byFingerprint[entry.fingerprint] == id {
        byFingerprint := byFingerprint - {entry.fingerprint};
      }
      CurrentAfterForget(r, id, byFingerprint);
      if digest in bundles {
        var bundle := bundles[digest];
        if bundle.citers - 1 == 0 {
          bundles := bundles - {digest};
        } else {
          bundles := bundles[digest := bundle.(citers := bundle.citers - 1)];
        }
      }
      StoredAfterForget(r, old(bundles), bundles, id);
    }

    /** One session of a bucket taken out: it goes back if a lease holds it, and is forgotten if not. */
    method Settle(id: string, deadline: nat, held: set<nat>, ghost aside: set<string>)
      requires ValidExcept(aside) && id in aside && aside <= Due(byId, deadline, {})
      modifies this
      ensures ValidExcept(aside - {id}) && aside - {id} <= Due(byId, deadline, {})
      ensures View() == if old(byId)[id].token in held then old(View()) else old(View()).Without({id})
    {
      if byId[id].token in held {
        BucketsAfterReturn(byRetention, byId, id, aside);
        byRetention := AddHint(byRetention, id, deadline);
      } else {
        Forget(id, aside);
      }
    }

    /** Empty one lapsed bucket: held sessions go back into it, the others are forgotten. */
    method EvictBucket(deadline: nat, held: set<nat>)
      requires Valid()
      modifies this
      ensures Valid()
      ensures View() == old(View()).Without(Released(old(View()), Due(old(byId), deadline, {}), held))
    {
      ghost var r := View();
      ghost var due := Due(byId, deadline, {});
      BucketsAfterTake(byRetention, byId, deadline);
      NoneUncited(r, bundles);
      WithoutNothing(r);
      var ids := BucketAt(byRetention, deadline);
      byRetention := byRetention - {deadline};
      ReleasedNone(r, due, ids, held);
      while ids != {}
        invariant ids <= due <= r.entries.Keys && ids <= Due(byId, deadline, {})
        invariant ValidExcept(ids)
        invariant View() == r.Without(Released(r, due - ids, held))
      {
        var id :| id in ids;
        ReleasedMore(r, due, ids, id, held);
        Settle(id, deadline, held, ids);
        ids := ids - {id};
      }
      assert due - ids == due;
    }

    method EvictLapsed(now: nat, held: set<nat>)
      requires Valid()
      modifies this
      ensures Valid()
      ensures View() == old(View()).Evict(now, held)
    {
      ghost var r := View();
      // Snapshot the deadlines: held entries go back into their bucket and must not be revisited.
      var deadlines := set t | t in byRetention && t <= now;
      NoneUncited(r, bundles);
      WithoutNothing(r);
      EvictStart(r, byRetention, now, held);
      while deadlines != {}
        invariant forall t :: t in deadlines ==> t <= now
        invariant Valid()
        invariant View() == r.Without(LapsedOutside(r, now, held, deadlines))
      {
        var deadline :| deadline in deadlines;
        EvictStep(r, now, held, deadlines, deadline);
        EvictBucket(deadline, held);
        deadlines := deadlines - {deadline};
      }
      assert LapsedOutside(r, now, held, {}) == r.Lapsed(now, held);
    }

    method Rebuild(vault: Vault, id: string, entry: Entry) returns (session: Option<Session>)
      requires Valid() && id in byId && byId[id] == entry
      ensures session == View().Rebuild(vault, id)
    {
      var digest := entry.stripped.evidence.digest.value;
      if digest !in bundles { return None; }
      session := vault.rejoin(entry.stripped, entry.contentType, bundles[digest].bytes);
      if session.None? || session.value.id != id { return None; }
    }

    method Get(vault: Vault, id: string, now: nat, held: set<nat>) returns (session: Option<Session>)
      requires Valid()
      modifies this
      ensures Valid() && View() == old(View()).Evict(now, held)
      ensures session == View().Rebuild(vault, id)
    {
      EvictLapsed(now, held);
      if id !in byId { return None; }
      session := Rebuild(vault, id, byId[id]);
    }

    method LeaseOf(id: string) returns (lease: Lease)
      requires id in byId
      ensures lease == View().LeaseOf(id) && View().Owns(lease)
    {
      var entry := byId[id];
      lease := Lease(id, entry.stripped.establishedAt, entry.stripped.expiresAt, entry.token);
    }

    /** Move a session to a later deadline. */
    method Lengthen(id: string, deadline: nat)
      requires Valid() && id in byId && deadline > byId[id].retentionUntil
      modifies this`byId, this`byRetention
      ensures Valid() && View() == old(View()).Prolong(id, deadline)
    {
      var entry := byId[id];
      var longer := entry.(retentionUntil := deadline);
      CitersAfterReplace(bundles, byId, id, longer);
      BucketsAfterMove(byRetention, byId, id, longer);
      byId := byId[id := longer];
      DropRetentionHint(id, entry.retentionUntil);
      byRetention := AddHint(byRetention, id, deadline);
    }

    /** Prolong retention through a lease; a lease this store did not issue is refused. */
    method Extend(lease: Lease, deadline: nat) returns (ok: bool)
      requires Valid()
      modifies this`byId, this`byRetention
      ensures Valid()
      ensures ok == old(View()).Owns(lease)
      ensures View() == if ok then old(View()).Prolong(lease.id, deadline) else old(View())
      ensures ok ==> RetainedTo(old(View()), View(), lease.id, deadline)
    {
      if lease.id !in byId || byId[lease.id].token != lease.token { return false; }
      ProlongRetains(View(), lease.id, deadline);
      if deadline > byId[lease.id].retentionUntil {
        Lengthen(lease.id, deadline);
      } else {
        assert byId == byId[lease.id := byId[lease.id]];
      }
      ok := true;
    }

    method Current(fingerprint: string, retentionUntil: nat, now: nat, held: set<nat>) returns (lease: Option<Lease>)
      requires Valid()
      modifies this
      ensures Valid()
      ensures var (r, hit) := old(View()).Current(fingerprint, retentionUntil, now, held);
              View() == r && lease == (if hit.Some? then Some(r.LeaseOf(hit.value)) else None)
      ensures lease.Some? ==> RetainedTo(old(View()).Evict(now, held), View(), lease.value.id, retentionUntil)
    {
      EvictLapsed(now, held);
      if fingerprint !in byFingerprint { return None; }
      var id := byFingerprint[fingerprint];
      if id !in byId { return None; }
      if now >= byId[id].stripped.expiresAt { return None; }
      var mine := LeaseOf(id);
      var ok := Extend(mine, retentionUntil);
      return Some(mine);
    }

    method BundlePersisted(digest: string) returns (persisted: bool)
      ensures persisted <==> digest in View().stored && View().stored[digest].persisted
    {
      persisted := digest in bundles && bundles[digest].persisted;
    }

    method MarkPersisted(digest: string)
      requires Valid()
      modifies this`bundles
      ensures Valid() && View() == old(View()).MarkPersisted(digest)
    {
      if digest in bundles {
        bundles := bundles[digest := bundles[digest].(persisted := true)];
      }
      assert StoredOf(bundles) == old(View()).MarkPersisted(digest).stored;
    }

    method MarkAllPersisted()
      requires Valid()
      modifies this`bundles
      ensures Valid() && View() == old(View()).MarkAllPersisted()
    {
      bundles := map d | d in bundles :: bundles[d].(persisted := true);
      assert StoredOf(bundles) == old(View()).MarkAllPersisted().stored;
    }
  }
}

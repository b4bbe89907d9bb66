/**
  The attested-session registry as a value: what the index of
  src/aggregator/session_store.rs means, free of its bookkeeping.

  `entries` is the id map and `current` the fingerprint map. The retention
  buckets and the citation counts of the index are functions of `entries`, so
  they have no place here; `stored` keeps what is left of a bundle.
 */
module Registry {
  import opened Foundation
  import opened Session
  import opened Vault

  datatype Entry = Entry(
    stripped: Document, contentType: string, fingerprint: string, retentionUntil: nat, token: nat)
  {
    /** The bundle this session cites. Stored sessions always carry a digest (see `Sound`). */
    function Digest(): string {
      if stripped.evidence.digest.Some? then stripped.evidence.digest.value else ""
    }
  }

  datatype Stored = Stored(bytes: seq<byte>, persisted: bool)

  /** A process-local hold on a session; `token` is the identity of the shared allocation. */
  datatype Lease = Lease(id: string, establishedAt: nat, expiresAt: nat, token: nat)

  datatype Registry = Registry(
    entries: map<string, Entry>, current: map<string, string>, stored: map<string, Stored>)
  {
    function Citing(digest: string): set<string> {
      set id | id in entries && entries[id].Digest() == digest
    }

    function SplitAt(id: string): Split
      requires id in entries && entries[id].Digest() in stored
    {
      var e := entries[id];
      Split(id, e.stripped, e.Digest(), e.contentType, stored[e.Digest()].bytes)
    }

    ghost predicate Backed(v: Vault, id: string)
      requires id in entries
    {
      && entries[id].Digest() in stored
      && v.genuine(SplitAt(id))
      && entries[id].stripped.expiresAt <= entries[id].retentionUntil
    }

    /** Every session is whole, no bundle is kept for nobody, and retention covers validity. */
    ghost predicate Sound(v: Vault) {
      && (forall id :: id in entries ==> Backed(v, id))
      && (forall d :: d in stored ==> Citing(d) != {})
    }

    function Insert(fingerprint: string, p: Split, retentionUntil: nat, newToken: nat): Registry {
      var asked := Max(retentionUntil, p.stripped.expiresAt);
      var known := p.id in entries;
      var entry := Entry(p.stripped, p.contentType, fingerprint,
                         if known then Max(entries[p.id].retentionUntil, asked) else asked,
                         if known then entries[p.id].token else newToken);
      Registry(
        entries[p.id := entry],
        current[fingerprint := p.id],
        if known || p.digest in stored then stored else stored[p.digest := Stored(p.bundle, false)])
    }

    /** The entries past their deadline at `now` that no lease in `held` keeps. */
    function Lapsed(now: nat, held: set<nat>): set<string> {
      set id | id in entries && entries[id].retentionUntil <= now && entries[id].token !in held
    }

    /** Forget the sessions `gone`, the channels they were current for, and bundles nobody cites any more. */
    function Without(gone: set<string>): Registry {
      Registry(
        entries - gone,
        map fp | fp in current
                 && !(current[fp] in gone && current[fp] in entries && entries[current[fp]].fingerprint == fp)
               :: current[fp],
        map d | d in stored && Citing(d) - gone != {} :: stored[d])
    }

    function Evict(now: nat, held: set<nat>): Registry {
      Without(Lapsed(now, held))
    }

    /** The served session: the stored document with its bundle put back. */
    function Rebuild(v: Vault, id: string): Option<Session> {
      if id !in entries || entries[id].Digest() !in stored then None
      else
        var session := v.rejoin(entries[id].stripped, entries[id].contentType, stored[entries[id].Digest()].bytes);
        if session.Some? && session.value.id == id then session else None
    }

    function LeaseOf(id: string): Lease
      requires id in entries
    {
      var e := entries[id];
      Lease(id, e.stripped.establishedAt, e.stripped.expiresAt, e.token)
    }

    /** A lease of this store is one whose token is the entry's own. */
    predicate Owns(lease: Lease) {
      lease.id in entries && entries[lease.id].token == lease.token
    }

    function Prolong(id: string, deadline: nat): Registry
      requires id in entries
    {
      this.(entries := entries[id := entries[id].(retentionUntil := Max(entries[id].retentionUntil, deadline))])
    }

    /** The channel's session, if one is mapped, stored and still valid at `now`. */
    function Usable(fingerprint: string, now: nat): Option<string> {
      if fingerprint in current && current[fingerprint] in entries
         && now < entries[current[fingerprint]].stripped.expiresAt
      then Some(current[fingerprint]) else None
    }

    /** Lookup of the current session: evict, then hit (prolonging retention) or miss. */
    function Current(fingerprint: string, retentionUntil: nat, now: nat, held: set<nat>): (Registry, Option<string>) {
      var r := Evict(now, held);
      match r.Usable(fingerprint, now)
      case None => (r, None)
      case Some(id) => (r.Prolong(id, retentionUntil), Some(id))
    }

    function MarkPersisted(digest: string): Registry {
      if digest in stored then this.(stored := stored[digest := stored[digest].(persisted := true)]) else this
    }

    function MarkAllPersisted(): Registry {
      this.(stored := map d | d in stored :: stored[d].(persisted := true))
    }
  }

  const Empty := Registry(map[], map[], map[])

  /** `r'` is `r` with session `id` retained until `deadline` if that is later, and nothing else changed. */
  ghost predicate RetainedTo(r: Registry, r': Registry, id: string, deadline: nat) {
    && id in r.entries && r'.entries.Keys == r.entries.Keys && r'.current == r.current && r'.stored == r.stored
    && (forall other :: other in r.entries && other != id ==> r'.entries[other] == r.entries[other])
    && var e, e' := r.entries[id], r'.entries[id];
       && e'.stripped == e.stripped && e'.contentType == e.contentType && e'.fingerprint == e.fingerprint && e'.token == e.token
       && e'.retentionUntil >= e.retentionUntil && e'.retentionUntil >= deadline
       && (e'.retentionUntil == e.retentionUntil || e'.retentionUntil == deadline)
  }

  lemma ProlongRetains(r: Registry, id: string, deadline: nat)
    requires id in r.entries
    ensures RetainedTo(r, r.Prolong(id, deadline), id, deadline)
  {
  }

  /** A session is there until its retention is over, and after that exactly while a lease holds it. */
  lemma GoneExactlyWhen(r: Registry, id: string, t: nat, held: set<nat>)
    requires id in r.entries
    ensures id in r.Evict(t, held).entries <==> t < r.entries[id].retentionUntil || r.entries[id].token in held
    ensures id in r.Evict(t, held).entries ==> r.Evict(t, held).entries[id] == r.entries[id]
  {
  }

  /** Every channel maps to a session of its own that is there. */
  ghost predicate Linked(r: Registry) {
    forall fp :: fp in r.current ==> r.current[fp] in r.entries && r.entries[r.current[fp]].fingerprint == fp
  }

  /** A channel loses its mapping with its session and not otherwise. */
  lemma EvictUnlinks(r: Registry, now: nat, held: set<nat>)
    requires Linked(r)
    ensures var e := r.Evict(now, held);
            && Linked(e)
            && forall fp :: fp in r.current ==> (fp in e.current <==> r.current[fp] in e.entries)
                                                && (fp in e.current ==> e.current[fp] == r.current[fp])
  {
  }

  /** Inserting maps the channel to the session and no other channel anywhere else. */
  lemma InsertLinks(r: Registry, fingerprint: string, p: Split, retentionUntil: nat, newToken: nat)
    requires Linked(r) && (p.id in r.entries ==> r.entries[p.id].fingerprint == fingerprint)
    ensures var i := r.Insert(fingerprint, p, retentionUntil, newToken);
            && Linked(i) && fingerprint in i.current && i.current[fingerprint] == p.id
            && forall fp :: fp != fingerprint ==> (fp in i.current <==> fp in r.current)
                                                  && (fp in r.current ==> i.current[fp] == r.current[fp])
  {
  }

  /** After an extension, a session no lease holds is there until the later of the two deadlines, and not after. */
  lemma RetainedSurvives(r: Registry, r': Registry, id: string, deadline: nat, t: nat)
    requires RetainedTo(r, r', id, deadline)
    ensures id in r'.Evict(t, {}).entries <==> t < r.entries[id].retentionUntil || t < deadline
  {
    GoneExactlyWhen(r', id, t, {});
  }

  /** A hit is the valid session of the channel, and keeps it for as long as was asked for or longer. */
  lemma HitIsRetained(r: Registry, fingerprint: string, retentionUntil: nat, now: nat, held: set<nat>, t: nat)
    ensures var (r', hit) := r.Current(fingerprint, retentionUntil, now, held);
            match hit
            case None => r' == r.Evict(now, held)
            case Some(id) =>
              && fingerprint in r.current && r.current[fingerprint] == id && id in r.entries
              && now < r.entries[id].stripped.expiresAt
              && RetainedTo(r.Evict(now, held), r', id, retentionUntil)
              && (id in r'.Evict(t, {}).entries <==> t < r.entries[id].retentionUntil || t < retentionUntil)
  {
    var e := r.Evict(now, held);
    var hit := e.Usable(fingerprint, now);
    if hit.Some? {
      ProlongRetains(e, hit.value, retentionUntil);
      RetainedSurvives(e, e.Prolong(hit.value, retentionUntil), hit.value, retentionUntil, t);
    }
  }

  /** `r'` says of session `id` what `r` says, with its bundle in place and its deadline no earlier. */
  ghost predicate SameSession(r: Registry, r': Registry, id: string) {
    && id in r.entries && id in r'.entries
    && r'.entries[id].stripped == r.entries[id].stripped
    && r'.entries[id].contentType == r.entries[id].contentType
    && r.entries[id].retentionUntil <= r'.entries[id].retentionUntil
    && var d := r.entries[id].Digest();
       d in r.stored ==> d in r'.stored && r'.stored[d].bytes == r.stored[d].bytes
  }

  lemma StillBacked(v: Vault, r: Registry, r': Registry, id: string)
    requires SameSession(r, r', id) && r.Backed(v, id)
    ensures r'.Backed(v, id) && r'.SplitAt(id) == r.SplitAt(id)
  {
    assert r'.SplitAt(id) == r.SplitAt(id);
  }

  /** Every session is one `r` had and every bundle is cited. */
  ghost predicate Within(r: Registry, r': Registry) {
    && (forall id :: id in r'.entries ==> SameSession(r, r', id))
    && (forall d :: d in r'.stored ==> r'.Citing(d) != {})
  }

  lemma WithinSound(v: Vault, r: Registry, r': Registry)
    requires r.Sound(v) && Within(r, r')
    ensures r'.Sound(v)
  {
    forall id | id in r'.entries
      ensures r'.Backed(v, id)
    {
      StillBacked(v, r, r', id);
    }
  }

  // A genuine split agrees with what the registry already holds of it.
  lemma InsertAgrees(v: Vault, r: Registry, p: Split)
    requires v.Lawful() && r.Sound(v) && v.genuine(p)
    ensures p.id in r.entries ==> r.entries[p.id].Digest() in r.stored && r.SplitAt(p.id) == p
    ensures p.digest in r.stored ==> r.stored[p.digest].bytes == p.bundle
    ensures p.stripped.evidence.digest == Some(p.digest)
  {
    assert v.Whole(p);
    if p.id in r.entries {
      assert r.Backed(v, p.id);
    }
    if p.digest in r.stored {
      var id :| id in r.Citing(p.digest);
      assert r.Backed(v, id);
      assert v.Whole(p) && v.Whole(r.SplitAt(id));
    }
  }

  lemma InsertBacks(v: Vault, r: Registry, fingerprint: string, p: Split, retentionUntil: nat, newToken: nat)
    requires v.Lawful() && r.Sound(v) && v.genuine(p)
    ensures var r' := r.Insert(fingerprint, p, retentionUntil, newToken);
            r'.entries[p.id].Digest() == p.digest && r'.Backed(v, p.id) && r'.SplitAt(p.id) == p
  {
    InsertAgrees(v, r, p);
    var r' := r.Insert(fingerprint, p, retentionUntil, newToken);
    assert r'.entries[p.id].Digest() == p.digest;
    assert r'.SplitAt(p.id) == p;
  }

  lemma InsertStillCited(r: Registry, fingerprint: string, p: Split, retentionUntil: nat, newToken: nat)
    requires forall d :: d in r.stored ==> r.Citing(d) != {}
    requires p.stripped.evidence.digest == Some(p.digest)
    requires p.id in r.entries ==> r.entries[p.id].Digest() == p.digest
    ensures var r' := r.Insert(fingerprint, p, retentionUntil, newToken);
            forall d :: d in r'.stored ==> r'.Citing(d) != {}
  {
    var r' := r.Insert(fingerprint, p, retentionUntil, newToken);
    forall d | d in r'.stored
      ensures r'.Citing(d) != {}
    {
      if d in r.stored {
        var id :| id in r.Citing(d);
        assert id in r'.Citing(d);
      } else {
        assert p.id in r'.Citing(d);
      }
    }
  }

  lemma InsertSame(r: Registry, fingerprint: string, p: Split, retentionUntil: nat, newToken: nat, id: string)
    requires id in r.entries && id != p.id
    ensures SameSession(r, r.Insert(fingerprint, p, retentionUntil, newToken), id)
  {
  }

  lemma InsertSound(v: Vault, r: Registry, fingerprint: string, p: Split, retentionUntil: nat, newToken: nat)
    requires v.Lawful() && r.Sound(v) && v.genuine(p)
    ensures r.Insert(fingerprint, p, retentionUntil, newToken).Sound(v)
  {
    var r' := r.Insert(fingerprint, p, retentionUntil, newToken);
    InsertBacks(v, r, fingerprint, p, retentionUntil, newToken);
    InsertAgrees(v, r, p);
    InsertStillCited(r, fingerprint, p, retentionUntil, newToken);
    forall id | id in r'.entries
      ensures r'.Backed(v, id)
    {
      if id != p.id {
        InsertSame(r, fingerprint, p, retentionUntil, newToken, id);
        StillBacked(v, r, r', id);
      }
    }
  }

  lemma WithoutWithin(r: Registry, gone: set<string>)
    ensures Within(r, r.Without(gone))
  {
    var r' := r.Without(gone);
    forall id | id in r'.entries
      ensures SameSession(r, r', id)
    {
      assert id in r.Citing(r.entries[id].Digest()) - gone;
    }
    forall d | d in r'.stored
      ensures r'.Citing(d) != {}
    {
      var id :| id in r.Citing(d) - gone;
      assert id in r'.Citing(d);
    }
  }

  lemma WithoutSound(v: Vault, r: Registry, gone: set<string>)
    requires r.Sound(v)
    ensures r.Without(gone).Sound(v)
  {
    WithoutWithin(r, gone);
    WithinSound(v, r, r.Without(gone));
  }

  lemma ProlongWithin(r: Registry, id: string, deadline: nat)
    requires id in r.entries && forall d :: d in r.stored ==> r.Citing(d) != {}
    ensures Within(r, r.Prolong(id, deadline))
  {
    var r' := r.Prolong(id, deadline);
    forall d | d in r'.stored
      ensures r'.Citing(d) != {}
    {
      var i :| i in r.Citing(d);
      assert i in r'.Citing(d);
    }
  }

  lemma ProlongSound(v: Vault, r: Registry, id: string, deadline: nat)
    requires r.Sound(v) && id in r.entries
    ensures r.Prolong(id, deadline).Sound(v)
  {
    ProlongWithin(r, id, deadline);
    WithinSound(v, r, r.Prolong(id, deadline));
  }

  lemma CurrentSound(v: Vault, r: Registry, fingerprint: string, retentionUntil: nat, now: nat, held: set<nat>)
    requires r.Sound(v)
    ensures r.Current(fingerprint, retentionUntil, now, held).0.Sound(v)
  {
    var e := r.Evict(now, held);
    WithoutSound(v, r, r.Lapsed(now, held));
    if e.Usable(fingerprint, now).Some? {
      ProlongSound(v, e, e.Usable(fingerprint, now).value, retentionUntil);
    }
  }

  lemma MarkWithin(r: Registry, digest: string)
    requires forall d :: d in r.stored ==> r.Citing(d) != {}
    ensures Within(r, r.MarkPersisted(digest)) && Within(r, r.MarkAllPersisted())
  {
    forall d | d in r.stored
      ensures r.MarkPersisted(digest).Citing(d) == r.Citing(d) && r.MarkAllPersisted().Citing(d) == r.Citing(d)
    {
    }
  }

  lemma MarkSound(v: Vault, r: Registry, digest: string)
    requires r.Sound(v)
    ensures r.MarkPersisted(digest).Sound(v) && r.MarkAllPersisted().Sound(v)
  {
    MarkWithin(r, digest);
    WithinSound(v, r, r.MarkPersisted(digest));
    WithinSound(v, r, r.MarkAllPersisted());
  }

  /** A stored bundle hashes to the digest it is stored under. */
  lemma StoredHashes(v: Vault, r: Registry, d: string)
    requires v.Lawful() && r.Sound(v) && d in r.stored
    ensures v.digest(r.stored[d].bytes) == d
  {
    var id :| id in r.Citing(d);
    assert r.Backed(v, id);
    assert v.Whole(r.SplitAt(id));
  }

  lemma EntryWhole(v: Vault, r: Registry, id: string)
    requires v.Lawful() && r.Sound(v) && id in r.entries
    ensures r.entries[id].Digest() in r.stored
    ensures v.genuine(r.SplitAt(id)) && v.Whole(r.SplitAt(id))
    ensures r.entries[id].stripped.expiresAt <= r.entries[id].retentionUntil
  {
    assert r.Backed(v, id);
  }

  /** Serving never fails for a stored session: lookup answers exactly the sessions held, each with its own id. */
  lemma RebuildTotal(v: Vault, r: Registry, id: string)
    requires v.Lawful() && r.Sound(v)
    ensures r.Rebuild(v, id).Some? <==> id in r.entries
    ensures id in r.entries ==> r.Rebuild(v, id).value.id == id
                                && v.split(r.Rebuild(v, id).value) == Some(r.SplitAt(id))
  {
    if id in r.entries {
      assert r.Backed(v, id);
      assert v.Whole(r.SplitAt(id));
    }
  }

  /** Whatever is stored, lookup never answers with another session. */
  lemma RebuildNeverLies(v: Vault, r: Registry, id: string)
    ensures r.Rebuild(v, id).Some? ==> r.Rebuild(v, id).value.id == id
  {
  }

  lemma ServesGenuine(v: Vault, r: Registry, p: Split)
    requires v.Lawful() && r.Sound(v) && v.genuine(p) && p.id in r.entries
    ensures r.Rebuild(v, p.id) == v.rejoin(p.stripped, p.contentType, p.bundle)
  {
    EntryWhole(v, r, p.id);
    assert v.named(p.id) == Some(p) == Some(r.SplitAt(p.id));
  }

  /** A lease tells the times of the session that lookup serves. */
  lemma LeaseTells(s: Scheme, r: Registry, id: string)
    requires s.Lawful() && r.Sound(VaultOf(s)) && id in r.entries
    ensures var session, lease := r.Rebuild(VaultOf(s), id), r.LeaseOf(id);
            && session.Some? && lease.id == session.value.id
            && lease.establishedAt == session.value.document.establishedAt
            && lease.expiresAt == session.value.document.expiresAt
  {
    VaultOfLawful(s);
    RebuildTotal(VaultOf(s), r, id);
  }

  /** What was sealed is what lookup serves, byte for byte, for as long as it is stored. */
  lemma ServesWhatWasSealed(s: Scheme, r: Registry, document: Document)
    requires s.Lawful() && r.Sound(VaultOf(s))
    requires Seal(s, document).Some? && SplitOf(s, Seal(s, document).value).Some?
    requires Seal(s, document).value.id in r.entries
    ensures r.Rebuild(VaultOf(s), Seal(s, document).value.id) == Seal(s, document)
  {
    VaultOfLawful(s);
    SplitThenRejoin(s, document);
    ServesGenuine(VaultOf(s), r, SplitOf(s, Seal(s, document).value).value);
  }

  /** Forgetting two groups of sessions one after the other is forgetting them together. */
  lemma WithoutCompose(r: Registry, a: set<string>, b: set<string>)
    requires a <= r.entries.Keys && b <= r.entries.Keys
    ensures r.Without(a).Without(b) == r.Without(a + b)
  {
    var ra := r.Without(a);
    var left, right := ra.Without(b), r.Without(a + b);
    assert left.entries == right.entries;
    forall d | d in r.stored
      ensures d in left.stored <==> d in right.stored
    {
      assert ra.Citing(d) == r.Citing(d) - a;
      assert ra.Citing(d) - b == r.Citing(d) - (a + b);
      if d in right.stored { assert r.Citing(d) - a != {}; }
    }
    assert left.stored == right.stored;
    assert left.current.Keys == right.current.Keys;
    assert left.current == right.current;
  }

  lemma WithoutNothing(r: Registry)
    requires forall d :: d in r.stored ==> r.Citing(d) != {}
    ensures r.Without({}) == r
  {
    assert r.Without({}).current == r.current;
    assert forall d | d in r.stored :: r.Citing(d) - {} == r.Citing(d);
    assert r.Without({}).stored == r.stored;
  }
}

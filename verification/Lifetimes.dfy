/**
  One usable session per channel over the whole life of a log file
  (src/aggregator/session_store.rs): any number of restarts, each after a crash
  at any step of the protocol of `StoreRuns`.

  A session on file is loaded again whether or not its append was reported as
  done. So what can go wrong is a failed write that left the whole session
  record behind: the caller seals another session, and the next start finds two.
 */
module Lifetimes {
  import opened Foundation
  import opened Session
  import opened Vault
  import opened Registry
  import opened SessionLog
  import opened StoreRuns

  // ---------- what a clean log looks like ----------

  /** The session a record carries. */
  ghost function Carried(v: Vault, c: Codec, record: Record): (r: Option<Split>)
    ensures r.Some? ==> v.genuine(r.value) && Carries(c, record, r.value)
  {
    if p :| v.genuine(p) && Carries(c, record, p) then Some(p) else None
  }

  lemma CarriedIs(v: Vault, c: Codec, record: Record, p: Split)
    requires v.Lawful() && v.genuine(p) && Carries(c, record, p)
    ensures Carried(v, c, record) == Some(p)
  {
    var q := Carried(v, c, record).value;
    assert v.Whole(p) && v.Whole(q);
    assert v.content(v.digest(p.bundle)) == v.content(v.digest(q.bundle));
  }

  ghost predicate Timed(p: Split) {
    p.stripped.establishedAt < p.stripped.expiresAt
  }

  /** A session record holds a whole session, under its own channel, retained while it is valid. */
  ghost predicate Tidy(v: Vault, c: Codec, channel: string -> string, record: Record) {
    record.kind == SESSION ==>
      var s := Carried(v, c, record);
      && s.Some? && record.fingerprint == Some(channel(s.value.id))
      && Timed(s.value) && s.value.stripped.expiresAt <= record.retentionUntil.value
  }

  /** A record that a start at `latest` or later can load. */
  ghost predicate LiveAt(v: Vault, c: Codec, record: Record, latest: nat) {
    Carried(v, c, record).Some? && latest < record.retentionUntil.value
  }

  /** Of two sessions of a channel the second is younger, and the first was over at `latest`. */
  ghost predicate Succeeds(channel: string -> string, p: Split, q: Split, latest: nat) {
    channel(p.id) == channel(q.id) && p != q ==>
      p.stripped.establishedAt < q.stripped.establishedAt && p.stripped.expiresAt <= latest
  }

  ghost predicate AllTidy(v: Vault, c: Codec, channel: string -> string, records: seq<Record>) {
    forall i :: 0 <= i < |records| ==> Tidy(v, c, channel, records[i])
  }

  ghost predicate InOrder(v: Vault, c: Codec, channel: string -> string, records: seq<Record>, latest: nat) {
    forall i, j :: 0 <= i < j < |records| && LiveAt(v, c, records[i], latest) && LiveAt(v, c, records[j], latest)
      ==> Succeeds(channel, Carried(v, c, records[i]).value, Carried(v, c, records[j]).value, latest)
  }

  ghost predicate Retained(r: Registry, p: Split, until: nat) {
    p.id in r.entries && until <= r.entries[p.id].retentionUntil
  }

  /** Every live record is of an indexed session, or of the one that is written and not yet indexed. */
  ghost predicate Indexed(v: Vault, c: Codec, r: Registry, records: seq<Record>, latest: nat,
                          pending: Option<(Split, nat)>) {
    forall i :: 0 <= i < |records| && LiveAt(v, c, records[i], latest) ==>
      var p, until := Carried(v, c, records[i]).value, records[i].retentionUntil.value;
      Retained(r, p, until) || (pending.Some? && pending.value.0 == p && until <= pending.value.1)
  }

  ghost predicate FileNeat(v: Vault, c: Codec, channel: string -> string, r: Registry, records: seq<Record>,
                           latest: nat, pending: Option<(Split, nat)>) {
    AllTidy(v, c, channel, records) && InOrder(v, c, channel, records, latest) && Indexed(v, c, r, records, latest, pending)
  }

  /** `b` is younger than `a`, and `a` was over. */
  ghost predicate Follows(r: Registry, a: string, b: string, now: nat)
    requires a in r.entries && b in r.entries
  {
    r.entries[a].stripped.establishedAt < r.entries[b].stripped.establishedAt && r.entries[a].stripped.expiresAt <= now
  }

  /** Of two indexed sessions of a channel, the older was over at `latest`; none are of the same age. */
  ghost predicate Successive(r: Registry, latest: nat) {
    forall a, b :: a in r.entries && b in r.entries && a != b && r.entries[a].fingerprint == r.entries[b].fingerprint
                   && r.entries[a].stripped.establishedAt <= r.entries[b].stripped.establishedAt
      ==> Follows(r, a, b, latest)
  }

  ghost predicate EntryNeat(channel: string -> string, r: Registry, id: string)
    requires id in r.entries
  {
    r.entries[id].fingerprint == channel(id) && r.entries[id].stripped.establishedAt < r.entries[id].stripped.expiresAt
  }

  ghost predicate RegistryNeat(channel: string -> string, r: Registry, latest: nat) {
    Successive(r, latest) && forall id :: id in r.entries ==> EntryNeat(channel, r, id)
  }

  /** `p` is younger than every indexed session of the channel. */
  ghost predicate Youngest(r: Registry, fingerprint: string, p: Split) {
    forall id :: id in r.entries && r.entries[id].fingerprint == fingerprint
      ==> r.entries[id].stripped.establishedAt < p.stripped.establishedAt
  }

  ghost predicate Due(channel: string -> string, r: Registry, q: Request, p: Split) {
    channel(p.id) == q.fingerprint && Timed(p) && Youngest(r, q.fingerprint, p)
  }

  ghost predicate HolderNeat(v: Vault, c: Codec, channel: string -> string, w: World) {
    match w.holder
    case Composed(q, p, _) => Due(channel, w.registry, q, p)
    case Written(q, p) => Due(channel, w.registry, q, p)
    case Snapshot(next) => FileNeat(v, c, channel, w.registry, next, w.latest, None)
    case _ => true
  }

  function Pending(w: World): Option<(Split, nat)> {
    if w.holder.Written? then Some((w.holder.p, Max(w.holder.q.retentionUntil, w.holder.p.stripped.expiresAt))) else None
  }

  ghost predicate Neat(v: Vault, c: Codec, channel: string -> string, w: World) {
    && FileNeat(v, c, channel, w.registry, Records(c, w.file), w.latest, Pending(w))
    && RegistryNeat(channel, w.registry, w.latest) && HolderNeat(v, c, channel, w)
  }

  ghost predicate Good(v: Vault, c: Codec, channel: string -> string, w: World) {
    LogInv(v, c, w) && ChannelInv(w) && Neat(v, c, channel, w)
  }

  // ---------- orderly runs ----------

  /**
    A session is sealed for its own channel and younger than what the channel
    still has stored; a compaction lists oldest first, as the store does; and no
    write fails once its last byte but the newline is out.
   */
  ghost predicate Orderly(c: Codec, channel: string -> string, w: World, a: Action) {
    match a
    case SealOk(p) => w.holder.Sealing? && Due(channel, w.registry, w.holder.q, p)
    case WriteFails(k) => w.holder.Composed? && k + 1 < |Appended(c, w)|
    case CompactSnapshot(held, _, ids) =>
      w.holder.Compacting? && (forall id :: id in ids ==> id in CompactFrom(w, held).entries)
      && Chronological(CompactFrom(w, held), ids)
    case _ => true
  }

  ghost predicate OrderlyRun(v: Vault, c: Codec, channel: string -> string, w: World, actions: seq<Action>)
    decreases |actions|
  {
    actions == [] || (Enabled(v, c, w, actions[0]) && Orderly(c, channel, w, actions[0])
                      && OrderlyRun(v, c, channel, Apply(v, c, w, actions[0]), actions[1..]))
  }

  /** A session sealed no earlier than any clock reading used so far is younger than what its channel has stored. */
  lemma SealedNowIsDue(channel: string -> string, w: World, p: Split)
    requires w.holder.Sealing? && Vacant(w.registry, w.holder.q.fingerprint, w.latest)
    requires RegistryNeat(channel, w.registry, w.latest) && channel(p.id) == w.holder.q.fingerprint
    requires w.latest <= p.stripped.establishedAt < p.stripped.expiresAt
    ensures Due(channel, w.registry, w.holder.q, p)
  {
    forall id | id in w.registry.entries && w.registry.entries[id].fingerprint == w.holder.q.fingerprint
      ensures w.registry.entries[id].stripped.establishedAt < p.stripped.establishedAt
    {
      assert EntryNeat(channel, w.registry, id);
    }
  }

  // ---------- steps that lose nothing live ----------

  /** `r'` has the sessions of `r`, or fewer, and has lost none retained past `latest`. */
  ghost predicate Keeps(r: Registry, r': Registry, latest: nat) {
    && (forall id :: id in r'.entries ==> (id in r.entries && r'.entries[id].stripped == r.entries[id].stripped
                                           && r'.entries[id].fingerprint == r.entries[id].fingerprint))
    && (forall id :: id in r.entries && latest < r.entries[id].retentionUntil
          ==> id in r'.entries && r.entries[id].retentionUntil <= r'.entries[id].retentionUntil)
  }

  lemma EvictKeepsLive(r: Registry, now: nat, held: set<nat>, latest: nat)
    requires now <= latest
    ensures Keeps(r, r.Evict(now, held), latest)
  {
  }

  lemma ProlongKeepsLive(r: Registry, id: string, deadline: nat, latest: nat)
    requires id in r.entries
    ensures Keeps(r, r.Prolong(id, deadline), latest)
  {
  }

  lemma KeepsTwice(a: Registry, b: Registry, d: Registry, latest: nat)
    requires Keeps(a, b, latest) && Keeps(b, d, latest)
    ensures Keeps(a, d, latest)
  {
  }

  lemma CurrentKeepsLive(r: Registry, q: Request, held: set<nat>, latest: nat)
    requires q.now <= latest
    ensures Keeps(r, r.Current(q.fingerprint, q.retentionUntil, q.now, held).0, latest)
  {
    var e := r.Evict(q.now, held);
    EvictKeepsLive(r, q.now, held, latest);
    var hit := e.Usable(q.fingerprint, q.now);
    if hit.Some? {
      ProlongKeepsLive(e, hit.value, q.retentionUntil, latest);
      KeepsTwice(r, e, e.Prolong(hit.value, q.retentionUntil), latest);
    }
  }

  lemma LaterInOrder(v: Vault, c: Codec, channel: string -> string, records: seq<Record>, latest: nat, later: nat)
    requires InOrder(v, c, channel, records, latest) && latest <= later
    ensures InOrder(v, c, channel, records, later)
  {
    forall i, j | 0 <= i < j < |records| && LiveAt(v, c, records[i], later) && LiveAt(v, c, records[j], later)
      ensures Succeeds(channel, Carried(v, c, records[i]).value, Carried(v, c, records[j]).value, later)
    {
      assert LiveAt(v, c, records[i], latest) && LiveAt(v, c, records[j], latest);
    }
  }

  lemma KeepsIndexed(v: Vault, c: Codec, r: Registry, r': Registry, records: seq<Record>, latest: nat, later: nat,
                     pending: Option<(Split, nat)>)
    requires Indexed(v, c, r, records, latest, pending) && latest <= later && Keeps(r, r', later)
    ensures Indexed(v, c, r', records, later, pending)
  {
    forall i | 0 <= i < |records| && LiveAt(v, c, records[i], later)
      ensures var p, until := Carried(v, c, records[i]).value, records[i].retentionUntil.value;
              Retained(r', p, until) || (pending.Some? && pending.value.0 == p && until <= pending.value.1)
    {
      assert LiveAt(v, c, records[i], latest);
    }
  }

  lemma KeepsFile(v: Vault, c: Codec, channel: string -> string, r: Registry, r': Registry, records: seq<Record>,
                  latest: nat, later: nat, pending: Option<(Split, nat)>)
    requires FileNeat(v, c, channel, r, records, latest, pending) && latest <= later && Keeps(r, r', later)
    ensures FileNeat(v, c, channel, r', records, later, pending)
  {
    LaterInOrder(v, c, channel, records, latest, later);
    KeepsIndexed(v, c, r, r', records, latest, later, pending);
  }

  lemma KeepsRegistry(channel: string -> string, r: Registry, r': Registry, latest: nat, later: nat)
    requires RegistryNeat(channel, r, latest) && latest <= later && Keeps(r, r', later)
    ensures RegistryNeat(channel, r', later)
  {
    forall id | id in r'.entries
      ensures EntryNeat(channel, r', id)
    {
      assert EntryNeat(channel, r, id);
    }
  }

  lemma KeepsDue(channel: string -> string, r: Registry, r': Registry, latest: nat, q: Request, p: Split)
    requires Due(channel, r, q, p) && Keeps(r, r', latest)
    ensures Due(channel, r', q, p)
  {
  }

  lemma KeepsHolder(v: Vault, c: Codec, channel: string -> string, w: World, r: Registry, latest: nat)
    requires HolderNeat(v, c, channel, w) && w.latest <= latest && Keeps(w.registry, r, latest)
    ensures HolderNeat(v, c, channel, w.(registry := r, latest := latest))
  {
    match w.holder
    case Composed(q, p, _) => KeepsDue(channel, w.registry, r, latest, q, p);
    case Written(q, p) => KeepsDue(channel, w.registry, r, latest, q, p);
    case Snapshot(next) => KeepsFile(v, c, channel, w.registry, r, next, w.latest, latest, None);
    case _ =>
  }

  lemma KeepsNeat(v: Vault, c: Codec, channel: string -> string, w: World, r: Registry, latest: nat)
    requires Neat(v, c, channel, w) && w.latest <= latest && Keeps(w.registry, r, latest)
    ensures Neat(v, c, channel, w.(registry := r, latest := latest))
  {
    KeepsFile(v, c, channel, w.registry, r, Records(c, w.file), w.latest, latest, Pending(w));
    KeepsRegistry(channel, w.registry, r, w.latest, latest);
    KeepsHolder(v, c, channel, w, r, latest);
  }

  // ---------- writes ----------

  lemma AddEvidence(v: Vault, c: Codec, channel: string -> string, r: Registry, records: seq<Record>, latest: nat,
                    pending: Option<(Split, nat)>, record: Record)
    requires FileNeat(v, c, channel, r, records, latest, pending) && record.kind == EVIDENCE
    ensures FileNeat(v, c, channel, r, records + [record], latest, pending)
  {
    var all := records + [record];
    assert Carried(v, c, record).None?;
    forall i, j | 0 <= i < j < |all| && LiveAt(v, c, all[i], latest) && LiveAt(v, c, all[j], latest)
      ensures Succeeds(channel, Carried(v, c, all[i]).value, Carried(v, c, all[j]).value, latest)
    {
      assert all[i] == records[i] && all[j] == records[j];
    }
  }

  /** A live record of the channel is of a session that was over, and older. */
  lemma LiveSucceeds(v: Vault, c: Codec, channel: string -> string, r: Registry, records: seq<Record>, latest: nat,
                     p: Split, i: nat)
    requires v.Lawful() && r.Sound(v) && Indexed(v, c, r, records, latest, None) && RegistryNeat(channel, r, latest)
    requires Vacant(r, channel(p.id), latest) && Youngest(r, channel(p.id), p)
    requires i < |records| && LiveAt(v, c, records[i], latest)
    ensures Succeeds(channel, Carried(v, c, records[i]).value, p, latest)
  {
    var x := Carried(v, c, records[i]).value;
    assert Retained(r, x, records[i].retentionUntil.value);
    InsertAgrees(v, r, x);
    assert EntryNeat(channel, r, x.id);
  }

  lemma AddInOrder(v: Vault, c: Codec, channel: string -> string, records: seq<Record>, latest: nat, record: Record,
                   p: Split)
    requires InOrder(v, c, channel, records, latest) && Carried(v, c, record) == Some(p)
    requires forall i :: 0 <= i < |records| && LiveAt(v, c, records[i], latest)
               ==> Succeeds(channel, Carried(v, c, records[i]).value, p, latest)
    ensures InOrder(v, c, channel, records + [record], latest)
  {
    var all := records + [record];
    forall i, j | 0 <= i < j < |all| && LiveAt(v, c, all[i], latest) && LiveAt(v, c, all[j], latest)
      ensures Succeeds(channel, Carried(v, c, all[i]).value, Carried(v, c, all[j]).value, latest)
    {
      assert all[i] == records[i];
      if j < |records| { assert all[j] == records[j]; }
    }
  }

  lemma AddIndexed(v: Vault, c: Codec, r: Registry, records: seq<Record>, latest: nat, record: Record, p: Split)
    requires Indexed(v, c, r, records, latest, None) && Carried(v, c, record) == Some(p)
    ensures Indexed(v, c, r, records + [record], latest, Some((p, record.retentionUntil.value)))
  {
    var all := records + [record];
    forall i | 0 <= i < |records|
      ensures all[i] == records[i]
    {
    }
  }

  lemma AddSession(v: Vault, c: Codec, channel: string -> string, r: Registry, records: seq<Record>, latest: nat,
                   record: Record, p: Split)
    requires v.Lawful() && r.Sound(v) && FileNeat(v, c, channel, r, records, latest, None)
    requires RegistryNeat(channel, r, latest) && Vacant(r, channel(p.id), latest) && Youngest(r, channel(p.id), p)
    requires v.genuine(p) && Timed(p) && Carries(c, record, p) && record.fingerprint == Some(channel(p.id))
    requires p.stripped.expiresAt <= record.retentionUntil.value
    ensures FileNeat(v, c, channel, r, records + [record], latest, Some((p, record.retentionUntil.value)))
  {
    CarriedIs(v, c, record, p);
    forall i | 0 <= i < |records| && LiveAt(v, c, records[i], latest)
      ensures Succeeds(channel, Carried(v, c, records[i]).value, p, latest)
    {
      LiveSucceeds(v, c, channel, r, records, latest, p, i);
    }
    AddInOrder(v, c, channel, records, latest, record, p);
    AddIndexed(v, c, r, records, latest, record, p);
  }

  /** The bundle's record, if this append writes one. */
  function BundlePart(c: Codec, w: World): seq<Record>
    requires w.holder.Composed?
  {
    if w.holder.bundlePersisted then [] else [EvidenceRecord(c, w.nextSeq, w.holder.q.now, w.holder.p.bundle)]
  }

  function SessionPart(c: Codec, w: World): Record
    requires w.holder.Composed?
  {
    var Composed(q, p, _) := w.holder;
    SessionRecord(c, w.nextSeq + |BundlePart(c, w)|, q.now, q.fingerprint, Max(q.retentionUntil, p.stripped.expiresAt),
                  p.contentType, p.stripped)
  }

  lemma NewRecordsAre(c: Codec, w: World)
    requires w.holder.Composed?
    ensures NewRecords(c, w) == BundlePart(c, w) + [SessionPart(c, w)]
  {
  }

  lemma BundlePartNeat(v: Vault, c: Codec, channel: string -> string, w: World, records: seq<Record>)
    requires w.holder.Composed? && FileNeat(v, c, channel, w.registry, records, w.latest, None)
    ensures FileNeat(v, c, channel, w.registry, records + BundlePart(c, w), w.latest, None)
  {
    if w.holder.bundlePersisted {
      assert records + [] == records;
    } else {
      AddEvidence(v, c, channel, w.registry, records, w.latest, None, BundlePart(c, w)[0]);
    }
  }

  lemma WriteNeat(v: Vault, c: Codec, channel: string -> string, w: World, records: seq<Record>)
    requires Faithful(v, c, w, records) && ChannelInv(w) && w.holder.Composed?
    requires FileNeat(v, c, channel, w.registry, records, w.latest, None)
    requires RegistryNeat(channel, w.registry, w.latest) && HolderNeat(v, c, channel, w)
    requires w.nextSeq + |NewRecords(c, w)| <= U64_MAX
    ensures var Composed(q, p, _) := w.holder;
            FileNeat(v, c, channel, w.registry, records + NewRecords(c, w), w.latest,
                     Some((p, Max(q.retentionUntil, p.stripped.expiresAt))))
  {
    var Composed(q, p, _) := w.holder;
    NewRecordsAre(c, w);
    BundlePartNeat(v, c, channel, w, records);
    assert v.Whole(p);
    SplitRecord(c, w.nextSeq + |BundlePart(c, w)|, q.now, q.fingerprint, Max(q.retentionUntil, p.stripped.expiresAt), p);
    AddSession(v, c, channel, w.registry, records + BundlePart(c, w), w.latest, SessionPart(c, w), p);
    ConcatAssoc(records, BundlePart(c, w), [SessionPart(c, w)]);
  }

  lemma TornNeat(v: Vault, c: Codec, channel: string -> string, w: World, records: seq<Record>, some: seq<Record>)
    requires w.holder.Composed? && FileNeat(v, c, channel, w.registry, records, w.latest, None)
    requires some <= NewRecords(c, w) && |some| < |NewRecords(c, w)|
    ensures FileNeat(v, c, channel, w.registry, records + some, w.latest, None)
  {
    NewRecordsAre(c, w);
    if some == [] {
      assert records + [] == records;
    } else {
      assert some == BundlePart(c, w);
      BundlePartNeat(v, c, channel, w, records);
    }
  }

  lemma WriteStep(v: Vault, c: Codec, channel: string -> string, w: World, a: Action)
    requires Good(v, c, channel, w) && Enabled(v, c, w, a) && Orderly(c, channel, w, a) && (a.WriteOk? || a.WriteFails?)
    ensures Neat(v, c, channel, Apply(v, c, w, a))
  {
    var some := AppendRead(c, w, if a.WriteFails? then a.k else 0);
    if a.WriteOk? {
      WriteNeat(v, c, channel, w, Records(c, w.file));
    } else {
      TornNeat(v, c, channel, w, Records(c, w.file), some);
    }
  }

  // ---------- publishing ----------

  lemma PublishedIndexed(v: Vault, c: Codec, w: World, records: seq<Record>)
    requires w.holder.Written? && Indexed(v, c, w.registry, records, w.latest, Pending(w))
    ensures Indexed(v, c, AfterPublish(w), records, w.latest, None)
  {
    var r, m := w.registry, AfterPublish(w);
    forall i | 0 <= i < |records| && LiveAt(v, c, records[i], w.latest)
      ensures Retained(m, Carried(v, c, records[i]).value, records[i].retentionUntil.value)
    {
      var x := Carried(v, c, records[i]).value;
      assert Retained(r, x, records[i].retentionUntil.value) || x == w.holder.p;
    }
  }

  lemma PublishedNeat(channel: string -> string, w: World)
    requires w.holder.Written? && RegistryNeat(channel, w.registry, w.latest)
    requires Vacant(w.registry, w.holder.q.fingerprint, w.latest) && Due(channel, w.registry, w.holder.q, w.holder.p)
    ensures RegistryNeat(channel, AfterPublish(w), w.latest)
  {
    var r, m, p := w.registry, AfterPublish(w), w.holder.p;
    forall id | id in m.entries
      ensures EntryNeat(channel, m, id)
    {
      if id != p.id { assert EntryNeat(channel, r, id) && m.entries[id] == r.entries[id]; }
    }
    forall a, b | a in m.entries && b in m.entries && a != b && m.entries[a].fingerprint == m.entries[b].fingerprint
                  && m.entries[a].stripped.establishedAt <= m.entries[b].stripped.establishedAt
      ensures Follows(m, a, b, w.latest)
    {
      assert a != p.id ==> m.entries[a] == r.entries[a];
      assert b != p.id ==> m.entries[b] == r.entries[b];
    }
  }

  lemma PublishStep(v: Vault, c: Codec, channel: string -> string, w: World, held: set<nat>)
    requires Neat(v, c, channel, w) && w.holder.Written? && w.holder.q.now <= w.latest
    requires Vacant(w.registry, w.holder.q.fingerprint, w.latest)
    ensures Neat(v, c, channel, Apply(v, c, w, Publish(held)))
  {
    var q, m := w.holder.q, AfterPublish(w);
    var w1 := w.(registry := m, holder := Free, tokens := w.tokens + 1);
    PublishedIndexed(v, c, w, Records(c, w.file));
    PublishedNeat(channel, w);
    EvictKeepsLive(m, q.now, held, w.latest);
    KeepsNeat(v, c, channel, w1, m.Evict(q.now, held), w.latest);
    assert Apply(v, c, w, Publish(held)) == w1.(registry := m.Evict(q.now, held), latest := w.latest);
  }

  // ---------- compaction ----------

  /** The record is the one a compaction writes for session `id`. */
  ghost predicate IsEntry(v: Vault, c: Codec, r: Registry, record: Record, id: string) {
    && id in r.entries && r.entries[id].Digest() in r.stored && Carried(v, c, record) == Some(r.SplitAt(id))
    && record.fingerprint == Some(r.entries[id].fingerprint)
    && record.retentionUntil == Some(r.entries[id].retentionUntil)
  }

  ghost predicate BundlesFirst(records: seq<Record>, base: nat) {
    base <= |records| && forall i :: 0 <= i < base ==> records[i].kind == EVIDENCE
  }

  ghost predicate EntryAt(v: Vault, c: Codec, r: Registry, records: seq<Record>, base: nat, ids: seq<string>, k: nat) {
    k < |ids| && base + |ids| == |records| && IsEntry(v, c, r, records[base + k], ids[k])
  }

  ghost predicate EntriesFrom(v: Vault, c: Codec, r: Registry, records: seq<Record>, base: nat, ids: seq<string>) {
    |records| == base + |ids| && forall k: nat :: k < |ids| ==> EntryAt(v, c, r, records, base, ids, k)
  }

  /** First the bundles, then the sessions in the order listed. */
  ghost predicate AllListed(v: Vault, c: Codec, r: Registry, records: seq<Record>, base: nat, ids: seq<string>) {
    BundlesFirst(records, base) && EntriesFrom(v, c, r, records, base, ids)
  }

  lemma EntryListed(v: Vault, c: Codec, ts: nat, r: Registry, digests: seq<string>, ids: seq<string>, k: nat)
    requires v.Lawful() && c.Lawful() && r.Sound(v) && Listing(r, digests, ids) && k < |ids|
    ensures EntryAt(v, c, r, CompactRecords(c, ts, r, digests, ids), |digests|, ids, k)
  {
    var record := CompactRecords(c, ts, r, digests, ids)[|digests| + k];
    CompactSessionAt(v, c, ts, r, digests, ids, k);
    EntryWhole(v, r, ids[k]);
    CarriedIs(v, c, record, r.SplitAt(ids[k]));
  }

  lemma ListedTidy(v: Vault, c: Codec, channel: string -> string, r: Registry, records: seq<Record>, base: nat,
                   ids: seq<string>, latest: nat)
    requires AllListed(v, c, r, records, base, ids)
    requires Covered(r) && RegistryNeat(channel, r, latest)
    ensures AllTidy(v, c, channel, records) && Indexed(v, c, r, records, latest, None)
  {
    forall i | 0 <= i < |records|
      ensures Tidy(v, c, channel, records[i])
      ensures LiveAt(v, c, records[i], latest)
              ==> Retained(r, Carried(v, c, records[i]).value, records[i].retentionUntil.value)
    {
      if i < base {
        assert Carried(v, c, records[i]).None?;
      } else {
        assert EntryAt(v, c, r, records, base, ids, i - base) && EntryNeat(channel, r, ids[i - base]);
      }
    }
  }

  lemma ListedInOrder(v: Vault, c: Codec, channel: string -> string, r: Registry, records: seq<Record>, base: nat,
                      ids: seq<string>, latest: nat)
    requires AllListed(v, c, r, records, base, ids)
    requires Enumerates(ids, r.entries.Keys) && Chronological(r, ids) && RegistryNeat(channel, r, latest)
    ensures InOrder(v, c, channel, records, latest)
  {
    forall i, j | 0 <= i < j < |records| && LiveAt(v, c, records[i], latest) && LiveAt(v, c, records[j], latest)
      ensures Succeeds(channel, Carried(v, c, records[i]).value, Carried(v, c, records[j]).value, latest)
    {
      assert i >= base;
      assert EntryAt(v, c, r, records, base, ids, i - base) && EntryAt(v, c, r, records, base, ids, j - base);
      var a, b := ids[i - base], ids[j - base];
      assert EntryNeat(channel, r, a) && EntryNeat(channel, r, b);
      assert r.entries[a].stripped.establishedAt <= r.entries[b].stripped.establishedAt;
    }
  }

  lemma RecordsNeat(v: Vault, c: Codec, channel: string -> string, r: Registry, records: seq<Record>, base: nat,
                    ids: seq<string>, latest: nat)
    requires AllListed(v, c, r, records, base, ids) && Covered(r) && RegistryNeat(channel, r, latest)
    requires Enumerates(ids, r.entries.Keys) && Chronological(r, ids)
    ensures FileNeat(v, c, channel, r, records, latest, None)
  {
    ListedTidy(v, c, channel, r, records, base, ids, latest);
    ListedInOrder(v, c, channel, r, records, base, ids, latest);
  }

  lemma CompactBundlesFirst(c: Codec, ts: nat, r: Registry, digests: seq<string>, ids: seq<string>)
    requires Listing(r, digests, ids)
    ensures BundlesFirst(CompactRecords(c, ts, r, digests, ids), |digests|)
  {
    forall i | 0 <= i < |digests|
      ensures CompactRecords(c, ts, r, digests, ids)[i].kind == EVIDENCE
    {
      CompactIsBundle(c, ts, r, digests, ids, i);
    }
  }

  lemma CompactEntries(v: Vault, c: Codec, ts: nat, r: Registry, digests: seq<string>, ids: seq<string>)
    requires v.Lawful() && c.Lawful() && r.Sound(v) && Listing(r, digests, ids)
    ensures EntriesFrom(v, c, r, CompactRecords(c, ts, r, digests, ids), |digests|, ids)
  {
    forall k: nat | k < |ids|
      ensures EntryAt(v, c, r, CompactRecords(c, ts, r, digests, ids), |digests|, ids, k)
    {
      EntryListed(v, c, ts, r, digests, ids, k);
    }
  }

  /** A compaction that lists oldest first leaves a clean log. */
  lemma CompactNeat(v: Vault, c: Codec, channel: string -> string, ts: nat, r: Registry, digests: seq<string>,
                    ids: seq<string>, latest: nat)
    requires v.Lawful() && c.Lawful() && r.Sound(v) && Covered(r) && RegistryNeat(channel, r, latest)
    requires Listing(r, digests, ids) && Chronological(r, ids)
    ensures FileNeat(v, c, channel, r, CompactRecords(c, ts, r, digests, ids), latest, None)
  {
    CompactBundlesFirst(c, ts, r, digests, ids);
    CompactEntries(v, c, ts, r, digests, ids);
    RecordsNeat(v, c, channel, r, CompactRecords(c, ts, r, digests, ids), |digests|, ids, latest);
  }

  lemma SnapshotStep(v: Vault, c: Codec, channel: string -> string, w: World, a: Action)
    requires Good(v, c, channel, w) && Enabled(v, c, w, a) && Orderly(c, channel, w, a) && a.CompactSnapshot?
    ensures Neat(v, c, channel, Apply(v, c, w, a))
  {
    var r := CompactFrom(w, a.held);
    EvictKeepsLive(w.registry, w.holder.now, a.held, w.latest);
    KeepsNeat(v, c, channel, w, r, w.latest);
    EvictWithin(v, w.registry, w.holder.now, a.held);
    EvictMapped(w.registry, w.holder.now, a.held, w.latest);
    CompactNeat(v, c, channel, w.holder.now, r, a.digests, a.ids, w.latest);
  }

  lemma RenameStep(v: Vault, c: Codec, channel: string -> string, w: World)
    requires c.Lawful() && Neat(v, c, channel, w) && w.holder.Snapshot?
    ensures Neat(v, c, channel, Apply(v, c, w, CompactRename))
  {
    RecordsOfText(c, w.holder.records);
  }

  lemma FinishStep(v: Vault, c: Codec, channel: string -> string, w: World)
    requires Neat(v, c, channel, w) && w.holder.Renamed?
    ensures Neat(v, c, channel, Apply(v, c, w, CompactFinish))
  {
    KeepsNeat(v, c, channel, w, w.registry.MarkAllPersisted(), w.latest);
  }

  // ---------- every step, every run ----------

  lemma ArriveNeat(v: Vault, c: Codec, channel: string -> string, w: World, q: Request, held: set<nat>)
    requires Neat(v, c, channel, w)
    ensures Neat(v, c, channel, Apply(v, c, w, Arrive(q, held)))
  {
    var w' := Apply(v, c, w, Arrive(q, held));
    CurrentKeepsLive(w.registry, q, held, w'.latest);
    KeepsNeat(v, c, channel, w, w'.registry, w'.latest);
  }

  lemma LookupNeat(v: Vault, c: Codec, channel: string -> string, w: World, now: nat, held: set<nat>)
    requires Neat(v, c, channel, w)
    ensures Neat(v, c, channel, Apply(v, c, w, Lookup(now, held)))
  {
    EvictKeepsLive(w.registry, now, held, Max(w.latest, now));
    KeepsNeat(v, c, channel, w, w.registry.Evict(now, held), Max(w.latest, now));
  }

  lemma ExtendNeat(v: Vault, c: Codec, channel: string -> string, w: World, id: string, deadline: nat)
    requires Neat(v, c, channel, w) && id in w.registry.entries
    ensures Neat(v, c, channel, Apply(v, c, w, Extend(id, deadline)))
  {
    ProlongKeepsLive(w.registry, id, deadline, w.latest);
    KeepsNeat(v, c, channel, w, w.registry.Prolong(id, deadline), w.latest);
  }

  lemma CompactStartNeat(v: Vault, c: Codec, channel: string -> string, w: World, now: nat)
    requires Neat(v, c, channel, w) && w.holder.Free?
    ensures Neat(v, c, channel, Apply(v, c, w, CompactStart(now)))
  {
    KeepsNeat(v, c, channel, w, w.registry, Max(w.latest, now));
  }

  lemma RecheckNeat(v: Vault, c: Codec, channel: string -> string, w: World, held: set<nat>)
    requires Neat(v, c, channel, w) && w.holder.Rechecking? && w.holder.q.now <= w.latest
    ensures Neat(v, c, channel, Apply(v, c, w, Recheck(held)))
  {
    var w' := Apply(v, c, w, Recheck(held));
    CurrentKeepsLive(w.registry, w.holder.q, held, w.latest);
    KeepsNeat(v, c, channel, w, w'.registry, w.latest);
  }

  lemma NeatStep(v: Vault, c: Codec, channel: string -> string, w: World, a: Action)
    requires Good(v, c, channel, w) && Enabled(v, c, w, a) && Orderly(c, channel, w, a)
    ensures Neat(v, c, channel, Apply(v, c, w, a))
  {
    if a.Arrive? {
      ArriveNeat(v, c, channel, w, a.q, a.held);
    } else if a.Lookup? {
      LookupNeat(v, c, channel, w, a.now, a.held);
    } else if a.Extend? {
      ExtendNeat(v, c, channel, w, a.id, a.deadline);
    } else if a.CompactStart? {
      CompactStartNeat(v, c, channel, w, a.now);
    } else if a.Recheck? {
      RecheckNeat(v, c, channel, w, a.held);
    } else if a.WriteOk? || a.WriteFails? {
      WriteStep(v, c, channel, w, a);
    } else if a.Publish? {
      PublishStep(v, c, channel, w, a.held);
    } else if a.CompactSnapshot? {
      SnapshotStep(v, c, channel, w, a);
    } else if a.CompactRename? {
      RenameStep(v, c, channel, w);
    } else if a.CompactFinish? {
      FinishStep(v, c, channel, w);
    }
  }

  lemma {:induction false} OrderlyRunKeeps(v: Vault, c: Codec, channel: string -> string, w: World, actions: seq<Action>)
    requires Good(v, c, channel, w) && OrderlyRun(v, c, channel, w, actions)
    ensures Runs(v, c, w, actions) && Good(v, c, channel, After(v, c, w, actions))
    decreases |actions|
  {
    if actions != [] {
      LogStep(v, c, w, actions[0]);
      ChannelStep(v, c, w, actions[0]);
      NeatStep(v, c, channel, w, actions[0]);
      OrderlyRunKeeps(v, c, channel, Apply(v, c, w, actions[0]), actions[1..]);
    }
  }

  // ---------- reading a clean log ----------

  /** The entry was loaded from record `i`. */
  ghost predicate FromRecord(v: Vault, c: Codec, channel: string -> string, records: seq<Record>, now: nat, r: Registry,
                             id: string, i: nat)
    requires id in r.entries
  {
    && i < |records| && LiveAt(v, c, records[i], now)
    && Carried(v, c, records[i]).value.id == id && Carried(v, c, records[i]).value.stripped == r.entries[id].stripped
    && r.entries[id].fingerprint == channel(id)
  }

  ghost predicate AllFrom(v: Vault, c: Codec, channel: string -> string, records: seq<Record>, now: nat, r: Registry) {
    forall id :: id in r.entries ==> exists i: nat :: FromRecord(v, c, channel, records, now, r, id, i)
  }

  lemma ReplayTidy(v: Vault, c: Codec, channel: string -> string, now: nat, st: Replayed, record: Record)
    requires v.Lawful() && ReplayInv(v, st) && Tidy(v, c, channel, record)
    ensures var r, r' := st.registry, ReplayOne(v, c, now, st, record).registry;
            || r' == r
            || (LiveAt(v, c, record, now)
                && var p := Carried(v, c, record).value;
                   r' == r.Insert(channel(p.id), p, record.retentionUntil.value, st.tokens))
  {
    if record.kind == SESSION {
      var p := Carried(v, c, record).value;
      assert v.Whole(p);
      if p.digest in st.bundles {
        assert v.content(v.digest(st.bundles[p.digest])) == v.content(v.digest(p.bundle));
        ReplaySessionExact(v, c, record, st.bundles, p);
      }
    }
  }

  lemma FromMore(v: Vault, c: Codec, channel: string -> string, records: seq<Record>, now: nat, r: Registry)
    requires records != [] && AllFrom(v, c, channel, records[..|records| - 1], now, r)
    ensures AllFrom(v, c, channel, records, now, r)
  {
    forall id | id in r.entries
      ensures exists i: nat :: FromRecord(v, c, channel, records, now, r, id, i)
    {
      var i: nat :| FromRecord(v, c, channel, records[..|records| - 1], now, r, id, i);
      assert FromRecord(v, c, channel, records, now, r, id, i);
    }
  }

  lemma InsertedFrom(v: Vault, c: Codec, channel: string -> string, records: seq<Record>, now: nat, r: Registry,
                     p: Split, until: nat, token: nat, n: nat)
    requires AllFrom(v, c, channel, records, now, r)
    requires n < |records| && LiveAt(v, c, records[n], now) && Carried(v, c, records[n]) == Some(p)
    ensures AllFrom(v, c, channel, records, now, r.Insert(channel(p.id), p, until, token))
  {
    var r' := r.Insert(channel(p.id), p, until, token);
    forall id | id in r'.entries
      ensures exists i: nat :: FromRecord(v, c, channel, records, now, r', id, i)
    {
      if id == p.id {
        assert FromRecord(v, c, channel, records, now, r', id, n);
      } else {
        var i: nat :| FromRecord(v, c, channel, records, now, r, id, i);
        assert FromRecord(v, c, channel, records, now, r', id, i);
      }
    }
  }

  /** What was loaded of the channel before `p` was over. */
  lemma LoadedOver(v: Vault, c: Codec, channel: string -> string, records: seq<Record>, now: nat, r: Registry,
                   p: Split, id: string, last: nat)
    requires last < |records| && InOrder(v, c, channel, records, now) && AllFrom(v, c, channel, records[..last], now, r)
    requires LiveAt(v, c, records[last], now) && Carried(v, c, records[last]) == Some(p)
    requires id in r.entries && id != p.id && r.entries[id].fingerprint == channel(p.id)
    ensures r.entries[id].stripped.expiresAt <= now
  {
    var i: nat :| FromRecord(v, c, channel, records[..last], now, r, id, i);
    assert records[..last][i] == records[i];
    assert Succeeds(channel, Carried(v, c, records[i]).value, p, now);
  }

  // A session loaded after the others of its channel takes over the channel.
  lemma TakesOver(r: Registry, fp: string, p: Split, until: nat, token: nat, now: nat)
    requires Mapped(r, now)
    requires forall id :: id in r.entries && id != p.id && r.entries[id].fingerprint == fp
               ==> r.entries[id].stripped.expiresAt <= now
    ensures Mapped(r.Insert(fp, p, until, token), now)
  {
  }

  lemma InsertedMapped(v: Vault, c: Codec, channel: string -> string, records: seq<Record>, now: nat, r: Registry,
                       p: Split, until: nat, token: nat, last: nat)
    requires last < |records| && InOrder(v, c, channel, records, now) && AllFrom(v, c, channel, records[..last], now, r)
    requires LiveAt(v, c, records[last], now) && Carried(v, c, records[last]) == Some(p) && Mapped(r, now)
    ensures Mapped(r.Insert(channel(p.id), p, until, token), now)
  {
    forall id | id in r.entries && id != p.id && r.entries[id].fingerprint == channel(p.id)
      ensures r.entries[id].stripped.expiresAt <= now
    {
      LoadedOver(v, c, channel, records, now, r, p, id, last);
    }
    TakesOver(r, channel(p.id), p, until, token, now);
  }

  lemma {:induction false} ReplayMapped(v: Vault, c: Codec, channel: string -> string, now: nat, records: seq<Record>)
    requires v.Lawful() && AllTidy(v, c, channel, records) && InOrder(v, c, channel, records, now)
    ensures var r := ReplayAll(v, c, now, records).registry;
            Mapped(r, now) && AllFrom(v, c, channel, records, now, r)
  {
    if records != [] {
      var last := |records| - 1;
      var st := ReplayAll(v, c, now, records[..last]);
      ReplayKeeps(v, c, now, records[..last]);
      InOrderPrefix(v, c, channel, records, now);
      ReplayMapped(v, c, channel, now, records[..last]);
      ReplayTidy(v, c, channel, now, st, records[last]);
      FromMore(v, c, channel, records, now, st.registry);
      if ReplayAll(v, c, now, records).registry != st.registry {
        var p, until := Carried(v, c, records[last]).value, records[last].retentionUntil.value;
        InsertedMapped(v, c, channel, records, now, st.registry, p, until, st.tokens, last);
        InsertedFrom(v, c, channel, records, now, st.registry, p, until, st.tokens, last);
      }
    }
  }

  lemma InOrderPrefix(v: Vault, c: Codec, channel: string -> string, records: seq<Record>, now: nat)
    requires records != [] && InOrder(v, c, channel, records, now)
    ensures InOrder(v, c, channel, records[..|records| - 1], now)
  {
    var some := records[..|records| - 1];
    forall i, j | 0 <= i < j < |some| && LiveAt(v, c, some[i], now) && LiveAt(v, c, some[j], now)
      ensures Succeeds(channel, Carried(v, c, some[i]).value, Carried(v, c, some[j]).value, now)
    {
      assert some[i] == records[i] && some[j] == records[j];
    }
  }

  lemma FromFollows(v: Vault, c: Codec, channel: string -> string, records: seq<Record>, now: nat, r: Registry,
                    a: string, b: string, i: nat, j: nat)
    requires a in r.entries && b in r.entries && a != b && r.entries[a].fingerprint == r.entries[b].fingerprint
    requires InOrder(v, c, channel, records, now)
    requires FromRecord(v, c, channel, records, now, r, a, i) && FromRecord(v, c, channel, records, now, r, b, j)
    ensures if i < j then Follows(r, a, b, now) else Follows(r, b, a, now)
  {
    var x, y := Carried(v, c, records[i]).value, Carried(v, c, records[j]).value;
    if i < j {
      assert Succeeds(channel, x, y, now);
    } else {
      assert j < i && Succeeds(channel, y, x, now);
    }
  }

  lemma LoadedFollows(v: Vault, c: Codec, channel: string -> string, records: seq<Record>, now: nat, r: Registry,
                      a: string, b: string)
    requires InOrder(v, c, channel, records, now) && AllFrom(v, c, channel, records, now, r)
    requires a in r.entries && b in r.entries && a != b && r.entries[a].fingerprint == r.entries[b].fingerprint
    requires r.entries[a].stripped.establishedAt <= r.entries[b].stripped.establishedAt
    ensures Follows(r, a, b, now)
  {
    var i: nat :| FromRecord(v, c, channel, records, now, r, a, i);
    var j: nat :| FromRecord(v, c, channel, records, now, r, b, j);
    FromFollows(v, c, channel, records, now, r, a, b, i, j);
  }

  lemma FromSuccessive(v: Vault, c: Codec, channel: string -> string, records: seq<Record>, now: nat, r: Registry)
    requires InOrder(v, c, channel, records, now) && AllFrom(v, c, channel, records, now, r)
    ensures Successive(r, now)
  {
    forall a, b | a in r.entries && b in r.entries && a != b && r.entries[a].fingerprint == r.entries[b].fingerprint
                  && r.entries[a].stripped.establishedAt <= r.entries[b].stripped.establishedAt
      ensures Follows(r, a, b, now)
    {
      LoadedFollows(v, c, channel, records, now, r, a, b);
    }
  }

  lemma FromEntries(v: Vault, c: Codec, channel: string -> string, records: seq<Record>, now: nat, r: Registry)
    requires AllTidy(v, c, channel, records) && AllFrom(v, c, channel, records, now, r)
    ensures forall id :: id in r.entries ==> EntryNeat(channel, r, id)
  {
    forall id | id in r.entries
      ensures EntryNeat(channel, r, id)
    {
      var i: nat :| FromRecord(v, c, channel, records, now, r, id, i);
      assert Tidy(v, c, channel, records[i]);
    }
  }

  /** Opening a clean file, at any time no earlier than the last it was used at, finds its sessions mapped. */
  lemma ReopensMapped(v: Vault, c: Codec, channel: string -> string, w: World, now: nat)
    requires v.Lawful() && Neat(v, c, channel, w) && w.latest <= now
    ensures var r := Reopened(v, c, w.file, now);
            Covered(r) && Mapped(r, now) && RegistryNeat(channel, r, now)
  {
    var records := Records(c, w.file);
    var r := ReplayAll(v, c, now, records).registry;
    LaterInOrder(v, c, channel, records, w.latest, now);
    ReplayMapped(v, c, channel, now, records);
    FromSuccessive(v, c, channel, records, now, r);
    FromEntries(v, c, channel, records, now, r);
    ReplayKeeps(v, c, now, records);
    SoundCovered(v, r);
    MarkMapped(r, "", now);
    KeepsRegistry(channel, r, r.MarkAllPersisted(), now, now);
  }

  lemma SoundCovered(v: Vault, r: Registry)
    requires r.Sound(v)
    ensures Covered(r)
  {
    forall id | id in r.entries
      ensures r.entries[id].stripped.expiresAt <= r.entries[id].retentionUntil
    {
      assert r.Backed(v, id);
    }
  }

  // ---------- lives ----------

  /** One start of the gateway on the file it finds, and the run until it stops, at whatever step. */
  datatype Life = Life(
    loaded: nat, compacted: nat, digests: seq<string>, ids: seq<string>, tokens: nat, actions: seq<Action>)

  ghost function Compacted(v: Vault, c: Codec, w: World, life: Life): Registry {
    Reopened(v, c, w.file, life.loaded).Evict(life.compacted, {})
  }

  /** Clocks do not go back over a restart, and the startup compaction lists oldest first. */
  ghost predicate Starts(v: Vault, c: Codec, w: World, life: Life) {
    && w.latest <= life.loaded <= life.compacted
    && Listing(Compacted(v, c, w, life), life.digests, life.ids) && Chronological(Compacted(v, c, w, life), life.ids)
  }

  ghost function Begun(v: Vault, c: Codec, w: World, life: Life): World
    requires Starts(v, c, w, life)
  {
    Startup(v, c, w.file, life.loaded, life.compacted, life.digests, life.ids, life.tokens)
  }

  ghost predicate Lived(v: Vault, c: Codec, channel: string -> string, w: World, lives: seq<Life>)
    decreases |lives|
  {
    lives == [] || (Starts(v, c, w, lives[0]) && OrderlyRun(v, c, channel, Begun(v, c, w, lives[0]), lives[0].actions)
                    && Runs(v, c, Begun(v, c, w, lives[0]), lives[0].actions)
                    && Lived(v, c, channel, After(v, c, Begun(v, c, w, lives[0]), lives[0].actions), lives[1..]))
  }

  ghost function AfterLives(v: Vault, c: Codec, channel: string -> string, w: World, lives: seq<Life>): World
    requires Lived(v, c, channel, w, lives)
    decreases |lives|
  {
    if lives == [] then w
    else AfterLives(v, c, channel, After(v, c, Begun(v, c, w, lives[0]), lives[0].actions), lives[1..])
  }

  lemma CompactedNeat(v: Vault, c: Codec, channel: string -> string, w: World, life: Life)
    requires v.Lawful() && Neat(v, c, channel, w) && Starts(v, c, w, life)
    ensures var r := Compacted(v, c, w, life);
            r.Sound(v) && Covered(r) && Mapped(r, life.compacted) && RegistryNeat(channel, r, life.compacted)
  {
    var o := Reopened(v, c, w.file, life.loaded);
    ReopensMapped(v, c, channel, w, life.loaded);
    ReopenedSound(v, c, w.file, life.loaded);
    EvictWithin(v, o, life.compacted, {});
    LaterMapped(o, life.loaded, life.compacted);
    EvictMapped(o, life.compacted, {}, life.compacted);
    EvictKeepsLive(o, life.compacted, {}, life.compacted);
    KeepsRegistry(channel, o, Compacted(v, c, w, life), life.loaded, life.compacted);
  }

  lemma MarkedNeat(v: Vault, c: Codec, channel: string -> string, r: Registry, records: seq<Record>, latest: nat)
    requires FileNeat(v, c, channel, r, records, latest, None) && RegistryNeat(channel, r, latest)
    ensures FileNeat(v, c, channel, r.MarkAllPersisted(), records, latest, None)
    ensures RegistryNeat(channel, r.MarkAllPersisted(), latest)
  {
    KeepsFile(v, c, channel, r, r.MarkAllPersisted(), records, latest, latest, None);
    KeepsRegistry(channel, r, r.MarkAllPersisted(), latest, latest);
  }

  lemma BegunIs(v: Vault, c: Codec, w: World, life: Life, r: Registry, records: seq<Record>)
    requires c.Lawful() && Starts(v, c, w, life) && r == Compacted(v, c, w, life)
    requires records == CompactRecords(c, life.compacted, r, life.digests, life.ids)
    ensures var w' := Begun(v, c, w, life);
            && w'.registry == r.MarkAllPersisted() && Records(c, w'.file) == records
            && w'.latest == life.compacted && w'.holder.Free? && w'.waiting == multiset{}
  {
    RecordsOfText(c, records);
  }

  lemma RestNeat(v: Vault, c: Codec, channel: string -> string, w: World, r: Registry, records: seq<Record>)
    requires w.registry == r.MarkAllPersisted() && Records(c, w.file) == records && w.holder.Free?
    requires FileNeat(v, c, channel, r, records, w.latest, None) && RegistryNeat(channel, r, w.latest)
    ensures Neat(v, c, channel, w)
  {
    MarkedNeat(v, c, channel, r, records, w.latest);
  }

  lemma RestChannel(w: World, r: Registry)
    requires w.registry == r.MarkAllPersisted() && w.holder.Free? && w.waiting == multiset{}
    requires Covered(r) && Mapped(r, w.latest)
    ensures ChannelInv(w)
  {
    MarkMapped(r, "", w.latest);
  }

  /** A start on a clean file is a clean start. */
  lemma BegunGood(v: Vault, c: Codec, channel: string -> string, w: World, life: Life)
    requires v.Lawful() && c.Lawful() && Neat(v, c, channel, w) && Starts(v, c, w, life)
    ensures Good(v, c, channel, Begun(v, c, w, life))
  {
    var r := Compacted(v, c, w, life);
    var records := CompactRecords(c, life.compacted, r, life.digests, life.ids);
    CompactedNeat(v, c, channel, w, life);
    CompactNeat(v, c, channel, life.compacted, r, life.digests, life.ids, life.compacted);
    BegunIs(v, c, w, life, r, records);
    RestNeat(v, c, channel, Begun(v, c, w, life), r, records);
    RestChannel(Begun(v, c, w, life), r);
    StartupLog(v, c, w.file, life.loaded, life.compacted, life.digests, life.ids, life.tokens);
  }

  lemma {:induction false} LivesKeep(v: Vault, c: Codec, channel: string -> string, w: World, lives: seq<Life>)
    requires v.Lawful() && c.Lawful() && Good(v, c, channel, w) && Lived(v, c, channel, w, lives)
    ensures Good(v, c, channel, AfterLives(v, c, channel, w, lives))
    decreases |lives|
  {
    if lives != [] {
      var w1 := Begun(v, c, w, lives[0]);
      BegunGood(v, c, channel, w, lives[0]);
      OrderlyRunKeeps(v, c, channel, w1, lives[0].actions);
      LivesKeep(v, c, channel, After(v, c, w1, lives[0].actions), lives[1..]);
    }
  }

  /** No store yet, and no file. */
  const Nothing := World(Empty, [], false, 0, Free, multiset{}, 0, 0)

  lemma NothingGood(v: Vault, c: Codec, channel: string -> string)
    requires v.Lawful() && c.Lawful()
    ensures Good(v, c, channel, Nothing)
  {
    NoRecordInNothing(c);
  }

  /**
    Over any number of restarts, each after a crash at any step, with writes
    failing anywhere but in their last byte and compactions failing at any step:
    at every moment at most one stored session of a channel is valid, also in the
    store that a next start would find.
   */
  lemma OneSessionForLife(v: Vault, c: Codec, channel: string -> string, lives: seq<Life>, now: nat, a: string, b: string)
    requires v.Lawful() && c.Lawful() && Lived(v, c, channel, Nothing, lives)
    requires AfterLives(v, c, channel, Nothing, lives).latest <= now
    ensures var w := AfterLives(v, c, channel, Nothing, lives);
            !TwoUsable(w, a, b) && Mapped(Reopened(v, c, w.file, now), now)
  {
    NothingGood(v, c, channel);
    LivesKeep(v, c, channel, Nothing, lives);
    ReopensMapped(v, c, channel, AfterLives(v, c, channel, Nothing, lives), now);
  }
}

/**
  The durable session store (src/aggregator/session_store.rs) with its index and
  its log file, each call taken on its own. What many overlapping calls do is in
  `StoreRuns`; what a restart does is in `Restart`.
 */
module SessionStore {
  import opened Foundation
  import opened Session
  import opened Vault
  import opened Registry
  import opened SessionIndex
  import opened SessionLog

  // ---------- the order of compaction ----------

  predicate LexLe(a: string, b: string) {
    a == [] || (b != [] && (a[0] < b[0] || (a[0] == b[0] && LexLe(a[1..], b[1..]))))
  }

  lemma {:induction false} LexTotal(a: string, b: string)
    ensures LexLe(a, b) || LexLe(b, a)
  {
    if a != [] && b != [] && a[0] == b[0] { LexTotal(a[1..], b[1..]); }
  }

  lemma {:induction false} LexTrans(a: string, b: string, d: string)
    requires LexLe(a, b) && LexLe(b, d)
    ensures LexLe(a, d)
  {
    if a != [] && a[0] == b[0] == d[0] { LexTrans(a[1..], b[1..], d[1..]); }
  }

  /** Oldest first, then by id. */
  predicate Before(entries: map<string, Entry>, a: string, b: string)
    requires a in entries && b in entries
  {
    var x, y := entries[a].stripped.establishedAt, entries[b].stripped.establishedAt;
    x < y || (x == y && LexLe(a, b))
  }

  ghost predicate Sorted(entries: map<string, Entry>, ids: seq<string>) {
    && (forall id :: id in ids ==> id in entries)
    && (forall i, j :: 0 <= i < j < |ids| ==> Before(entries, ids[i], ids[j]))
  }

  lemma BeforeTrans(entries: map<string, Entry>, a: string, b: string, d: string)
    requires a in entries && b in entries && d in entries && Before(entries, a, b) && Before(entries, b, d)
    ensures Before(entries, a, d)
  {
    if LexLe(a, b) && LexLe(b, d) { LexTrans(a, b, d); }
  }

  lemma InsertedSorted(entries: map<string, Entry>, ids: seq<string>, id: string, k: nat)
    requires Sorted(entries, ids) && id in entries && k <= |ids|
    requires forall i :: 0 <= i < k ==> Before(entries, ids[i], id)
    requires k < |ids| ==> Before(entries, id, ids[k])
    ensures Sorted(entries, ids[..k] + [id] + ids[k..])
  {
    var all := ids[..k] + [id] + ids[k..];
    forall i, j | 0 <= i < j < |all|
      ensures Before(entries, all[i], all[j])
    {
      if i == k < j - 1 { BeforeTrans(entries, id, ids[k], ids[j - 1]); }
    }
  }

  lemma InsertedEnumerates(ids: seq<string>, done: set<string>, id: string, k: nat)
    requires Enumerates(ids, done) && id !in done && k <= |ids|
    ensures Enumerates(ids[..k] + [id] + ids[k..], done + {id})
  {
    var all := ids[..k] + [id] + ids[k..];
    assert ids == ids[..k] + ids[k..];
    forall i, j | 0 <= i < j < |all|
      ensures all[i] != all[j]
    {
      assert ids[..k] <= ids;
    }
  }

  /** The ids of the sessions, oldest first. */
  method OldestFirst(entries: map<string, Entry>) returns (ids: seq<string>)
    ensures Enumerates(ids, entries.Keys) && Sorted(entries, ids)
  {
    ids := [];
    var left := entries.Keys;
    while left != {}
      invariant left <= entries.Keys && Enumerates(ids, entries.Keys - left) && Sorted(entries, ids)
    {
      var id :| id in left;
      var k := |ids|;
      while k > 0 && !Before(entries, ids[k - 1], id)
        invariant 0 <= k <= |ids| && (k < |ids| ==> Before(entries, id, ids[k]))
      {
        LexTotal(ids[k - 1], id);
        k := k - 1;
      }
      forall i | 0 <= i < k
        ensures Before(entries, ids[i], id)
      {
        if i < k - 1 { BeforeTrans(entries, ids[i], ids[k - 1], id); }
      }
      InsertedSorted(entries, ids, id, k);
      InsertedEnumerates(ids, entries.Keys - left, id, k);
      assert entries.Keys - (left - {id}) == (entries.Keys - left) + {id};
      ids := ids[..k] + [id] + ids[k..];
      left := left - {id};
    }
  }

  /** The keys of a map, in some order. */
  method KeysOf(bundles: map<string, Bundle>) returns (keys: seq<string>)
    ensures Enumerates(keys, bundles.Keys)
  {
    keys := [];
    var left := bundles.Keys;
    while left != {}
      invariant left <= bundles.Keys && Enumerates(keys, bundles.Keys - left)
    {
      var key :| key in left;
      left := left - {key};
      keys := keys + [key];
    }
  }

  // ---------- writing ----------

  lemma {:induction false} TextSnoc(c: Codec, records: seq<Record>, record: Record)
    ensures Text(c, records + [record]) == Text(c, records) + (c.render(record) + [LF])
  {
    if records == [] {
      assert [record][1..] == [];
    } else {
      TextSnoc(c, records[1..], record);
      assert (records + [record])[1..] == records[1..] + [record];
    }
  }

  /** The lines of a compaction: bundles first, then the sessions as listed, numbered from zero. */
  method CompactLines(c: Codec, now: nat, index: SessionIndex, digests: seq<string>, ids: seq<string>)
    returns (text: seq<byte>, n: nat)
    requires (forall d :: d in digests ==> d in index.bundles) && (forall id :: id in ids ==> id in index.byId)
    ensures text == Text(c, CompactRecords(c, now, index.View(), digests, ids)) && n == |digests| + |ids|
  {
    ghost var records := CompactRecords(c, now, index.View(), digests, ids);
    text, n := [], 0;
    while n < |digests|
      invariant n <= |digests| && text == Text(c, records[..n])
    {
      var record := EvidenceRecord(c, n, now, index.bundles[digests[n]].bytes);
      assert record == records[n] && records[..n + 1] == records[..n] + [record];
      TextSnoc(c, records[..n], record);
      text := text + (c.render(record) + [LF]);
      n := n + 1;
    }
    while n < |digests| + |ids|
      invariant |digests| <= n <= |digests| + |ids| && text == Text(c, records[..n])
    {
      var e := index.byId[ids[n - |digests|]];
      var record := SessionRecord(c, n, now, e.fingerprint, e.retentionUntil, e.contentType, e.stripped);
      assert record == records[n] && records[..n + 1] == records[..n] + [record];
      TextSnoc(c, records[..n], record);
      text := text + (c.render(record) + [LF]);
      n := n + 1;
    }
    assert records[..n] == records;
  }

  // ---------- the durable store ----------

  lemma EvictTwice(r: Registry, now: nat, held: set<nat>)
    requires forall d :: d in r.stored ==> r.Citing(d) != {}
    ensures r.Evict(now, held).Evict(now, held) == r.Evict(now, held)
  {
    var e := r.Evict(now, held);
    WithoutWithin(r, r.Lapsed(now, held));
    assert e.Lapsed(now, held) == {};
    WithoutNothing(e);
  }

  lemma {:induction false} ReplayMore(v: Vault, c: Codec, now: nat, records: seq<Record>, record: Record)
    ensures ReplayAll(v, c, now, records + [record]) == ReplayOne(v, c, now, ReplayAll(v, c, now, records), record)
  {
    assert (records + [record])[..|records|] == records;
  }

  lemma ReplayConsistent(v: Vault, c: Codec, now: nat, records: seq<Record>, record: Record,
                         bundles: map<string, seq<byte>>)
    requires v.Lawful() && ReplaySession(v, c, record, bundles).Some?
    ensures var r, p := ReplayAll(v, c, now, records).registry, ReplaySession(v, c, record, bundles).value;
            p.stripped.evidence.digest == Some(p.digest) && (p.id in r.entries ==> r.entries[p.id].Digest() == p.digest)
  {
    ReplayKeeps(v, c, now, records);
    ReplayedGenuine(v, c, record, bundles);
    InsertAgrees(v, ReplayAll(v, c, now, records).registry, ReplaySession(v, c, record, bundles).value);
  }

  lemma RecordsByLine(c: Codec, file: seq<byte>)
    requires c.Lawful()
    ensures var end := LineEnd(file);
            Records(c, file) == Parsed(c, file[..end]) + Records(c, if end == |file| then [] else file[end + 1..])
  {
    NoRecordInNothing(c);
    assert file[..|file|] == file;
  }

  /** `done` are the records of `bytes` before `rest`. */
  ghost predicate Reads(c: Codec, bytes: seq<byte>, done: seq<Record>, rest: seq<byte>) {
    Records(c, bytes) == done + Records(c, rest)
  }

  /** Read up to and over the next newline. */
  method TakeLine(c: Codec, file: seq<byte>, ghost bytes: seq<byte>, ghost done: seq<Record>)
    returns (line: seq<byte>, rest: seq<byte>)
    requires file != [] && c.Lawful() && Reads(c, bytes, done, file)
    ensures |rest| < |file| && LF !in line && Reads(c, bytes, done + Parsed(c, line), rest)
  {
    var end := LineEnd(file);
    RecordsByLine(c, file);
    line, rest := file[..end], if end == |file| then [] else file[end + 1..];
  }

  lemma ReadsAll(c: Codec, bytes: seq<byte>, done: seq<Record>)
    requires c.Lawful() && Reads(c, bytes, done, [])
    ensures Records(c, bytes) == done
  {
    NoRecordInNothing(c);
  }

  /** The index after a session is published, and the lease on it, which this eviction already respects. */
  function Published(r: Registry, fingerprint: string, p: Split, until: nat, token: nat, now: nat,
                     held: set<nat>): (Registry, Lease) {
    var r' := r.Insert(fingerprint, p, until, token).MarkPersisted(p.digest);
    var lease := r'.LeaseOf(p.id);
    (r'.Evict(now, held + {lease.token}), lease)
  }

  lemma PublishedSound(v: Vault, r: Registry, fingerprint: string, p: Split, until: nat, token: nat, now: nat,
                       held: set<nat>)
    requires v.Lawful() && r.Sound(v) && v.genuine(p)
    ensures Published(r, fingerprint, p, until, token, now, held).0.Sound(v)
    ensures p.stripped.evidence.digest == Some(p.digest) && (p.id in r.entries ==> r.entries[p.id].Digest() == p.digest)
  {
    var i := r.Insert(fingerprint, p, until, token);
    InsertAgrees(v, r, p);
    InsertSound(v, r, fingerprint, p, until, token);
    MarkSound(v, i, p.digest);
    var m := i.MarkPersisted(p.digest);
    WithoutSound(v, m, m.Lapsed(now, held + {m.LeaseOf(p.id).token}));
  }

  lemma CompactedSound(v: Vault, r: Registry, now: nat, held: set<nat>)
    requires r.Sound(v)
    ensures r.Evict(now, held).Sound(v) && r.Evict(now, held).MarkAllPersisted().Sound(v)
  {
    WithoutSound(v, r, r.Lapsed(now, held));
    MarkSound(v, r.Evict(now, held), "");
  }

  /** The file side of the durable store. */
  datatype Log = Log(file: seq<byte>, nextSeq: nat, needsSeparator: bool)

  datatype Outcome = Outcome(registry: Registry, log: Log, tokens: nat, lease: Option<Lease>)

  function NewRecords(c: Codec, r: Registry, log: Log, fingerprint: string, retentionUntil: nat, now: nat,
                      p: Split): seq<Record> {
    AppendRecords(c, log.nextSeq, now, fingerprint, retentionUntil, p, p.digest in r.stored && r.stored[p.digest].persisted)
  }

  /** A write, which an error may stop after `torn` bytes. */
  predicate Torn(torn: Option<nat>, out: seq<byte>) {
    torn.Some? && torn.value <= |out|
  }

  /** The file after an append, and whether all of it was written: it may be refused, torn, or whole. */
  function Wrote(c: Codec, r: Registry, log: Log, fingerprint: string, p: Split, until: nat, now: nat,
                 torn: Option<nat>): (Log, bool) {
    var records := NewRecords(c, r, log, fingerprint, until, now, p);
    var out := Lead(log.needsSeparator) + Text(c, records);
    if log.nextSeq + |records| > U64_MAX then (log, false)
    else if Torn(torn, out) then (log.(file := log.file + out[..torn.value], needsSeparator := true), false)
    else (Log(log.file + out, log.nextSeq + |records|, false), true)
  }

  /** What an append leaves: a session is indexed only once its records are on file. */
  function Appended(c: Codec, r: Registry, log: Log, tokens: nat, fingerprint: string, p: Split, until: nat, now: nat,
                    held: set<nat>, torn: Option<nat>): Outcome
  {
    var (log', whole) := Wrote(c, r, log, fingerprint, p, until, now, torn);
    if !whole then Outcome(r, log', tokens, None)
    else
      var (r', lease) := Published(r, fingerprint, p, until, tokens, now, held);
      Outcome(r', log', tokens + 1, Some(lease))
  }

  /**
    What `current_or_seal` leaves once lapsed sessions are out: the channel's
    session prolonged, or the sealed one appended.
   */
  function Acquired(c: Codec, e: Registry, log: Log, tokens: nat, fingerprint: string, retentionUntil: nat, now: nat,
                    held: set<nat>, seal: Option<Split>, torn: Option<nat>): Outcome
  {
    match e.Usable(fingerprint, now)
    case Some(id) =>
      var r := e.Prolong(id, retentionUntil);
      Outcome(r, log, tokens, Some(r.LeaseOf(id)))
    case None =>
      if seal.None? then Outcome(e, log, tokens, None)
      else
        var until := Max(retentionUntil, seal.value.stripped.expiresAt);
        Appended(c, e, log, tokens, fingerprint, seal.value, until, now, held, torn)
  }

  lemma AppendedRegistry(c: Codec, r: Registry, log: Log, tokens: nat, fingerprint: string, p: Split, until: nat,
                         now: nat,
                         held: set<nat>, torn: Option<nat>)
    ensures var out := Appended(c, r, log, tokens, fingerprint, p, until, now, held, torn);
            out.registry == if out.lease.None? then r else Published(r, fingerprint, p, until, tokens, now, held).0
  {
  }

  lemma AppendedSound(v: Vault, c: Codec, r: Registry, log: Log, tokens: nat, fingerprint: string, p: Split,
                      until: nat, now: nat,
                      held: set<nat>, torn: Option<nat>)
    requires v.Lawful() && r.Sound(v) && v.genuine(p)
    ensures Appended(c, r, log, tokens, fingerprint, p, until, now, held, torn).registry.Sound(v)
  {
    AppendedRegistry(c, r, log, tokens, fingerprint, p, until, now, held, torn);
    PublishedSound(v, r, fingerprint, p, until, tokens, now, held);
  }

  /** The lease is on session `id`, which the channel maps to and which is retained until `until`, to the second. */
  ghost predicate LeasedUntil(r: Registry, lease: Lease, fingerprint: string, id: string, until: nat) {
    && lease.id == id && id in r.entries && r.Owns(lease) && lease.expiresAt == r.entries[id].stripped.expiresAt
    && fingerprint in r.current && r.current[fingerprint] == id && r.entries[id].retentionUntil == until
  }

  lemma PublishedIsRetained(r: Registry, fingerprint: string, p: Split, until: nat, token: nat, now: nat, held: set<nat>)
    requires p.stripped.expiresAt <= until
    ensures var (r', lease) := Published(r, fingerprint, p, until, token, now, held);
            && LeasedUntil(r', lease, fingerprint, p.id, if p.id in r.entries then Max(r.entries[p.id].retentionUntil, until) else until)
            && r'.entries[p.id].stripped == p.stripped && r'.entries[p.id].fingerprint == fingerprint
  {
  }

  /**
    A call that ends with a lease leaves its session retained: for as long as was
    asked for, for as long as the session is valid, and for as long as it was
    before; and, once no lease holds it, no longer.
   */
  lemma AcquiredIsRetained(c: Codec, e: Registry, log: Log, tokens: nat, fingerprint: string, retentionUntil: nat,
                           now: nat, held: set<nat>, seal: Option<Split>, torn: Option<nat>, t: nat)
    requires forall id :: id in e.entries ==> e.entries[id].stripped.expiresAt <= e.entries[id].retentionUntil
    ensures var out := Acquired(c, e, log, tokens, fingerprint, retentionUntil, now, held, seal, torn);
            out.lease.Some? ==>
              var id := out.lease.value.id;
              && fingerprint in out.registry.current && out.registry.current[fingerprint] == id
              && (id in out.registry.Evict(t, {}).entries
                  <==> t < retentionUntil || t < out.lease.value.expiresAt
                       || (id in e.entries && t < e.entries[id].retentionUntil))
  {
    var out := Acquired(c, e, log, tokens, fingerprint, retentionUntil, now, held, seal, torn);
    if out.lease.Some? {
      if seal.Some? {
        var until := Max(retentionUntil, seal.value.stripped.expiresAt);
        AppendedRegistry(c, e, log, tokens, fingerprint, seal.value, until, now, held, torn);
        PublishedIsRetained(e, fingerprint, seal.value, until, tokens, now, held);
      }
      GoneExactlyWhen(out.registry, out.lease.value.id, t, {});
    }
  }

  /**
    A call ends with a lease exactly on a hit, or when sealing and writing both
    succeed: on the channel's session, or on the one sealed.
   */
  lemma AcquiredExactly(c: Codec, e: Registry, log: Log, tokens: nat, fingerprint: string, retentionUntil: nat,
                        now: nat, held: set<nat>, seal: Option<Split>, torn: Option<nat>)
    ensures var out := Acquired(c, e, log, tokens, fingerprint, retentionUntil, now, held, seal, torn);
            var hit := fingerprint in e.current && e.current[fingerprint] in e.entries
                       && now < e.entries[e.current[fingerprint]].stripped.expiresAt;
            if hit then
              && out.lease.Some? && out.lease.value.id == e.current[fingerprint] && out.log == log
            else if seal.None? then
              && out.lease.None? && out.registry == e && out.log == log
            else
              var p, until := seal.value, Max(retentionUntil, seal.value.stripped.expiresAt);
              var records := AppendRecords(c, log.nextSeq, now, fingerprint, until, p,
                                           p.digest in e.stored && e.stored[p.digest].persisted);
              var text := Lead(log.needsSeparator) + Text(c, records);
              if log.nextSeq + |records| > U64_MAX then
                && out.lease.None? && out.registry == e && out.log == log
              else if torn.Some? && torn.value <= |text| then
                && out.lease.None? && out.registry == e
                && out.log == Log(log.file + text[..torn.value], log.nextSeq, true)
              else
                && out.lease.Some? && out.lease.value.id == p.id && p.id in out.registry.entries
                && out.registry.entries[p.id].stripped == p.stripped && out.registry.entries[p.id].fingerprint == fingerprint
                && out.log == Log(log.file + text, log.nextSeq + |records|, false)
  {
    if seal.Some? {
      var until := Max(retentionUntil, seal.value.stripped.expiresAt);
      AppendedRegistry(c, e, log, tokens, fingerprint, seal.value, until, now, held, torn);
      PublishedIsRetained(e, fingerprint, seal.value, until, tokens, now, held);
    }
  }

  /** `p` names its bundle, and so does a session stored under its id. */
  ghost predicate Fits(r: Registry, p: Split) {
    p.stripped.evidence.digest == Some(p.digest) && (p.id in r.entries ==> r.entries[p.id].Digest() == p.digest)
  }

  /** No call leaves a session that is not whole. */
  lemma AcquiredSound(v: Vault, c: Codec, e: Registry, log: Log, tokens: nat, fingerprint: string,
                      retentionUntil: nat, now: nat,
                      held: set<nat>, seal: Option<Split>, torn: Option<nat>)
    requires v.Lawful() && e.Sound(v) && (seal.Some? ==> v.genuine(seal.value))
    ensures Acquired(c, e, log, tokens, fingerprint, retentionUntil, now, held, seal, torn).registry.Sound(v)
    ensures seal.Some? ==> Fits(e, seal.value)
  {
    if seal.Some? { InsertAgrees(v, e, seal.value); }
    if e.Usable(fingerprint, now).Some? {
      ProlongSound(v, e, e.Usable(fingerprint, now).value, retentionUntil);
    } else if seal.Some? {
      var until := Max(retentionUntil, seal.value.stripped.expiresAt);
      AppendedSound(v, c, e, log, tokens, fingerprint, seal.value, until, now, held, torn);
    }
  }

  class JsonlSessionStore {
    const vault: Vault
    const codec: Codec
    const index: SessionIndex
    var file: seq<byte>
    var nextSeq: nat
    var needsSeparator: bool
    var tokens: nat

    ghost function View(): Registry
      reads index
    {
      index.View()
    }

    function LogNow(): Log
      reads this
    {
      Log(file, nextSeq, needsSeparator)
    }

    /** The index is in order and every session it holds is whole. */
    ghost predicate Valid()
      reads index
    {
      index.Valid() && View().Sound(vault)
    }

    /** Open the log: replay every line that is a record, whatever else the file holds. */
    constructor (v: Vault, c: Codec, bytes: seq<byte>, now: nat)
      requires v.Lawful() && c.Lawful()
      ensures Valid() && vault == v && codec == c && fresh(index)
      ensures View() == Reopened(v, c, bytes, now) && file == bytes && !needsSeparator
      ensures nextSeq == ReplayAll(v, c, now, Records(c, bytes)).nextSeq
    {
      vault, codec, file, needsSeparator := v, c, bytes, false;
      index := new SessionIndex();
      nextSeq, tokens := 0, 0;
      new;
      Load(bytes, now);
      OpenedSound(v, c, now, Records(c, bytes));
      index.MarkAllPersisted();
    }

    /** Read the file line by line; lines that are not records are skipped. */
    method Load(bytes: seq<byte>, now: nat)
      requires vault.Lawful() && codec.Lawful() && index.Valid() && View() == Empty && nextSeq == tokens == 0
      modifies this`nextSeq, this`tokens, index
      ensures index.Valid()
      ensures var st := ReplayAll(vault, codec, now, Records(codec, bytes));
              View() == st.registry && nextSeq == st.nextSeq && tokens == st.tokens
    {
      var bundles: map<string, seq<byte>> := map[];
      var rest := bytes;
      ghost var done: seq<Record> := [];
      while rest != []
        invariant index.Valid()
        invariant Reads(codec, bytes, done, rest)
        invariant ReplayAll(vault, codec, now, done) == Replayed(bundles, View(), nextSeq, tokens)
        decreases |rest|
      {
        var line;
        line, rest := TakeLine(codec, rest, bytes, done);
        bundles, done := ReplayLine(line, bundles, now, done);
      }
      ReadsAll(codec, bytes, done);
    }

    method ReplayLine(line: seq<byte>, bundles: map<string, seq<byte>>, now: nat, ghost done: seq<Record>)
      returns (bundles': map<string, seq<byte>>, ghost done': seq<Record>)
      requires vault.Lawful() && index.Valid()
      requires ReplayAll(vault, codec, now, done) == Replayed(bundles, View(), nextSeq, tokens)
      modifies this`nextSeq, this`tokens, index
      ensures index.Valid() && done' == done + Parsed(codec, line)
      ensures ReplayAll(vault, codec, now, done') == Replayed(bundles', View(), nextSeq, tokens)
    {
      var record := codec.parse(line);
      if record.None? {
        assert done + [] == done;
        return bundles, done;
      }
      ReplayMore(vault, codec, now, done, record.value);
      bundles' := Replay(record.value, bundles, now, done);
      done' := done + [record.value];
    }

    /** One record of the log. */
    method Replay(record: Record, bundles: map<string, seq<byte>>, now: nat, ghost done: seq<Record>)
      returns (bundles': map<string, seq<byte>>)
      requires vault.Lawful() && index.Valid()
      requires ReplayAll(vault, codec, now, done) == Replayed(bundles, View(), nextSeq, tokens)
      modifies this`nextSeq, this`tokens, index
      ensures index.Valid()
      ensures Replayed(bundles', View(), nextSeq, tokens)
              == ReplayOne(vault, codec, now, ReplayAll(vault, codec, now, done), record)
    {
      bundles' := bundles;
      if record.seqNo >= U64_MAX { return; }
      nextSeq := Max(nextSeq, record.seqNo + 1);
      if record.kind == EVIDENCE {
        var bytes := codec.unarmor(record.payload);
        if bytes.Some? { bundles' := bundles[vault.digest(bytes.value) := bytes.value]; }
      } else if record.kind == SESSION {
        if record.fingerprint.None? || record.retentionUntil.None? { return; }
        if record.retentionUntil.value <= now { return; }
        var p := ReplaySession(vault, codec, record, bundles);
        if p.Some? {
          ReplayConsistent(vault, codec, now, done, record, bundles);
          index.Insert(record.fingerprint.value, p.value, record.retentionUntil.value, tokens);
          tokens := tokens + 1;
        }
      }
    }

    /**
      Rewrite the log from what is retained, oldest session first. `fails` is a
      file error before the rename: the old file and all flags stay as they were.
     */
    method Compact(now: nat, held: set<nat>, fails: bool) returns (kept: Option<nat>, ghost digests: seq<string>,
                   ghost ids: seq<string>)
      requires Valid()
      modifies this`file, this`nextSeq, this`needsSeparator, index
      ensures Valid()
      ensures var r := old(View()).Evict(now, held);
              && Enumerates(digests, r.stored.Keys) && Enumerates(ids, r.entries.Keys) && Sorted(r.entries, ids)
              && if fails then
                   kept.None? && View() == r && LogNow() == old(LogNow())
                 else
                   && kept == Some(|r.entries|) && View() == r.MarkAllPersisted()
                   && file == Text(codec, CompactRecords(codec, now, r, digests, ids))
                   && nextSeq == |digests| + |ids| && !needsSeparator
    {
      CompactedSound(vault, View(), now, held);
      var text, lines;
      text, lines, digests, ids := Serialize(now, held);
      if fails { return None, digests, ids; }
      file := text;
      index.MarkAllPersisted();
      nextSeq, needsSeparator := lines, false;
      EnumeratesSize(ids, index.byId.Keys);
      kept := Some(|index.byId|);
    }

    /** The part of a compaction that holds the index: drop what lapsed and render the rest. */
    method Serialize(now: nat, held: set<nat>) returns (text: seq<byte>, lines: nat, ghost digests: seq<string>,
                     ghost ids: seq<string>)
      requires index.Valid()
      modifies index
      ensures index.Valid()
      ensures var r := old(View()).Evict(now, held);
              && View() == r
              && Enumerates(digests, r.stored.Keys) && Enumerates(ids, r.entries.Keys) && Sorted(r.entries, ids)
              && text == Text(codec, CompactRecords(codec, now, r, digests, ids)) && lines == |digests| + |ids|
    {
      index.EvictLapsed(now, held);
      var sessions := OldestFirst(index.byId);
      var hashes := KeysOf(index.bundles);
      digests, ids := hashes, sessions;
      text, lines := CompactLines(codec, now, index, hashes, sessions);
    }

    /** The bytes of an append, or nothing if a record would have no successor number. */
    method Compose(fingerprint: string, p: Split, until: nat, now: nat) returns (out: Option<seq<byte>>, next: nat)
      requires until == Max(until, p.stripped.expiresAt)
      ensures var records := NewRecords(codec, View(), LogNow(), fingerprint, until, now, p);
              && next == nextSeq + |records|
              && out == if next > U64_MAX then None else Some(Lead(needsSeparator) + Text(codec, records))
    {
      ghost var records := NewRecords(codec, View(), LogNow(), fingerprint, until, now, p);
      var bundlePersisted := index.BundlePersisted(p.digest);
      var text := Lead(needsSeparator);
      next := nextSeq;
      if !bundlePersisted {
        text := text + (codec.render(EvidenceRecord(codec, next, now, p.bundle)) + [LF]);
        next := next + 1;
      }
      var record := SessionRecord(codec, next, now, fingerprint, until, p.contentType, p.stripped);
      AppendText(codec, Lead(needsSeparator), records, text, record, bundlePersisted);
      text := text + (codec.render(record) + [LF]);
      next := next + 1;
      out := if next > U64_MAX then None else Some(text);
    }

    method Write(fingerprint: string, p: Split, until: nat, now: nat, torn: Option<nat>) returns (whole: bool)
      requires until == Max(until, p.stripped.expiresAt)
      modifies this`file, this`nextSeq, this`needsSeparator
      ensures (LogNow(), whole) == Wrote(codec, View(), old(LogNow()), fingerprint, p, until, now, torn)
    {
      var out, next := Compose(fingerprint, p, until, now);
      if out.None? { return false; }
      if Torn(torn, out.value) {
        file, needsSeparator := file + out.value[..torn.value], true;
        return false;
      }
      file, nextSeq, needsSeparator := file + out.value, next, false;
      return true;
    }

    /** Index a session whose records are on file. */
    method Publish(fingerprint: string, p: Split, until: nat, now: nat, held: set<nat>) returns (lease: Lease)
      requires index.Valid() && index.Consistent(p)
      modifies this`tokens, index
      ensures index.Valid() && tokens == old(tokens) + 1
      ensures (View(), lease) == Published(old(View()), fingerprint, p, until, old(tokens), now, held)
    {
      index.Insert(fingerprint, p, until, tokens);
      tokens := tokens + 1;
      index.MarkPersisted(p.digest);
      lease := index.LeaseOf(p.id);
      index.EvictLapsed(now, held + {lease.token});
    }

    /**
      Log a sealed session, behind its bundle if the log lacks it, then index it.
      `torn` is a write error after that many bytes.
     */
    method Append(fingerprint: string, p: Split, retentionUntil: nat, now: nat, held: set<nat>, torn: Option<nat>)
      returns (lease: Option<Lease>)
      requires index.Valid() && index.Consistent(p)
      modifies this, index
      ensures index.Valid()
      ensures Outcome(View(), LogNow(), tokens, lease)
              == Appended(codec, old(View()), old(LogNow()), old(tokens), fingerprint, p,
                          Max(retentionUntil, p.stripped.expiresAt), now, held, torn)
    {
      var until := Max(retentionUntil, p.stripped.expiresAt);
      var whole := Write(fingerprint, p, until, now, torn);
      if !whole { return None; }
      var mine := Publish(fingerprint, p, until, now, held);
      lease := Some(mine);
    }

    method GetSession(id: string, now: nat, held: set<nat>) returns (session: Option<Session>)
      requires vault.Lawful() && Valid()
      modifies index
      ensures Valid() && View() == old(View()).Evict(now, held)
      ensures session.Some? <==> id in View().entries
      ensures session.Some? ==> session.value.id == id && vault.split(session.value) == Some(View().SplitAt(id))
    {
      CompactedSound(vault, View(), now, held);
      session := index.Get(vault, id, now, held);
      RebuildTotal(vault, View(), id);
    }

    /** `seal` is what sealing yields, if the call comes to it: nothing when it fails. */
    method CurrentOrSeal(fingerprint: string, retentionUntil: nat, now: nat, held: set<nat>, seal: Option<Split>,
                         torn: Option<nat>)
      returns (lease: Option<Lease>)
      requires vault.Lawful() && Valid() && (seal.Some? ==> vault.genuine(seal.value))
      modifies this, index
      ensures Valid()
      ensures Outcome(View(), LogNow(), tokens, lease)
              == Acquired(codec, old(View()).Evict(now, held), old(LogNow()), old(tokens),
                          fingerprint, retentionUntil, now, held, seal, torn)
    {
      ghost var e := View().Evict(now, held);
      CompactedSound(vault, View(), now, held);
      AcquiredSound(vault, codec, e, LogNow(), tokens, fingerprint, retentionUntil, now, held, seal, torn);
      lease := Acquire(fingerprint, retentionUntil, now, held, seal, torn);
    }

    method Acquire(fingerprint: string, retentionUntil: nat, now: nat, held: set<nat>, seal: Option<Split>,
                   torn: Option<nat>)
      returns (lease: Option<Lease>)
      requires index.Valid() && (seal.Some? ==> Fits(View().Evict(now, held), seal.value))
      modifies this, index
      ensures index.Valid()
      ensures Outcome(View(), LogNow(), tokens, lease)
              == Acquired(codec, old(View()).Evict(now, held), old(LogNow()), old(tokens),
                          fingerprint, retentionUntil, now, held, seal, torn)
    {
      NoneUncited(View(), index.bundles);
      EvictTwice(View(), now, held);
      lease := index.Current(fingerprint, retentionUntil, now, held);
      if lease.Some? { return; }
      // Another caller may have sealed it meanwhile; alone, the second lookup finds what the first did.
      lease := index.Current(fingerprint, retentionUntil, now, held);
      if lease.Some? { return; }
      if seal.None? { return None; }
      lease := Append(fingerprint, seal.value, retentionUntil, now, held, torn);
    }

    method ExtendRetention(lease: Lease, deadline: nat) returns (ok: bool)
      requires Valid()
      modifies index
      ensures Valid()
      ensures ok == old(View()).Owns(lease)
      ensures View() == if ok then old(View()).Prolong(lease.id, deadline) else old(View())
      ensures ok ==> RetainedTo(old(View()), View(), lease.id, deadline)
    {
      if lease.id in index.byId { ProlongSound(vault, View(), lease.id, deadline); }
      ok := index.Extend(lease, deadline);
    }
  }

  lemma OpenedSound(v: Vault, c: Codec, now: nat, records: seq<Record>)
    requires v.Lawful()
    ensures ReplayAll(v, c, now, records).registry.MarkAllPersisted().Sound(v)
  {
    ReplayKeeps(v, c, now, records);
    MarkSound(v, ReplayAll(v, c, now, records).registry, "");
  }

  lemma TextOfOne(c: Codec, record: Record)
    ensures Text(c, [record]) == c.render(record) + [LF]
  {
    TextSnoc(c, [], record);
    assert [] + [record] == [record];
  }

  lemma TextOfTwo(c: Codec, first: Record, second: Record)
    ensures Text(c, [first, second]) == (c.render(first) + [LF]) + (c.render(second) + [LF])
  {
    TextOfOne(c, first);
    TextSnoc(c, [first], second);
    assert [first] + [second] == [first, second];
  }

  lemma AppendText(c: Codec, lead: seq<byte>, records: seq<Record>, out: seq<byte>, record: Record,
                   bundlePersisted: bool)
    requires |records| == (if bundlePersisted then 1 else 2) && records[|records| - 1] == record
    requires out == if bundlePersisted then lead else lead + (c.render(records[0]) + [LF])
    ensures out + (c.render(record) + [LF]) == lead + Text(c, records)
  {
    if bundlePersisted {
      assert records == [record];
      TextOfOne(c, record);
    } else {
      assert records == [records[0], record];
      TextOfTwo(c, records[0], record);
      ConcatAssoc(lead, c.render(records[0]) + [LF], c.render(record) + [LF]);
    }
  }

  lemma {:induction false} EnumeratesSize(keys: seq<string>, s: set<string>)
    requires Enumerates(keys, s)
    ensures |keys| == |s|
  {
    if keys == [] {
      assert s == {};
    } else {
      var last := |keys| - 1;
      assert keys == keys[..last] + [keys[last]];
      forall k | k in s - {keys[last]}
        ensures k in keys[..last]
      {
      }
      EnumeratesSize(keys[..last], s - {keys[last]});
    }
  }
}

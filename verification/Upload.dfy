/**
  The upload byte budget (src/middleware/audio.rs): every received byte is
  covered by a permit until an inference slot takes over
  (src/middleware/completion.rs, src/middleware/admission.rs).
 */
module Upload {
  import opened Foundation
  import opened Capacity

  const MAX_FILE_BYTES: nat := 25 * 1024 * 1024
  const MAX_TEXT_BYTES: nat := 64 * 1024
  const MAX_BODY_BYTES: nat := MAX_FILE_BYTES + MAX_TEXT_BYTES + 64 * 1024
  const BUDGET: nat := 16 * MAX_BODY_BYTES
  const SLOTS: nat := 16
  const U32_MAX: nat := 0xFFFF_FFFF

  // ---------- one upload ----------

  datatype Refusal = Invalid | Large | Capacity
  datatype Collected = Whole(bytes: seq<byte>, permits: nat) | Refused(why: Refusal)

  function Joined(chunks: seq<Option<seq<byte>>>): seq<byte>
    requires forall i :: 0 <= i < |chunks| ==> chunks[i].Some?
  {
    if chunks == [] then [] else Joined(chunks[..|chunks| - 1]) + chunks[|chunks| - 1].value
  }

  /** The chunks before `n` all arrived. */
  predicate Arrived(chunks: seq<Option<seq<byte>>>, n: nat)
    requires n <= |chunks|
  {
    forall i :: 0 <= i < n ==> chunks[i].Some?
  }

  /** Why the upload stops at chunk `n`, given `available` permits at the start. */
  ghost predicate StopsAt(chunks: seq<Option<seq<byte>>>, n: nat, available: nat, why: Refusal) {
    && n < |chunks| && Arrived(chunks, n)
    && var before := Joined(chunks[..n]);
       match why
       case Invalid => chunks[n].None?
       case Large => chunks[n].Some? && |before| + |chunks[n].value| > 26_345_472
       case Capacity =>
         chunks[n].Some? && |before| + |chunks[n].value| <= 26_345_472 && |before| + |chunks[n].value| > available
  }

  lemma JoinedMore(chunks: seq<Option<seq<byte>>>, n: nat)
    requires n < |chunks| && Arrived(chunks, n + 1)
    ensures Joined(chunks[..n + 1]) == Joined(chunks[..n]) + chunks[n].value
  {
    assert chunks[..n + 1][..n] == chunks[..n];
  }

  /**
    Read the body chunk by chunk, taking permits for each before keeping it. A
    whole upload holds one permit per byte; a refused one holds none.
   */
  method CollectUpload(chunks: seq<Option<seq<byte>>>, budget: Semaphore) returns (r: Collected, ghost at: nat)
    modifies budget
    ensures r.Whole? ==> Arrived(chunks, |chunks|) && r.bytes == Joined(chunks) && |r.bytes| == r.permits <= 26_345_472
                         && budget.available == old(budget.available) - r.permits
    ensures r.Refused? ==> StopsAt(chunks, at, old(budget.available), r.why) && budget.available == old(budget.available)
  {
    var bytes: seq<byte> := [];
    var permits := 0;
    at := 0;
    var i := 0;
    while i < |chunks|
      invariant i <= |chunks| && at == i && Arrived(chunks, i)
      invariant bytes == Joined(chunks[..i]) && |bytes| == permits <= MAX_BODY_BYTES
      invariant permits <= old(budget.available) && budget.available == old(budget.available) - permits
    {
      if chunks[i].None? {
        budget.Release(permits);
        return Refused(Invalid), at;
      }
      var chunk := chunks[i].value;
      if |chunk| > MAX_BODY_BYTES - |bytes| || |chunk| > U32_MAX {
        budget.Release(permits);
        return Refused(Large), at;
      }
      var ok := budget.TryAcquireMany(|chunk|);
      if !ok {
        budget.Release(permits);
        return Refused(Capacity), at;
      }
      JoinedMore(chunks, i);
      permits := permits + |chunk|;
      bytes := bytes + chunk;
      i := i + 1;
      at := i;
    }
    assert chunks[..i] == chunks;
    r := Whole(bytes, permits);
  }

  // ---------- all uploads together ----------

  /**
    `reading` are uploads whose bytes are covered by permits, being read or
    waiting for a slot; `served` are those whose handler holds an inference slot
    instead; `slots` are the requests holding a slot, which may outlast the handler.
   */
  datatype World = World(available: nat, reading: map<nat, Held>, served: map<nat, nat>, slots: set<nat>)

  datatype Held = Held(bytes: nat, permits: nat)

  const Initial := World(BUDGET, map[], map[], {})

  datatype Action =
    | Begin(id: nat)
    | Receive(id: nat, n: nat)   // a chunk that fits and is covered
    | Stop(id: nat)              // refused, timed out, failed or dropped
    | Admit(id: nat)             // takes a slot, then gives its permits back
    | Answer(id: nat)            // the handler ends; the response may keep the slot
    | Free(id: nat)              // the slot is released

  predicate Enabled(w: World, a: Action) {
    match a
    case Begin(id) => id !in w.reading && id !in w.served && id !in w.slots
    case Receive(id, n) => id in w.reading && w.reading[id].bytes + n <= MAX_BODY_BYTES && n <= w.available
    case Stop(id) => id in w.reading
    case Admit(id) => id in w.reading && |w.slots| < SLOTS
    case Answer(id) => id in w.served
    case Free(id) => id in w.slots && id !in w.served
  }

  function Apply(w: World, a: Action): World
    requires Enabled(w, a)
  {
    match a
    case Begin(id) => w.(reading := w.reading[id := Held(0, 0)])
    case Receive(id, n) =>
      w.(available := w.available - n, reading := w.reading[id := Held(w.reading[id].bytes + n, w.reading[id].permits + n)])
    case Stop(id) => w.(available := w.available + w.reading[id].permits, reading := w.reading - {id})
    case Admit(id) =>
      World(w.available + w.reading[id].permits, w.reading - {id}, w.served[id := w.reading[id].bytes], w.slots + {id})
    case Answer(id) => w.(served := w.served - {id})
    case Free(id) => w.(slots := w.slots - {id})
  }

  predicate Runs(w: World, actions: seq<Action>)
    decreases |actions|
  {
    actions == [] || (Enabled(w, actions[0]) && Runs(Apply(w, actions[0]), actions[1..]))
  }

  function After(w: World, actions: seq<Action>): World
    requires Runs(w, actions)
    decreases |actions|
  {
    if actions == [] then w else After(Apply(w, actions[0]), actions[1..])
  }

  ghost function Total(m: map<nat, nat>): nat
    decreases |m|
  {
    if m == map[] then 0 else var k :| k in m; m[k] + Total(m - {k})
  }

  lemma {:induction false} TotalWithout(m: map<nat, nat>, k: nat)
    requires k in m
    ensures Total(m) == m[k] + Total(m - {k})
    decreases |m|
  {
    var j :| j in m && Total(m) == m[j] + Total(m - {j});
    if j != k {
      TotalWithout(m - {j}, k);
      TotalWithout(m - {k}, j);
      assert m - {j} - {k} == m - {k} - {j};
    }
  }

  lemma TotalWith(m: map<nat, nat>, k: nat, n: nat)
    requires k !in m
    ensures Total(m[k := n]) == n + Total(m)
  {
    TotalWithout(m[k := n], k);
    assert m[k := n] - {k} == m;
  }

  function Times(n: nat, each: nat): nat {
    if n == 0 then 0 else each + Times(n - 1, each)
  }

  lemma {:induction false} TimesIs(n: nat, each: nat)
    ensures Times(n, each) == n * each
  {
    if n > 0 { TimesIs(n - 1, each); }
  }

  lemma {:induction false} TimesGrows(n: nat, m: nat, each: nat)
    requires n <= m
    ensures Times(n, each) <= Times(m, each)
  {
    if n < m { TimesGrows(n, m - 1, each); }
  }

  lemma {:induction false} TotalBound(m: map<nat, nat>, each: nat)
    requires forall k :: k in m ==> m[k] <= each
    ensures Total(m) <= Times(|m|, each)
    decreases |m|
  {
    if m != map[] {
      var k :| k in m;
      TotalWithout(m, k);
      TotalBound(m - {k}, each);
      assert |m - {k}| == |m| - 1;
    }
  }

  function Permits(reading: map<nat, Held>): map<nat, nat> {
    map id | id in reading :: reading[id].permits
  }

  function Bytes(reading: map<nat, Held>): map<nat, nat> {
    map id | id in reading :: reading[id].bytes
  }

  ghost predicate Balanced(w: World) {
    && w.available + Total(Permits(w.reading)) == BUDGET
    && (forall id :: id in w.reading ==> w.reading[id].permits == w.reading[id].bytes <= MAX_BODY_BYTES)
    && (forall id :: id in w.served ==> w.served[id] <= MAX_BODY_BYTES)
    && w.served.Keys <= w.slots && |w.slots| <= SLOTS
    && w.reading.Keys !! w.slots
  }

  // The permits free and held, after `id` holds `now` instead of what it held.
  lemma PermitsMove(reading: map<nat, Held>, id: nat, now: Held)
    ensures Total(Permits(reading[id := now]))
            == Total(Permits(reading)) - (if id in reading then reading[id].permits else 0) + now.permits
    ensures id in reading ==> Total(Permits(reading - {id})) == Total(Permits(reading)) - reading[id].permits
  {
    var rest := Permits(reading) - {id};
    if id in reading {
      TotalWithout(Permits(reading), id);
      assert Permits(reading - {id}) == rest;
    } else {
      assert rest == Permits(reading);
    }
    TotalWith(rest, id, now.permits);
    assert Permits(reading[id := now]) == rest[id := now.permits];
  }

  lemma ReceiveBalanced(w: World, id: nat, n: nat)
    requires Balanced(w) && Enabled(w, Receive(id, n))
    ensures Balanced(Apply(w, Receive(id, n)))
  {
    PermitsMove(w.reading, id, Held(w.reading[id].bytes + n, w.reading[id].permits + n));
  }

  lemma AdmitBalanced(w: World, id: nat)
    requires Balanced(w) && Enabled(w, Admit(id))
    ensures Balanced(Apply(w, Admit(id)))
  {
    PermitsMove(w.reading, id, Held(0, 0));
  }

  lemma StepBalanced(w: World, a: Action)
    requires Balanced(w) && Enabled(w, a)
    ensures Balanced(Apply(w, a))
  {
    match a
    case Begin(id) => PermitsMove(w.reading, id, Held(0, 0));
    case Receive(id, n) => ReceiveBalanced(w, id, n);
    case Stop(id) => PermitsMove(w.reading, id, Held(0, 0));
    case Admit(id) => AdmitBalanced(w, id);
    case Answer(id) =>
    case Free(id) => KeysBound(w.slots - {id}, w.slots);
  }

  lemma {:induction false} RunBalanced(w: World, actions: seq<Action>)
    requires Balanced(w) && Runs(w, actions)
    ensures Balanced(After(w, actions))
    decreases |actions|
  {
    if actions != [] {
      StepBalanced(w, actions[0]);
      RunBalanced(Apply(w, actions[0]), actions[1..]);
    }
  }

  lemma KeysBound(a: set<nat>, b: set<nat>)
    requires a <= b
    ensures |a| <= |b|
  {
    assert b == a + (b - a);
  }

  lemma ServedBound(served: map<nat, nat>, slots: set<nat>)
    requires served.Keys <= slots && |slots| <= SLOTS && forall id :: id in served ==> served[id] <= MAX_BODY_BYTES
    ensures Total(served) <= SLOTS * MAX_BODY_BYTES
  {
    TotalBound(served, MAX_BODY_BYTES);
    KeysBound(served.Keys, slots);
    assert |served| == |served.Keys|;
    TimesGrows(|served|, SLOTS, MAX_BODY_BYTES);
    TimesIs(SLOTS, MAX_BODY_BYTES);
  }

  /**
    In every run of concurrent uploads: permits free and permits held make the
    budget, each upload holds one permit per byte received, and the bytes held by
    all handlers never exceed thirty-two whole bodies (25 MiB of file and 128 KiB of text).
   */
  lemma UploadsAreBounded(actions: seq<Action>)
    requires Runs(Initial, actions)
    ensures var w := After(Initial, actions);
            && w.available + Total(Permits(w.reading)) == 16 * 26_345_472
            && (forall id :: id in w.reading ==> w.reading[id].permits == w.reading[id].bytes <= 26_345_472)
            && Total(Bytes(w.reading)) + Total(w.served) <= 32 * 26_345_472
  {
    RunBalanced(Initial, actions);
    var w := After(Initial, actions);
    assert Bytes(w.reading) == Permits(w.reading);
    ServedBound(w.served, w.slots);
  }
}

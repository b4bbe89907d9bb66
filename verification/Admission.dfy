/**
  Inference admission (src/middleware/admission.rs): sixteen slots per endpoint,
  each held by the handler, then by the response body and by every data frame
  the body has given out, until the last of them lets go.
 */
module Admission {
  import opened Capacity

  const MAX_IN_FLIGHT: nat := 16

  datatype Endpoint = Images | Audio | Other

  /** What became of the response body a permit was attached to. */
  datatype Body = Unattached | Flowing | Finished

  /**
    One admitted request. `count` is the reference count of its permit; the
    handler, the body (while `inBody`) and each frame hold one reference. A
    frame's bytes may be cloned: the frame lets go when its last handle does.
   */
  datatype Admitted = Admitted(count: int, inHandler: bool, inBody: bool, body: Body, frames: map<nat, nat>)

  datatype Slots = Slots(free: nat, admitted: map<nat, Admitted>)

  datatype Gate = Gate(images: Slots, audio: Slots) {
    function At(endpoint: Endpoint): Slots
      requires !endpoint.Other?
    {
      if endpoint.Images? then images else audio
    }

    function With(endpoint: Endpoint, slots: Slots): Gate
      requires !endpoint.Other?
    {
      if endpoint.Images? then this.(images := slots) else this.(audio := slots)
    }
  }

  const Open := Gate(Slots(MAX_IN_FLIGHT, map[]), Slots(MAX_IN_FLIGHT, map[]))

  datatype Poll = Data(frame: nat) | Trailers | Ended | Errored | Pending

  datatype Step =
    | Acquire                  // the handler is admitted
    | Abort                    // the handler goes away before it answers
    | Hold                     // the answer takes the permit with it
    | PollFrame(poll: Poll)
    | DropBody
    | CloneFrame(frame: nat)
    | DropFrame(frame: nat)

  datatype Action = Action(endpoint: Endpoint, id: nat, step: Step)

  predicate Enabled(s: Slots, id: nat, step: Step) {
    if step.Acquire? then id !in s.admitted && s.free > 0
    else
      && id in s.admitted
      && var a := s.admitted[id];
         match step
         case Abort => a.inHandler
         case Hold => a.inHandler
         case PollFrame(poll) => !a.body.Unattached? && (poll.Data? ==> poll.frame !in a.frames)
         case DropBody => a.body.Flowing?
         case CloneFrame(f) => f in a.frames
         case DropFrame(f) => f in a.frames
  }

  /** The body lets go of its reference, if it has one. */
  function BodyDone(a: Admitted): Admitted {
    a.(body := Finished, inBody := false, count := if a.inBody then a.count - 1 else a.count)
  }

  function Polled(a: Admitted, poll: Poll): Admitted {
    match poll
    case Data(f) => if a.inBody then a.(count := a.count + 1, frames := a.frames[f := 1]) else a
    case Trailers => a
    case Pending => a
    case Ended => BodyDone(a)
    case Errored => BodyDone(a)
  }

  function Next(a: Admitted, step: Step): Admitted
    requires step.DropFrame? || step.CloneFrame? ==> step.frame in a.frames
  {
    match step
    case Acquire => a
    case Abort => a.(inHandler := false, count := a.count - 1)
    case Hold => a.(inHandler := false, inBody := true, body := Flowing)
    case PollFrame(poll) => Polled(a, poll)
    case DropBody => BodyDone(a)
    case CloneFrame(f) => a.(frames := a.frames[f := a.frames[f] + 1])
    case DropFrame(f) =>
      if a.frames[f] > 1 then a.(frames := a.frames[f := a.frames[f] - 1])
      else a.(frames := a.frames - {f}, count := a.count - 1)
  }

  /** With the last reference the slot is free again. */
  function Apply(s: Slots, id: nat, step: Step): Slots
    requires Enabled(s, id, step)
  {
    if step.Acquire? then Slots(s.free - 1, s.admitted[id := Admitted(1, true, false, Unattached, map[])])
    else
      var a, a' := s.admitted[id], Next(s.admitted[id], step);
      Slots(if a.count != 0 && a'.count == 0 then s.free + 1 else s.free, s.admitted[id := a'])
  }

  predicate Runs(g: Gate, actions: seq<Action>)
    decreases |actions|
  {
    actions == []
    || (var a := actions[0];
        !a.endpoint.Other? && Enabled(g.At(a.endpoint), a.id, a.step)
        && Runs(g.With(a.endpoint, Apply(g.At(a.endpoint), a.id, a.step)), actions[1..]))
  }

  function After(g: Gate, actions: seq<Action>): Gate
    requires Runs(g, actions)
    decreases |actions|
  {
    if actions == [] then g
    else
      var a := actions[0];
      After(g.With(a.endpoint, Apply(g.At(a.endpoint), a.id, a.step)), actions[1..])
  }

  // ---------- what every run keeps ----------

  function Live(s: Slots): set<nat> {
    set id | id in s.admitted && s.admitted[id].count > 0
  }

  function B(holds: bool): nat {
    if holds then 1 else 0
  }

  /** The count is exactly the number of holders, and the body holds a reference just while it flows. */
  predicate Counted(a: Admitted) {
    && a.count == B(a.inHandler) + B(a.inBody) + |a.frames|
    && a.inBody == a.body.Flowing? && (a.inHandler ==> a.body.Unattached?)
    && (forall f :: f in a.frames ==> a.frames[f] > 0)
  }

  ghost predicate Conserved(s: Slots) {
    && s.free + |Live(s)| == MAX_IN_FLIGHT
    && (forall id :: id in s.admitted ==> Counted(s.admitted[id]))
  }

  lemma NextCounted(a: Admitted, step: Step)
    requires Counted(a) && !step.Acquire? && Enabled(Slots(0, map[0 := a]), 0, step)
    ensures Counted(Next(a, step)) && (a.count == 0 ==> Next(a, step).count == 0)
  {
    if step.DropFrame? { assert |a.frames - {step.frame}| == |a.frames| - 1; }
  }

  lemma NextLive(s: Slots, s': Slots, id: nat)
    requires id in s.admitted && id in s'.admitted && s'.admitted == s.admitted[id := s'.admitted[id]]
    requires s.admitted[id].count >= 0 && s'.admitted[id].count >= 0
    requires s.admitted[id].count == 0 ==> s'.admitted[id].count == 0
    ensures |Live(s')| == |Live(s)| - (if s.admitted[id].count != 0 && s'.admitted[id].count == 0 then 1 else 0)
  {
    if s.admitted[id].count != 0 && s'.admitted[id].count == 0 {
      assert Live(s') == Live(s) - {id};
    } else {
      assert Live(s') == Live(s);
    }
  }

  lemma StepConserved(s: Slots, id: nat, step: Step)
    requires Conserved(s) && Enabled(s, id, step)
    ensures Conserved(Apply(s, id, step))
  {
    var s' := Apply(s, id, step);
    if step.Acquire? {
      assert Live(s') == Live(s) + {id};
    } else {
      assert Counted(s.admitted[id]);
      NextCounted(s.admitted[id], step);
      NextLive(s, s', id);
    }
  }

  // ---------- what a history comes to ----------

  /** The steps of one request, in order. */
  function Mine(actions: seq<Action>, endpoint: Endpoint, id: nat): seq<Step> {
    if actions == [] then []
    else
      var last := actions[|actions| - 1];
      Mine(actions[..|actions| - 1], endpoint, id) + (if last.endpoint == endpoint && last.id == id then [last.step] else [])
  }

  /** The response body after these steps: attached when the answer takes the permit, finished by its end, error or drop. */
  function BodyAfter(steps: seq<Step>): Body {
    if steps == [] then Unattached
    else
      var before := BodyAfter(steps[..|steps| - 1]);
      match steps[|steps| - 1]
      case Hold => Flowing
      case PollFrame(Ended) => Finished
      case PollFrame(Errored) => Finished
      case DropBody => Finished
      case _ => before
  }

  /** The handles on frame `f` after these steps: one from the body while it flows, and one more or less as it is cloned or dropped. */
  function Handles(steps: seq<Step>, f: nat): int {
    if steps == [] then 0
    else
      var before, last := steps[..|steps| - 1], steps[|steps| - 1];
      Handles(before, f)
      + (match last
         case PollFrame(Data(g)) => if g == f && BodyAfter(before).Flowing? then 1 else 0
         case CloneFrame(g) => if g == f then 1 else 0
         case DropFrame(g) => if g == f then -1 else 0
         case _ => 0)
  }

  /** The request is where its own steps took it. */
  ghost predicate Recorded(a: Admitted, steps: seq<Step>) {
    && steps != [] && a.body == BodyAfter(steps)
    && (a.inHandler <==> a.body.Unattached? && Abort !in steps)
    && forall f :: Handles(steps, f) == (if f in a.frames then a.frames[f] else 0)
  }

  ghost predicate SlotsRecorded(s: Slots, actions: seq<Action>, endpoint: Endpoint) {
    && (forall id :: id in s.admitted ==> Recorded(s.admitted[id], Mine(actions, endpoint, id)))
    && (forall id :: id !in s.admitted ==> Mine(actions, endpoint, id) == [])
  }

  lemma MineMore(actions: seq<Action>, a: Action, endpoint: Endpoint, id: nat)
    ensures Mine(actions + [a], endpoint, id)
            == Mine(actions, endpoint, id) + (if a.endpoint == endpoint && a.id == id then [a.step] else [])
  {
    assert (actions + [a])[..|actions|] == actions;
  }

  lemma StepsMore(steps: seq<Step>, step: Step)
    ensures var more := steps + [step];
            more[|more| - 1] == step && more[..|more| - 1] == steps && (forall b :: b in more <==> b in steps || b == step)
  {
  }

  lemma NextRecorded(a: Admitted, step: Step, steps: seq<Step>)
    requires Counted(a) && Recorded(a, steps) && !step.Acquire? && Enabled(Slots(0, map[0 := a]), 0, step)
    ensures Recorded(Next(a, step), steps + [step])
  {
    StepsMore(steps, step);
  }

  lemma StepRecorded(s: Slots, actions: seq<Action>, a: Action, endpoint: Endpoint)
    requires Conserved(s) && SlotsRecorded(s, actions, endpoint)
    requires a.endpoint == endpoint && Enabled(s, a.id, a.step)
    ensures SlotsRecorded(Apply(s, a.id, a.step), actions + [a], endpoint)
  {
    var s' := Apply(s, a.id, a.step);
    forall id
      ensures id in s'.admitted ==> Recorded(s'.admitted[id], Mine(actions + [a], endpoint, id))
      ensures id !in s'.admitted ==> Mine(actions + [a], endpoint, id) == []
    {
      MineMore(actions, a, endpoint, id);
      assert Mine(actions, endpoint, id) + [] == Mine(actions, endpoint, id);
      if id == a.id {
        if a.step.Acquire? {
          FirstRecorded(s'.admitted[id]);
          assert [] + [Acquire] == [Acquire];
        } else {
          assert Counted(s.admitted[id]);
          NextRecorded(s.admitted[id], a.step, Mine(actions, endpoint, id));
        }
      }
    }
  }

  lemma FirstRecorded(a: Admitted)
    requires a == Admitted(1, true, false, Unattached, map[])
    ensures Recorded(a, [Acquire])
  {
    StepsMore([], Acquire);
    assert [] + [Acquire] == [Acquire];
  }

  lemma OtherRecorded(s: Slots, actions: seq<Action>, a: Action, endpoint: Endpoint)
    requires SlotsRecorded(s, actions, endpoint) && a.endpoint != endpoint
    ensures SlotsRecorded(s, actions + [a], endpoint)
  {
    forall id
      ensures Mine(actions + [a], endpoint, id) == Mine(actions, endpoint, id)
    {
      MineMore(actions, a, endpoint, id);
    }
  }

  ghost predicate GateInv(g: Gate, done: seq<Action>) {
    && Conserved(g.images) && Conserved(g.audio)
    && SlotsRecorded(g.images, done, Images) && SlotsRecorded(g.audio, done, Audio)
  }

  lemma GateStep(g: Gate, done: seq<Action>, a: Action)
    requires GateInv(g, done) && !a.endpoint.Other? && Enabled(g.At(a.endpoint), a.id, a.step)
    ensures GateInv(g.With(a.endpoint, Apply(g.At(a.endpoint), a.id, a.step)), done + [a])
  {
    StepConserved(g.At(a.endpoint), a.id, a.step);
    StepRecorded(g.At(a.endpoint), done, a, a.endpoint);
    if a.endpoint.Images? { OtherRecorded(g.audio, done, a, Audio); } else { OtherRecorded(g.images, done, a, Images); }
  }

  lemma {:induction false} RunRecorded(g: Gate, done: seq<Action>, actions: seq<Action>)
    requires GateInv(g, done) && Runs(g, actions)
    ensures GateInv(After(g, actions), done + actions)
    decreases |actions|
  {
    if actions == [] {
      assert done + actions == done;
    } else {
      var a := actions[0];
      GateStep(g, done, a);
      RunRecorded(g.With(a.endpoint, Apply(g.At(a.endpoint), a.id, a.step)), done + [a], actions[1..]);
      assert done + [a] + actions[1..] == done + actions;
    }
  }

  /**
    In every run: free slots and live permits make sixteen for either endpoint,
    and a request is refused exactly when sixteen of its own are live. A request
    holds its slot exactly while, by its own steps, its handler runs, its body
    flows, or some frame the body gave out has a handle left.
   */
  lemma SlotsAreConserved(actions: seq<Action>, endpoint: Endpoint, id: nat)
    requires Runs(Open, actions) && !endpoint.Other?
    ensures var s, steps := After(Open, actions).At(endpoint), Mine(actions, endpoint, id);
            && s.free + |Live(s)| == 16
            && (id !in s.admitted ==> (Enabled(s, id, Acquire) <==> |Live(s)| < 16))
            && (id in Live(s) <==> steps != [] && (|| (BodyAfter(steps).Unattached? && Abort !in steps)
                                                    || BodyAfter(steps).Flowing?
                                                    || exists f :: Handles(steps, f) > 0))
  {
    assert Live(Open.images) == {} && Live(Open.audio) == {};
    RunRecorded(Open, [], actions);
    assert [] + actions == actions;
    var s, steps := After(Open, actions).At(endpoint), Mine(actions, endpoint, id);
    if id in s.admitted { LiveByHistory(s.admitted[id], steps); }
  }

  lemma LiveByHistory(a: Admitted, steps: seq<Step>)
    requires Counted(a) && Recorded(a, steps)
    ensures a.count > 0 <==> || (BodyAfter(steps).Unattached? && Abort !in steps) || BodyAfter(steps).Flowing?
                             || exists f :: Handles(steps, f) > 0
  {
    if a.frames != map[] {
      var f :| f in a.frames;
      assert Handles(steps, f) > 0;
    }
  }

  // ---------- the body in place ----------

  /** A permit shared by a body and its frames; the slot goes back with the last reference. */
  class SharedPermit {
    const slots: Semaphore
    var count: nat

    /** Wrap a permit already taken from `slots`. */
    constructor (slots: Semaphore)
      ensures this.slots == slots && count == 1
    {
      this.slots := slots;
      count := 1;
    }

    method Clone()
      modifies this`count
      ensures count == old(count) + 1
    {
      count := count + 1;
    }

    method Drop()
      requires count > 0
      modifies this`count, slots
      ensures count == old(count) - 1
      ensures slots.available == old(slots.available) + (if count == 0 then 1 else 0)
    {
      count := count - 1;
      if count == 0 { slots.Release(1); }
    }
  }

  /** The response body that owns a permit until it ends, fails or is dropped. */
  class PermitBody {
    var permit: SharedPermit?

    /** What the body and its permit amount to, given the frames held elsewhere. */
    ghost function View(frames: map<nat, nat>): Admitted
      requires permit != null
      reads this, permit
    {
      Admitted(permit.count, false, true, Flowing, frames)
    }

    constructor (permit: SharedPermit)
      ensures this.permit == permit
    {
      this.permit := permit;
    }

    /** `poll` is what the inner body answers; `held` is the reference a data frame takes with it. */
    method PollFrame(poll: Poll, ghost frames: map<nat, nat>) returns (held: SharedPermit?)
      requires permit != null ==> permit.count > 0
      modifies this, permit, if permit == null then null else permit.slots
      ensures old(permit) == null ==> permit == null && held == null
      ensures old(permit) != null && (poll.Data? || poll.Trailers? || poll.Pending?)
              ==> permit == old(permit) && permit.slots.available == old(permit.slots.available)
      ensures old(permit) != null && poll.Data?
              ==> held == permit && permit.count == old(permit.count) + 1
                  && View(frames[poll.frame := 1]) == Polled(old(View(frames)), poll)
      ensures old(permit) != null && (poll.Trailers? || poll.Pending?) ==> held == null && View(frames) == old(View(frames))
      ensures poll.Ended? || poll.Errored? ==> permit == null && held == null
      ensures old(permit) != null && (poll.Ended? || poll.Errored?)
              ==> var p := old(permit);
                  && p.count == Polled(old(View(frames)), poll).count
                  && p.slots.available == old(p.slots.available) + (if p.count == 0 then 1 else 0)
    {
      held := null;
      if permit == null { return; }
      match poll
      case Data(_) =>
        permit.Clone();
        held := permit;
      case Trailers =>
      case Pending =>
      case Ended =>
        permit.Drop();
        permit := null;
      case Errored =>
        permit.Drop();
        permit := null;
    }
  }
}

/**
  Whole requests (src/middleware/completion.rs) over the forwarder's candidate
  walk (src/aggregator/service/middleware.rs). The client may give up at any
  point where the walk waits.
 */
module OutcomeRuns {
  import opened Foundation
  import opened Outcome

  /** Where the walk stands. It waits, and can be cancelled, everywhere but `Between`. */
  datatype Position = Start | Trying(route: string) | Between | Pausing

  /** `attempts` is the forwarder's own list; `abandoned` and `inFlight` are the journal's. */
  datatype Walk = Walk(
    at: Position, attempts: seq<Attempt>, abandoned: seq<Attempt>, inFlight: Option<(string, nat)>,
    retained: Option<(string, nat)>)

  datatype Phase = Arriving | Allowed | Waiting(walk: Walk, early: bool) | Over

  datatype Request = Request(phase: Phase, settled: Settled)

  const Initial := Request(Arriving, Settled([], None))

  datatype Action =
    | Reject                          // the request is not valid
    | Allow                           // the control plane answered yes
    | Deny(status: nat, attributed: bool)
    | TurnAway(status: nat)
    | Arm                             // the forward begins
    | Try(route: string)              // the next candidate
    | Skip                            // it is not eligible for this request
    | Fail(status: nat)               // it is given up
    | Retain(status: nat)             // given up, but its answer is kept in case no better one comes
    | Pause                           // before retrying the candidates that lacked capacity
    | CommitEarly                     // headers sent before the upstream answered
    | Resolve(result: Forward, e2ee: bool)
    | GiveUp                          // the client went away

  function Removed(attempts: seq<Attempt>, slot: nat): seq<Attempt>
    requires slot < |attempts|
  {
    attempts[..slot] + attempts[slot + 1..]
  }

  /** The results the walk can end in from where it stands. */
  predicate Possible(w: Walk, result: Forward) {
    match result
    case Failure(_) => !w.at.Pausing?
    case AllFailed(attempts, _) => (w.at.Trying? || (w.at.Between? && w.retained.None?)) && attempts == w.attempts
    case Stream(attempts, route, _) => w.at == Trying(route) && attempts == w.attempts
    case _ =>
      || (w.at == Trying(result.route) && result.attempts == w.attempts)
      || (w.at.Between? && w.retained.Some? && w.retained.value.1 < |w.attempts| && result.route == w.retained.value.0
          && result.attempts == Removed(w.attempts, w.retained.value.1))
  }

  predicate Enabled(r: Request, a: Action) {
    match a
    case Reject => r.phase.Arriving?
    case Allow => r.phase.Arriving?
    case Deny(_, _) => r.phase.Arriving?
    case TurnAway(_) => r.phase.Allowed?
    case Arm => r.phase.Allowed?
    case Try(_) => r.phase.Waiting? && !r.phase.walk.at.Trying?
    case Skip => r.phase.Waiting? && r.phase.walk.at.Trying?
    case Fail(_) => r.phase.Waiting? && r.phase.walk.at.Trying?
    case Retain(_) => r.phase.Waiting? && r.phase.walk.at.Trying?
    case Pause => r.phase.Waiting? && r.phase.walk.at.Between?
    case CommitEarly => r.phase.Waiting? && !r.phase.walk.at.Between?
    case Resolve(result, e2ee) => r.phase.Waiting? && Possible(r.phase.walk, result) && (r.phase.early ==> !e2ee)
    case GiveUp => r.phase.Arriving? || (r.phase.Waiting? && !r.phase.walk.at.Between?)
  }

  function Given(w: Walk, status: nat): Walk
    requires w.at.Trying?
  {
    var attempt := Attempt(w.at.route, status);
    w.(at := Between, attempts := w.attempts + [attempt], abandoned := w.abandoned + [attempt])
  }

  function Apply(r: Request, a: Action): Request
    requires Enabled(r, a)
  {
    match a
    case Reject => Request(Over, SettleRefusal(0, false))
    case Allow => r.(phase := Allowed)
    case Deny(status, attributed) => Request(Over, SettleRefusal(status, DenialReported(status, attributed)))
    case TurnAway(status) => Request(Over, SettleRefusal(status, true))
    case Arm => r.(phase := Waiting(Walk(Start, [], [], None, None), false))
    case Try(route) =>
      r.(phase := r.phase.(walk := r.phase.walk.(at := Trying(route), inFlight := Some((route, |r.phase.walk.attempts|)))))
    case Skip => r.(phase := r.phase.(walk := r.phase.walk.(at := Between)))
    case Fail(status) => r.(phase := r.phase.(walk := Given(r.phase.walk, status)))
    case Retain(status) =>
      var w := r.phase.walk;
      r.(phase := r.phase.(walk := Given(w, status).(retained := Some((w.at.route, |w.attempts|)))))
    case Pause => r.(phase := r.phase.(walk := r.phase.walk.(at := Pausing, inFlight := None)))
    case CommitEarly => r.(phase := r.phase.(early := true))
    case Resolve(result, e2ee) => Request(Over, if r.phase.early then SettleEarly(result) else Settle(result, e2ee))
    case GiveUp =>
      Request(Over, if r.phase.Arriving? then SettleRefusal(0, false)
                    else SettleAbandoned(r.phase.walk.abandoned, r.phase.walk.inFlight))
  }

  predicate Runs(r: Request, actions: seq<Action>)
    decreases |actions|
  {
    actions == [] || (Enabled(r, actions[0]) && Runs(Apply(r, actions[0]), actions[1..]))
  }

  function After(r: Request, actions: seq<Action>): Request
    requires Runs(r, actions)
    decreases |actions|
  {
    if actions == [] then r else After(Apply(r, actions[0]), actions[1..])
  }

  // ---------- what a history comes to ----------

  /** The candidate being waited on after these actions. */
  function WaitingOn(done: seq<Action>): Option<string> {
    if done == [] then None
    else
      var last := done[|done| - 1];
      match last
      case Try(route) => Some(route)
      case CommitEarly => WaitingOn(done[..|done| - 1])
      case _ => None
  }

  /** The candidates given up, in order, each with the status it was given up for. */
  function GivenUp(done: seq<Action>): seq<Attempt> {
    if done == [] then []
    else
      var before, last := done[..|done| - 1], done[|done| - 1];
      if (last.Fail? || last.Retain?) && WaitingOn(before).Some?
      then GivenUp(before) + [Attempt(WaitingOn(before).value, last.status)] else GivenUp(before)
  }

  /** What is to be told of a request: nothing, by the stream meter, or this status and route. */
  datatype Verdict = Unreported | HandedOver | Reported(status: nat, route: Option<string>)

  /** What a request that ended so is to be told as. */
  function VerdictOf(done: seq<Action>): Verdict
    requires done != []
  {
    match done[|done| - 1]
    case Deny(status, attributed) =>
      if attributed || status == 429 || status >= 500 then Reported(status, None) else Unreported
    case TurnAway(status) => Reported(status, None)
    case GiveUp => if Arm in done then Reported(499, WaitingOn(done[..|done| - 1])) else Unreported
    case Resolve(Forwarded(_, route, upstream, converts, failedResponse, reported), _) =>
      if CommitEarly in done then Reported(502, None)
      else if upstream < 200 || upstream >= 300 then Reported(reported, Some(route))
      else if !converts || failedResponse then Reported(502, Some(route))
      else Reported(upstream, Some(route))
    case Resolve(Stream(_, _, sse), e2ee) => if e2ee && !sse then Unreported else HandedOver
    case Resolve(UpstreamError(_, route, reported), _) => Reported(reported, Some(route))
    case Resolve(AllFailed(_, status), _) => if status >= 500 then Reported(status, None) else Unreported
    case Resolve(Failure(status), _) => if status >= 500 then Reported(status, None) else Unreported
    case _ => Unreported
  }

  /** The attempts told of: those given up, unless the forward came back without them. */
  function AttemptsOf(done: seq<Action>): seq<Attempt>
    requires done != []
  {
    match done[|done| - 1]
    case GiveUp => GivenUp(done)
    case Resolve(result, _) =>
      if result.Failure? || (CommitEarly in done && result.Forwarded?) then [] else result.attempts
    case _ => []
  }

  // ---------- what every run keeps ----------

  /** The control plane drops a second row with the same index and status. */
  ghost predicate NoneCollide(rows: seq<Row>) {
    forall i, j :: 0 <= i < j < |rows| ==> rows[i].index != rows[j].index || rows[i].status != rows[j].status
  }

  /** The row reports the attempt at its own index: status and route of that attempt, and no status means no row. */
  predicate Reports(attempts: seq<Attempt>, row: Row) {
    && !row.terminal && row.index < |attempts| && attempts[row.index].status != 0
    && row.status == attempts[row.index].status && row.route == Some(attempts[row.index].route)
  }

  /** The row tells the outcome, numbered right after the attempts. */
  predicate Concludes(attempts: seq<Attempt>, verdict: Verdict, row: Row) {
    verdict.Reported? && row == Row(|attempts|, verdict.status, verdict.route, true)
  }

  /**
    Settled once: the rows are those of the attempts that had a status and the
    one of the outcome, each of them once and none hiding another; and the stream
    meter owes the outcome exactly if it was handed over.
   */
  ghost predicate Once(s: Settled, attempts: seq<Attempt>, verdict: Verdict) {
    && (forall row :: row in s.rows <==> Reports(attempts, row) || Concludes(attempts, verdict, row))
    && NoneCollide(s.rows)
    && s.handedOff == (if verdict.HandedOver? then Some(|attempts|) else None)
  }

  /** The journal mirrors the walk, and while a candidate is waited on its index is the number already given up. */
  ghost predicate WalkInv(w: Walk, done: seq<Action>) {
    && w.abandoned == w.attempts == GivenUp(done)
    && WaitingOn(done) == (if w.at.Trying? then Some(w.at.route) else None)
    && (w.at.Trying? ==> w.inFlight == Some((w.at.route, |w.attempts|)))
    && (w.at.Start? || w.at.Pausing? ==> w.inFlight.None?)
  }

  ghost predicate Accounted(r: Request, done: seq<Action>) {
    match r.phase
    case Over => done != [] && Once(r.settled, AttemptsOf(done), VerdictOf(done))
    case Waiting(walk, early) =>
      r.settled == Settled([], None) && WalkInv(walk, done) && Arm in done && (early <==> CommitEarly in done)
    case _ =>
      r.settled == Settled([], None) && Arm !in done && CommitEarly !in done && GivenUp(done) == [] && WaitingOn(done).None?
  }

  lemma {:induction false} RowIsThere(attempts: seq<Attempt>, i: nat, row: Row)
    requires i <= |attempts|
    ensures row in AttemptRows(attempts, i) <==> row.index >= i && Reports(attempts, row)
    decreases |attempts| - i
  {
    if i < |attempts| { RowIsThere(attempts, i + 1, row); }
  }

  lemma {:induction false} RowsApart(attempts: seq<Attempt>, i: nat)
    requires i <= |attempts|
    ensures NoneCollide(AttemptRows(attempts, i))
    decreases |attempts| - i
  {
    if i < |attempts| {
      RowsApart(attempts, i + 1);
      var rest := AttemptRows(attempts, i + 1);
      if attempts[i].status == 0 {
        assert [] + rest == rest;
      } else {
        forall other | other in rest
          ensures other.index != i
        {
          RowIsThere(attempts, i + 1, other);
        }
        NoneCollideWith(Row(i, attempts[i].status, Some(attempts[i].route), false), rest);
      }
    }
  }

  lemma AttemptRowsAre(attempts: seq<Attempt>)
    ensures var rows := AttemptRows(attempts, 0);
            NoneCollide(rows) && forall row :: row in rows <==> Reports(attempts, row)
  {
    RowsApart(attempts, 0);
    forall row
      ensures row in AttemptRows(attempts, 0) <==> Reports(attempts, row)
    {
      RowIsThere(attempts, 0, row);
    }
  }

  // A row with an index of its own can stand on either side of the others.
  lemma NoneCollideWith(row: Row, rows: seq<Row>)
    requires NoneCollide(rows) && forall other :: other in rows ==> other.index != row.index
    ensures NoneCollide([row] + rows) && NoneCollide(rows + [row])
  {
  }

  lemma OnceTold(attempts: seq<Attempt>, status: nat, route: Option<string>)
    ensures var rows, last := AttemptRows(attempts, 0), Row(|attempts|, status, route, true);
            && Once(Settled(rows + [last], None), attempts, Reported(status, route))
            && Once(Settled([last] + rows, None), attempts, Reported(status, route))
  {
    AttemptRowsAre(attempts);
    NoneCollideWith(Row(|attempts|, status, route, true), AttemptRows(attempts, 0));
  }

  lemma OnceUntold(attempts: seq<Attempt>)
    ensures Once(Settled(AttemptRows(attempts, 0), None), attempts, Unreported)
    ensures Once(Settled(AttemptRows(attempts, 0), Some(|attempts|)), attempts, HandedOver)
  {
    AttemptRowsAre(attempts);
  }

  lemma OnceAlone(status: nat, reported: bool)
    ensures Once(SettleRefusal(status, reported), [], if reported then Reported(status, None) else Unreported)
  {
  }

  /** However a result is accounted for, it is settled once. */
  lemma SettledOnce(result: Forward, e2ee: bool, done: seq<Action>)
    requires done != [] && done[|done| - 1] == Resolve(result, e2ee) && CommitEarly !in done
    ensures Once(Settle(result, e2ee), AttemptsOf(done), VerdictOf(done))
  {
    match result
    case Forwarded(attempts, route, upstream, converts, failedResponse, reported) =>
      OnceTold(attempts, VerdictOf(done).status, Some(route));
    case Stream(attempts, _, _) => OnceUntold(attempts);
    case UpstreamError(attempts, route, reported) => OnceTold(attempts, reported, Some(route));
    case AllFailed(attempts, status) =>
      OnceTold(attempts, status, None);
      OnceUntold(attempts);
      assert AttemptRows(attempts, 0) + [] == AttemptRows(attempts, 0);
    case Failure(status) => OnceAlone(status, status >= 500);
  }

  lemma SettledEarlyOnce(result: Forward, done: seq<Action>)
    requires done != [] && done[|done| - 1] == Resolve(result, false) && CommitEarly in done
    ensures Once(SettleEarly(result), AttemptsOf(done), VerdictOf(done))
  {
    if result.Forwarded? {
      OnceAlone(502, true);
    } else {
      SettledOnce(result, false, [Resolve(result, false)]);
    }
  }

  /** A client that leaves during the forward is told as such, with the candidate that was waited on. */
  lemma AbandonedOnce(w: Walk, before: seq<Action>)
    requires WalkInv(w, before) && !w.at.Between? && Arm in before
    ensures var done := before + [GiveUp];
            Once(SettleAbandoned(w.abandoned, w.inFlight), AttemptsOf(done), VerdictOf(done))
  {
    var done := before + [GiveUp];
    assert done[..|done| - 1] == before;
    OnceTold(w.abandoned, 499, WaitingOn(before));
  }

  lemma HistoryMore(done: seq<Action>, a: Action)
    ensures var more := done + [a];
            && more[|more| - 1] == a && more[..|more| - 1] == done
            && (forall b :: b in more <==> b in done || b == a)
  {
  }

  lemma StepAccounted(r: Request, a: Action, done: seq<Action>)
    requires Accounted(r, done) && Enabled(r, a)
    ensures Accounted(Apply(r, a), done + [a])
  {
    HistoryMore(done, a);
    match a
    case Reject => OnceAlone(0, false);
    case Deny(status, attributed) => OnceAlone(status, DenialReported(status, attributed));
    case TurnAway(status) => OnceAlone(status, true);
    case Resolve(result, e2ee) =>
      if r.phase.early { SettledEarlyOnce(result, done + [a]); } else { SettledOnce(result, e2ee, done + [a]); }
    case GiveUp => if r.phase.Arriving? { OnceAlone(0, false); } else { AbandonedOnce(r.phase.walk, done); }
    case _ =>
  }

  lemma {:induction false} RunAccounted(r: Request, actions: seq<Action>, done: seq<Action>)
    requires Accounted(r, done) && Runs(r, actions)
    ensures Accounted(After(r, actions), done + actions)
    decreases |actions|
  {
    if actions == [] {
      assert done + actions == done;
    } else {
      StepAccounted(r, actions[0], done);
      RunAccounted(Apply(r, actions[0]), actions[1..], done + [actions[0]]);
      assert done + [actions[0]] + actions[1..] == done + actions;
    }
  }

  /**
    In every run, with the client leaving at any wait: nothing is posted before
    the request is over. Then every candidate given up with a status has one row,
    at its own index, with its route and status; and the outcome is told once,
    numbered right after them, as its end calls for: by the row `VerdictOf` says,
    or by the stream meter, or not at all for an invalid request, a client gone
    before the control plane answered, a denial it could not attribute, and a
    forward for whose failure the client is to blame.
   */
  lemma EveryRequestIsSettledOnce(actions: seq<Action>)
    requires Runs(Initial, actions)
    ensures var r := After(Initial, actions);
            if r.phase.Over? then actions != [] && Once(r.settled, AttemptsOf(actions), VerdictOf(actions))
            else r.settled == Settled([], None)
  {
    RunAccounted(Initial, actions, []);
    assert [] + actions == actions;
  }
}

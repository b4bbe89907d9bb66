/**
  Outcome accounting (src/middleware/completion.rs): every admitted request is
  reported once, by the handler, by the guard that notices it was abandoned, or
  by the stream meter the obligation is handed to.
 */
module Outcome {
  import opened Foundation

  // ---------- rows ----------

  datatype Attempt = Attempt(route: string, status: nat)

  /** One usage report; the control plane keeps one per attempt index and status. */
  datatype Row = Row(index: nat, status: nat, route: Option<string>, terminal: bool)

  /** The rows of the attempts from `i` on; an attempt with status 0 has none. */
  function AttemptRows(attempts: seq<Attempt>, i: nat): seq<Row>
    requires i <= |attempts|
    decreases |attempts| - i
  {
    if i == |attempts| then []
    else (if attempts[i].status == 0 then [] else [Row(i, attempts[i].status, Some(attempts[i].route), false)])
         + AttemptRows(attempts, i + 1)
  }

  /** How the forwarder's walk over the candidates ended; `attempts` are the candidates given up before. */
  datatype Forward =
    | Forwarded(attempts: seq<Attempt>, route: string, upstream: nat, converts: bool, failedResponse: bool, reported: nat)
    | Stream(attempts: seq<Attempt>, route: string, sse: bool)
    | UpstreamError(attempts: seq<Attempt>, route: string, reported: nat)
    | AllFailed(attempts: seq<Attempt>, status: nat)
    | Failure(status: nat)

  /** What a request comes to: rows posted, and whether the stream meter now owes the final one, at this index. */
  datatype Settled = Settled(rows: seq<Row>, handedOff: Option<nat>)

  predicate Success(status: nat) {
    200 <= status < 300
  }

  /** The accounting of a result by the handler. */
  function Settle(result: Forward, e2ee: bool): Settled {
    match result
    case Forwarded(attempts, route, upstream, converts, failedResponse, reported) =>
      var rows, n := AttemptRows(attempts, 0), |attempts|;
      if Success(upstream) && !converts then Settled(rows + [Row(n, 502, Some(route), true)], None)
      else
        var status := if !Success(upstream) then reported else if failedResponse then 502 else upstream;
        Settled([Row(n, status, Some(route), true)] + rows, None)
    case Stream(attempts, _, sse) =>
      Settled(AttemptRows(attempts, 0), if e2ee && !sse then None else Some(|attempts|))
    case UpstreamError(attempts, route, reported) =>
      Settled(AttemptRows(attempts, 0) + [Row(|attempts|, reported, Some(route), true)], None)
    case AllFailed(attempts, status) =>
      Settled(AttemptRows(attempts, 0) + (if status >= 500 then [Row(|attempts|, status, None, true)] else []), None)
    case Failure(status) =>
      Settled(if status >= 500 then [Row(0, status, None, true)] else [], None)
  }

  /** The accounting after an early commit, in the response body. */
  function SettleEarly(result: Forward): Settled {
    if result.Forwarded? then Settled([Row(0, 502, None, true)], None) else Settle(result, false)
  }

  /** A denial is reported if the control plane could attribute it, or if it is a rate limit or a failure of its own. */
  predicate DenialReported(status: nat, attributed: bool) {
    attributed || status == 429 || status >= 500
  }

  /** A request that ends before the forward: one row at index 0, or none. */
  function SettleRefusal(status: nat, reported: bool): Settled {
    Settled(if reported then [Row(0, status, None, true)] else [], None)
  }

  /** The accounting of a request that was given up while it waited. */
  function SettleAbandoned(abandoned: seq<Attempt>, inFlight: Option<(string, nat)>): Settled {
    Settled(
      AttemptRows(abandoned, 0)
      + [Row(if inFlight.Some? then inFlight.value.1 else |abandoned|, 499,
             if inFlight.Some? then Some(inFlight.value.0) else None, true)],
      None)
  }

  // ---------- the meter ----------

  /** What the forwarder tells the handler while it walks. */
  class Journal {
    var inFlight: Option<(string, nat)>
    var abandoned: seq<Attempt>

    constructor ()
      ensures inFlight == None && abandoned == []
    {
      inFlight, abandoned := None, [];
    }

    method SetInFlight(route: string, index: nat)
      modifies this`inFlight
      ensures inFlight == Some((route, index))
    {
      inFlight := Some((route, index));
    }

    method ClearInFlight()
      modifies this`inFlight
      ensures inFlight == None
    {
      inFlight := None;
    }

    method RecordAbandoned(attempt: Attempt)
      modifies this`abandoned
      ensures abandoned == old(abandoned) + [attempt]
    {
      abandoned := abandoned + [attempt];
    }
  }

  /** The reporting guard; `posted` is what it has sent to the control plane. */
  class Meter {
    var armed: Journal?
    var posted: seq<Row>

    constructor ()
      ensures armed == null && posted == []
    {
      armed, posted := null, [];
    }

    method Arm(journal: Journal)
      modifies this`armed
      ensures armed == journal
    {
      armed := journal;
    }

    method Disarm()
      modifies this`armed
      ensures armed == null
    {
      armed := null;
    }

    method Post(row: Row)
      modifies this`posted
      ensures posted == old(posted) + [row]
    {
      posted := posted + [row];
    }

    /** Attempt rows are no outcome: the meter stays armed. */
    method FailedAttempts(attempts: seq<Attempt>)
      modifies this`posted
      ensures posted == old(posted) + AttemptRows(attempts, 0)
    {
      var i := 0;
      while i < |attempts|
        invariant i <= |attempts|
        invariant posted + AttemptRows(attempts, i) == old(posted) + AttemptRows(attempts, 0)
      {
        if attempts[i].status != 0 {
          Post(Row(i, attempts[i].status, Some(attempts[i].route), false));
        }
        i := i + 1;
      }
    }

    method Terminal(index: nat, status: nat, route: Option<string>)
      modifies this
      ensures armed == null && posted == old(posted) + [Row(index, status, route, true)]
    {
      armed := null;
      Post(Row(index, status, route, true));
    }

    /** Hand the outcome to the stream meter. */
    method IntoStreamReport(index: nat) returns (handedOff: nat)
      modifies this`armed
      ensures armed == null && handedOff == index
    {
      armed := null;
      handedOff := index;
    }

    /** The control plane said no. */
    method Deny(status: nat, attributed: bool)
      modifies this
      ensures posted == old(posted) + SettleRefusal(status, DenialReported(status, attributed)).rows
      ensures armed == if DenialReported(status, attributed) then null else old(armed)
    {
      if attributed || status == 429 || status >= 500 { Terminal(0, status, None); }
    }

    /** The result arms of the handler. */
    method Account(result: Forward, e2ee: bool) returns (handedOff: Option<nat>)
      modifies this
      ensures armed == null
      ensures Settled(posted, handedOff) == Settled(old(posted) + Settle(result, e2ee).rows, Settle(result, e2ee).handedOff)
    {
      handedOff := None;
      match result
      case Forwarded(attempts, route, upstream, converts, failedResponse, reported) =>
        if Success(upstream) && !converts {
          FailedAttempts(attempts);
          Terminal(|attempts|, 502, Some(route));
        } else {
          Terminal(|attempts|, if !Success(upstream) then reported else if failedResponse then 502 else upstream, Some(route));
          FailedAttempts(attempts);
        }
      case Stream(attempts, _, sse) =>
        FailedAttempts(attempts);
        if e2ee && !sse {
          Disarm();
        } else {
          var index := IntoStreamReport(|attempts|);
          handedOff := Some(index);
        }
      case UpstreamError(attempts, route, reported) =>
        FailedAttempts(attempts);
        Terminal(|attempts|, reported, Some(route));
      case AllFailed(attempts, status) =>
        FailedAttempts(attempts);
        if status >= 500 { Terminal(|attempts|, status, None); } else { Disarm(); }
      case Failure(status) =>
        if status >= 500 { Terminal(0, status, None); } else { Disarm(); }
    }

    /** The accounting of a result once the headers are sent; a stream goes on in the body. */
    method AccountEarly(result: Forward) returns (handedOff: Option<nat>)
      modifies this
      ensures armed == null
      ensures Settled(posted, handedOff) == Settled(old(posted) + SettleEarly(result).rows, SettleEarly(result).handedOff)
    {
      if result.Forwarded? {
        Terminal(0, 502, None);
        return None;
      }
      handedOff := Account(result, false);
    }

    /** The meter goes away: still armed, it reports the request as given up by the client. */
    method Drop()
      modifies this
      ensures armed == null
      ensures posted == old(posted) + (if old(armed) == null then []
                                       else SettleAbandoned(old(armed.abandoned), old(armed.inFlight)).rows)
    {
      if armed == null { return; }
      var journal := armed;
      armed := null;
      FailedAttempts(journal.abandoned);
      var inFlight := journal.inFlight;
      Post(Row(if inFlight.Some? then inFlight.value.1 else |journal.abandoned|, 499,
               if inFlight.Some? then Some(inFlight.value.0) else None, true));
    }
  }
}

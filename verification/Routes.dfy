/**
  Candidate routes (src/middleware/completion.rs): a route id may be listed more
  than once, but only as the same route.
 */
module Routes {
  import opened Foundation

  datatype Format = Openai | Anthropic

  /** A candidate; `rest` is everything else the control plane says of it. */
  datatype Candidate = Candidate(id: string, format: Format, rest: string)

  /** The first candidate listed under `id`. */
  function First(candidates: seq<Candidate>, id: string): Option<Candidate> {
    if candidates == [] then None
    else if candidates[0].id == id then Some(candidates[0])
    else First(candidates[1..], id)
  }

  lemma {:induction false} FirstExactly(candidates: seq<Candidate>, id: string)
    ensures match First(candidates, id)
            case None => forall i :: 0 <= i < |candidates| ==> candidates[i].id != id
            case Some(c) => c.id == id && exists i :: 0 <= i < |candidates| && candidates[i] == c
                                                      && forall j :: 0 <= j < i ==> candidates[j].id != id
  {
    if candidates != [] && candidates[0].id != id {
      FirstExactly(candidates[1..], id);
      if First(candidates, id).Some? {
        var rest := candidates[1..];
        var i :| 0 <= i < |rest| && rest[i] == First(rest, id).value && forall j :: 0 <= j < i ==> rest[j].id != id;
        assert candidates[i + 1] == rest[i];
        forall j | 0 <= j < i + 1
          ensures candidates[j].id != id
        {
          if j > 0 { assert candidates[j] == rest[j - 1]; }
        }
      }
    }
  }

  /** Those of `some` that are the first of their id among `all`, in order. */
  function Agreeing(all: seq<Candidate>, some: seq<Candidate>): seq<Candidate> {
    if some == [] then []
    else (if First(all, some[0].id) == Some(some[0]) then [some[0]] else []) + Agreeing(all, some[1..])
  }

  lemma {:induction false} FirstConcat(a: seq<Candidate>, b: seq<Candidate>, id: string)
    ensures First(a + b, id) == if First(a, id).Some? then First(a, id) else First(b, id)
  {
    if a == [] {
      assert a + b == b;
    } else {
      assert (a + b)[1..] == a[1..] + b;
      FirstConcat(a[1..], b, id);
    }
  }

  lemma {:induction false} AgreeingConcat(all: seq<Candidate>, a: seq<Candidate>, b: seq<Candidate>)
    ensures Agreeing(all, a + b) == Agreeing(all, a) + Agreeing(all, b)
  {
    if a == [] {
      assert a + b == b;
    } else {
      assert (a + b)[1..] == a[1..] + b;
      AgreeingConcat(all, a[1..], b);
    }
  }

  // The first of an id is the first of itself, so filtering keeps it first.
  lemma {:induction false} FirstAgrees(all: seq<Candidate>, some: seq<Candidate>, id: string)
    requires First(all, id) == First(some, id) || First(some, id).None?
    ensures First(Agreeing(all, some), id) == First(some, id)
    decreases |some|
  {
    if some != [] {
      var head, rest := some[0], some[1..];
      var kept := if First(all, head.id) == Some(head) then [head] else [];
      FirstConcat(kept, Agreeing(all, rest), id);
      if kept != [] { FirstOfOne(head, id); }
      if head.id != id { FirstAgrees(all, rest, id); }
    }
  }

  lemma FirstOfOne(c: Candidate, id: string)
    ensures First([c], id) == if c.id == id then Some(c) else None
  {
    assert [c][1..] == [];
  }

  /** Looking up a route finds the same candidate before and after filtering. */
  lemma LookupUnchanged(all: seq<Candidate>, id: string)
    ensures First(Agreeing(all, all), id) == First(all, id)
  {
    FirstAgrees(all, all, id);
  }

  lemma {:induction false} AgreeingDepends(all: seq<Candidate>, all': seq<Candidate>, some: seq<Candidate>)
    requires forall id :: First(all, id) == First(all', id)
    ensures Agreeing(all, some) == Agreeing(all', some)
  {
    if some != [] { AgreeingDepends(all, all', some[1..]); }
  }

  lemma {:induction false} AgreeingTwice(all: seq<Candidate>, some: seq<Candidate>)
    ensures Agreeing(all, Agreeing(all, some)) == Agreeing(all, some)
  {
    if some != [] {
      AgreeingTwice(all, some[1..]);
      var rest := Agreeing(all, some[1..]);
      if First(all, some[0].id) == Some(some[0]) { assert ([some[0]] + rest)[1..] == rest; }
      else { assert [] + rest == rest; }
    }
  }

  /** Filtering what was filtered changes nothing. */
  lemma FilterIsIdempotent(all: seq<Candidate>)
    ensures var kept := Agreeing(all, all); Agreeing(kept, kept) == kept
  {
    var kept := Agreeing(all, all);
    forall id
      ensures First(kept, id) == First(all, id)
    {
      LookupUnchanged(all, id);
    }
    AgreeingDepends(kept, all, kept);
    AgreeingTwice(all, all);
  }

  lemma {:induction false} KeptIsFirst(all: seq<Candidate>, some: seq<Candidate>, i: nat)
    requires i < |Agreeing(all, some)|
    ensures var c := Agreeing(all, some)[i]; First(all, c.id) == Some(c) && c in some
    decreases |some|
  {
    var kept := if First(all, some[0].id) == Some(some[0]) then [some[0]] else [];
    if i >= |kept| { KeptIsFirst(all, some[1..], i - |kept|); }
  }

  lemma {:induction false} FirstIsKept(all: seq<Candidate>, some: seq<Candidate>, c: Candidate)
    requires c in some && First(all, c.id) == Some(c)
    ensures c in Agreeing(all, some)
  {
    if some[0] != c { FirstIsKept(all, some[1..], c); }
  }

  /** The filter keeps exactly the candidates equal to the first one with their route id. */
  lemma KeptExactly(all: seq<Candidate>, c: Candidate)
    ensures c in Agreeing(all, all) <==> c in all && First(all, c.id) == Some(c)
  {
    var kept := Agreeing(all, all);
    if c in kept {
      var i :| 0 <= i < |kept| && kept[i] == c;
      KeptIsFirst(all, all, i);
    }
    if c in all && First(all, c.id) == Some(c) { FirstIsKept(all, all, c); }
  }

  /** Every listing of a kept candidate is kept, and no listing of another. */
  lemma {:induction false} CopiesKept(all: seq<Candidate>, some: seq<Candidate>, c: Candidate)
    ensures multiset(Agreeing(all, some))[c] == if First(all, c.id) == Some(c) then multiset(some)[c] else 0
  {
    if some != [] {
      CopiesKept(all, some[1..], c);
      var kept := if First(all, some[0].id) == Some(some[0]) then [some[0]] else [];
      assert some == [some[0]] + some[1..];
      assert Agreeing(all, some) == kept + Agreeing(all, some[1..]);
    }
  }

  method Find(candidates: seq<Candidate>, id: string) returns (r: Option<Candidate>)
    ensures r == First(candidates, id)
  {
    var i := 0;
    while i < |candidates|
      invariant i <= |candidates| && First(candidates[i..], id) == First(candidates, id)
    {
      assert candidates[i..][1..] == candidates[i + 1..];
      if candidates[i].id == id { return Some(candidates[i]); }
      i := i + 1;
    }
    return None;
  }

  method DropConflictingRouteTwins(candidates: seq<Candidate>) returns (kept: seq<Candidate>)
    ensures kept == Agreeing(candidates, candidates)
  {
    kept := [];
    var i := 0;
    while i < |candidates|
      invariant i <= |candidates| && kept == Agreeing(candidates, candidates[..i])
    {
      var candidate := candidates[i];
      Decide(candidates, i);
      var first := Find(kept, candidate.id);
      if !(first.Some? && first.value != candidate) { kept := kept + [candidate]; }
      i := i + 1;
    }
    assert candidates[..i] == candidates;
  }

  lemma TakeOneMore(all: seq<Candidate>, i: nat)
    requires i < |all|
    ensures all == all[..i] + all[i..] && all[..i + 1] == all[..i] + [all[i]]
  {
  }

  lemma AgreeingOfOne(all: seq<Candidate>, c: Candidate)
    ensures Agreeing(all, [c]) == if First(all, c.id) == Some(c) then [c] else []
  {
    assert [c][1..] == [];
  }

  // Looking among those kept so far decides as looking among all would.
  lemma FirstSoFar(all: seq<Candidate>, i: nat)
    requires i < |all|
    ensures var first := First(Agreeing(all, all[..i]), all[i].id);
            First(all, all[i].id) == if first.Some? then first else Some(all[i])
  {
    TakeOneMore(all, i);
    FirstConcat(all[..i], all[i..], all[i].id);
    FirstAgrees(all, all[..i], all[i].id);
  }

  lemma Decide(all: seq<Candidate>, i: nat)
    requires i < |all|
    ensures var first := First(Agreeing(all, all[..i]), all[i].id);
            First(all, all[i].id) == if first.Some? then first else Some(all[i])
    ensures Agreeing(all, all[..i + 1])
            == Agreeing(all, all[..i]) + (if First(all, all[i].id) == Some(all[i]) then [all[i]] else [])
  {
    FirstSoFar(all, i);
    TakeOneMore(all, i);
    AgreeingConcat(all, all[..i], [all[i]]);
    AgreeingOfOne(all, all[i]);
  }

  /** The format of the route that served: the candidate with its id, or else the first, or else a default. */
  function SelectedFormat(candidates: seq<Candidate>, id: string): Format {
    var found := First(candidates, id);
    if found.Some? then found.value.format
    else if candidates != [] then candidates[0].format
    else Openai
  }

  /** After filtering, the lookup gives the format of whichever copy served. */
  lemma AnyCopyWillDo(all: seq<Candidate>, served: Candidate)
    requires served in Agreeing(all, all)
    ensures SelectedFormat(Agreeing(all, all), served.id) == served.format == SelectedFormat(all, served.id)
  {
    KeptExactly(all, served);
    LookupUnchanged(all, served.id);
  }

  /** A route that is not listed is read as the first one, and as OpenAI if none is listed at all. */
  lemma UnlistedFormat(candidates: seq<Candidate>, id: string)
    requires forall i :: 0 <= i < |candidates| ==> candidates[i].id != id
    ensures SelectedFormat(candidates, id) == if candidates == [] then Openai else candidates[0].format
  {
    FirstExactly(candidates, id);
  }
}

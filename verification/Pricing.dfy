/**
  Usage normalization and cost (src/middleware/pricing.rs): three ways providers
  spell token counts, one meaning.
 */
module Pricing {
  import opened Foundation

  const I64_MIN: int := -0x8000_0000_0000_0000
  const I64_MAX: int := 0x7FFF_FFFF_FFFF_FFFF
  type i64 = x: int | I64_MIN <= x <= I64_MAX

  /** The members of `prompt_tokens_details` and `input_tokens_details` that count. */
  datatype Details = Details(cached: Option<i64>)

  /** A usage object: each member as a number, or absent. */
  datatype Usage = Usage(
    promptTokens: Option<i64>, inputTokens: Option<i64>, completionTokens: Option<i64>, outputTokens: Option<i64>,
    cacheRead: Option<i64>, cacheCreation: Option<i64>, promptDetails: Option<Details>, inputDetails: Option<Details>)

  datatype Resolved = Resolved(prompt: int, completion: int, cacheRead: int, cacheCreation: int) {
    /** Input tokens charged at the input rate. */
    function Uncached(): int {
      var rest := prompt - cacheRead - cacheCreation;
      if rest < 0 then 0 else rest
    }
  }

  function Or<T>(a: Option<T>, b: Option<T>): Option<T> {
    if a.Some? then a else b
  }

  function OrZero(a: Option<i64>): i64 {
    if a.Some? then a.value else 0
  }

  function Cached(d: Option<Details>): Option<i64> {
    if d.Some? then d.value.cached else None
  }

  /** Some member other than `input_tokens_details` speaks of caching. */
  predicate OtherCacheSignal(u: Usage) {
    u.promptTokens.Some? || u.cacheRead.Some? || u.cacheCreation.Some? || u.promptDetails.Some?
  }

  /** The cached part of a Responses usage, if the usage has that shape. */
  function ResponsesCached(u: Usage): Option<i64> {
    if OtherCacheSignal(u) || u.inputTokens.None? || Cached(u.inputDetails).None? then None
    else
      var cached := Cached(u.inputDetails).value;
      if 0 <= cached <= u.inputTokens.value then Some(cached) else None
  }

  function Resolve(u: Usage): Resolved {
    var responses := ResponsesCached(u);
    var read := OrZero(Or(Or(u.cacheRead, Cached(u.promptDetails)), responses));
    var creation := OrZero(u.cacheCreation);
    var input := OrZero(u.inputTokens);
    var prompt :=
      if u.promptTokens.Some? then u.promptTokens.value
      else if responses.Some? then input
      else input + read + creation;
    Resolved(prompt, OrZero(Or(u.completionTokens, u.outputTokens)), read, creation)
  }

  predicate CountsOk(u: Usage) {
    && OrZero(u.promptTokens) >= 0 && OrZero(u.inputTokens) >= 0
    && OrZero(u.cacheRead) >= 0 && OrZero(u.cacheCreation) >= 0
    && OrZero(Cached(u.promptDetails)) >= 0 && OrZero(Cached(u.inputDetails)) >= 0
  }

  // ---------- conservation ----------

  /** Every input token is charged in exactly one bucket. */
  lemma TokensAreConserved(u: Usage)
    requires CountsOk(u)
    ensures var r := Resolve(u);
            && r.cacheRead >= 0 && r.cacheCreation >= 0
            && r.Uncached() + r.cacheRead + r.cacheCreation == Max(r.prompt, r.cacheRead + r.cacheCreation)
  {
  }

  /**
    Without `prompt_tokens`, what is charged at the input rate is `input_tokens`,
    less the cached part a Responses usage includes in it.
   */
  lemma UncachedIsInput(u: Usage)
    requires u.promptTokens.None? && OrZero(u.inputTokens) >= 0
    ensures var r := Resolve(u);
            r.Uncached() == OrZero(u.inputTokens) - OrZero(ResponsesCached(u)) >= 0
  {
  }

  /** Beside any other cache signal, `input_tokens_details` changes nothing. */
  lemma InputDetailsAreIgnored(u: Usage, other: Option<Details>)
    requires OtherCacheSignal(u)
    ensures Resolve(u) == Resolve(u.(inputDetails := other))
  {
  }

  const I128_MIN: int := -0x8000_0000_0000_0000_0000_0000_0000_0000
  const I128_MAX: int := 0x7FFF_FFFF_FFFF_FFFF_FFFF_FFFF_FFFF_FFFF

  predicate FitsI128(x: int) {
    I128_MIN <= x <= I128_MAX
  }

  /** For any 64-bit counts, signed or not, every sum and difference fits. */
  lemma NothingOverflows(u: Usage)
    ensures var r := Resolve(u);
            && FitsI128(OrZero(u.inputTokens) + r.cacheRead)
            && FitsI128(OrZero(u.inputTokens) + r.cacheRead + r.cacheCreation)
            && FitsI128(r.prompt - r.cacheRead)
            && FitsI128(r.prompt - r.cacheRead - r.cacheCreation)
  {
  }

  // ---------- one usage, three spellings ----------

  /** The chat spelling: `prompt_tokens` includes the cached tokens. */
  function ChatShape(total: i64, cached: i64, creation: i64, completion: i64): Usage {
    Usage(Some(total), None, Some(completion), None, None, Some(creation), Some(Details(Some(cached))), None)
  }

  /** The Anthropic spelling: `input_tokens` excludes them. */
  function MessagesShape(uncached: i64, cached: i64, creation: i64, completion: i64): Usage {
    Usage(None, Some(uncached), None, Some(completion), Some(cached), Some(creation), None, None)
  }

  /** The Responses spelling: `input_tokens` includes them, and nothing else speaks of caching. */
  function ResponsesShape(total: i64, cached: i64, completion: i64): Usage {
    Usage(None, Some(total), None, Some(completion), None, None, None, Some(Details(Some(cached))))
  }

  /** The same tokens resolve the same way however they are spelt. */
  lemma ShapesAgree(total: i64, cached: i64, creation: i64, completion: i64)
    requires 0 <= cached && 0 <= creation && cached + creation <= total
    ensures Resolve(ChatShape(total, cached, creation, completion))
            == Resolve(MessagesShape(total - cached - creation, cached, creation, completion))
            == Resolved(total, completion, cached, creation)
    ensures creation == 0 ==> Resolve(ResponsesShape(total, cached, completion)) == Resolved(total, completion, cached, 0)
  {
  }

  // ---------- cost ----------

  datatype Rates = Rates(input: Option<real>, cacheRead: Option<real>, cacheCreation: Option<real>, output: Option<real>)

  function RateOr(r: Option<real>, fallback: real): real {
    if r.Some? then r.value else fallback
  }

  /** The count and rate of each bucket, in the order they are added. */
  function Charges(u: Usage, rates: Rates): seq<(int, real)> {
    var r, input := Resolve(u), RateOr(rates.input, 0.0);
    [(r.Uncached(), input), (r.cacheRead, RateOr(rates.cacheRead, input)),
     (r.cacheCreation, RateOr(rates.cacheCreation, input)), (r.completion, RateOr(rates.output, 0.0))]
  }

  function Charge(c: (int, real)): real {
    c.0 as real * c.1
  }

  function Folded(total: real, charges: seq<(int, real)>): real
    decreases |charges|
  {
    if charges == [] then total else Folded(total + Charge(charges[0]), charges[1..])
  }

  function TokenCost(u: Usage, rates: Rates): real {
    Folded(0.0, Charges(u, rates))
  }

  /** What a rate is when it is not set: the cache rates fall back on the input rate, and that and the output rate on zero. */
  ghost predicate RatesUsed(rates: Rates, input: real, read: real, creation: real, output: real) {
    && (rates.input.Some? ==> input == rates.input.value) && (rates.input.None? ==> input == 0.0)
    && (rates.cacheRead.Some? ==> read == rates.cacheRead.value) && (rates.cacheRead.None? ==> read == input)
    && (rates.cacheCreation.Some? ==> creation == rates.cacheCreation.value)
    && (rates.cacheCreation.None? ==> creation == input)
    && (rates.output.Some? ==> output == rates.output.value) && (rates.output.None? ==> output == 0.0)
  }

  /** Each bucket at its own rate. */
  lemma CostIs(u: Usage, rates: Rates, input: real, read: real, creation: real, output: real)
    requires RatesUsed(rates, input, read, creation, output)
    ensures var r := Resolve(u);
            TokenCost(u, rates) == r.Uncached() as real * input + r.cacheRead as real * read
                                   + r.cacheCreation as real * creation + r.completion as real * output
  {
    var c := Charges(u, rates);
    FoldedFour(c[0], c[1], c[2], c[3]);
  }

  lemma FoldedCons(total: real, head: (int, real), rest: seq<(int, real)>)
    ensures Folded(total, [head] + rest) == Folded(total + Charge(head), rest)
  {
    assert ([head] + rest)[1..] == rest && ([head] + rest)[0] == head;
  }

  lemma FoldedFour(a: (int, real), b: (int, real), d: (int, real), e: (int, real))
    ensures Folded(0.0, [a, b, d, e]) == Charge(a) + Charge(b) + Charge(d) + Charge(e)
  {
    var x := Charge(a);
    var y := x + Charge(b);
    var z := y + Charge(d);
    FoldedCons(z, e, []);
    assert [e] + [] == [e] && [d] + [e] == [d, e] && [b] + [d, e] == [b, d, e] && [a] + [b, d, e] == [a, b, d, e];
    FoldedCons(y, d, [e]);
    FoldedCons(x, b, [d, e]);
    FoldedCons(0.0, a, [b, d, e]);
  }

  lemma Distribute(a: int, b: int, d: int, rate: real)
    ensures a as real * rate + b as real * rate + d as real * rate == (a + b + d) as real * rate
  {
    assert (a + b + d) as real == a as real + b as real + d as real;
  }

  /**
    With no cache rates set, caching does not change the price: all input is
    charged alike, and what is charged is the prompt unless the cached tokens
    reported exceed it.
   */
  lemma FlatPrice(u: Usage, input: real, output: real)
    ensures var r := Resolve(u);
            var charged := if r.cacheRead + r.cacheCreation <= r.prompt then r.prompt else r.cacheRead + r.cacheCreation;
            TokenCost(u, Rates(Some(input), None, None, Some(output)))
            == charged as real * input + r.completion as real * output
  {
    var r := Resolve(u);
    CostIs(u, Rates(Some(input), None, None, Some(output)), input, input, input, output);
    Distribute(r.Uncached(), r.cacheRead, r.cacheCreation, input);
  }

  /** Which member counts when several speak of the same thing. */
  lemma FirstNamedCounts(u: Usage)
    ensures var r := Resolve(u);
            && (u.promptTokens.Some? ==> r.prompt == u.promptTokens.value)
            && (u.cacheRead.Some? ==> r.cacheRead == u.cacheRead.value)
            && (u.cacheRead.None? && u.promptDetails.Some? && u.promptDetails.value.cached.Some?
                ==> r.cacheRead == u.promptDetails.value.cached.value)
            && (u.cacheCreation.Some? ==> r.cacheCreation == u.cacheCreation.value)
            && (u.cacheCreation.None? ==> r.cacheCreation == 0)
            && (u.completionTokens.Some? ==> r.completion == u.completionTokens.value)
            && (u.completionTokens.None? && u.outputTokens.Some? ==> r.completion == u.outputTokens.value)
            && (u.completionTokens.None? && u.outputTokens.None? ==> r.completion == 0)
  {
  }
}

/** The model registry and the price of a reply (app/services/llm/models.py).

    Wallets hold Numeric(18, 6) credits, so every amount is an integer number of
    micro-credits. A price per million tokens is an integer number of US cents.
    With the 4x margin and 10 credits per dollar, `cents * 40 / 100` micro-credits
    is the exact rate of one token; only the final `quantize` rounds. */
module Pricing {
  import opened Wrappers

  const PROFIT_MARGIN := 4
  const USD_TO_CREDITS_RATE := 10

  datatype ModelSpec = ModelSpec(id: string, inputCents: nat, outputCents: nat, maxOutputTokens: nat)

  const SPECS: seq<ModelSpec> := [
    ModelSpec("gpt-5.5-pro", 3000, 18000, 128_000),
    ModelSpec("gpt-5.5", 500, 3000, 128_000),
    ModelSpec("gpt-5.4", 250, 1500, 128_000),
    ModelSpec("gpt-5.4-mini", 75, 450, 128_000),
    ModelSpec("gpt-5.4-nano", 20, 125, 128_000),
    ModelSpec("claude-fable-5-1", 1000, 5000, 128_000),
    ModelSpec("claude-opus-5", 500, 2500, 128_000),
    ModelSpec("claude-sonnet-5", 200, 1000, 128_000),
    ModelSpec("claude-haiku-4-5", 100, 500, 64_000),
    ModelSpec("gemini-3.1-pro-preview", 200, 1200, 65_536),
    ModelSpec("gemini-3.8-flash", 75, 375, 65_536),
    ModelSpec("gemini-3.5-flash-lite", 30, 250, 65_536)
  ]

  const LEGACY_ALIASES: map<string, string> := map[
    "gpt-5.2-pro" := "gpt-5.5-pro",
    "gpt-5.2" := "gpt-5.5",
    "gpt-5-mini" := "gpt-5.4-mini",
    "claude-4.5-opus" := "claude-opus-5",
    "claude-4.5-sonnet" := "claude-sonnet-5",
    "claude-4.5-haiku" := "claude-haiku-4-5",
    "gemini-3-pro-preview" := "gemini-3.1-pro-preview",
    "gemini-3-flash-preview" := "gemini-3.8-flash",
    "gemini-2.5-pro" := "gemini-3.1-pro-preview",
    "gemini-2.5-flash" := "gemini-3.8-flash"
  ]

  function ResolveModelId(model: string): string {
    if model in LEGACY_ALIASES then LEGACY_ALIASES[model] else model
  }

  /** The registry dictionary: a later entry with the same id would win. */
  function Find(specs: seq<ModelSpec>, id: string): (r: Option<ModelSpec>)
    ensures r.Some? ==> r.value in specs && r.value.id == id
    ensures r.None? ==> forall s :: s in specs ==> s.id != id
  {
    if specs == [] then None
    else if specs[|specs| - 1].id == id then Some(specs[|specs| - 1])
    else Find(specs[..|specs| - 1], id)
  }

  function GetSpec(model: string): Option<ModelSpec> {
    Find(SPECS, ResolveModelId(model))
  }

  // --- prices -----------------------------------------------------------

  /** Decimal.quantize with its default ROUND_HALF_EVEN, for the value n / d. */
  function RoundHalfEven(n: int, d: int): int
    requires d > 0
  {
    var q, r := n / d, n % d;
    if 2 * r < d then q
    else if 2 * r > d then q + 1
    else if q % 2 == 0 then q else q + 1
  }

  /** Provider cost in cents per million tokens, before markup. */
  function ProviderCents(spec: ModelSpec, prompt: int, completion: int): int {
    prompt * spec.inputCents + completion * spec.outputCents
  }

  /** The exact charge in hundredths of a micro-credit. */
  function ExactPrice(spec: ModelSpec, prompt: int, completion: int): int {
    PROFIT_MARGIN * USD_TO_CREDITS_RATE * ProviderCents(spec, prompt, completion)
  }

  /** price_in_credits, in micro-credits. */
  function Price(spec: ModelSpec, prompt: int, completion: int): int {
    RoundHalfEven(ExactPrice(spec, prompt, completion), 100)
  }

  /** With two-decimal prices the rounding never meets a tie: the charge is the
      one micro-credit amount within 0.4 of the exact price. */
  lemma {:induction false} PriceIsNearest(spec: ModelSpec, prompt: int, completion: int, other: int)
    ensures -40 <= 100 * Price(spec, prompt, completion) - ExactPrice(spec, prompt, completion) <= 40
    ensures -50 <= 100 * other - ExactPrice(spec, prompt, completion) <= 50
            ==> other == Price(spec, prompt, completion)
  {
    RoundsToNearest(2 * ProviderCents(spec, prompt, completion), other);
  }

  /** Multiples of 20 hundredths are at most 40 away from a whole, and never half-way. */
  lemma {:induction false} RoundsToNearest(n: int, other: int)
    ensures -40 <= 100 * RoundHalfEven(20 * n, 100) - 20 * n <= 40
    ensures -50 <= 100 * other - 20 * n <= 50 ==> other == RoundHalfEven(20 * n, 100)
  {
    var q, r := n / 5, n % 5;
    assert 20 * n == 100 * q + 20 * r;
    assert (20 * n) / 100 == q && (20 * n) % 100 == 20 * r;
  }

  lemma {:induction false} PriceIsMonotone(spec: ModelSpec, p: int, c: int, p': int, c': int)
    requires p <= p' && c <= c'
    ensures Price(spec, p, c) <= Price(spec, p', c')
  {
    var x, y := ProviderCents(spec, p, c), ProviderCents(spec, p', c');
    assert p * spec.inputCents <= p' * spec.inputCents;
    assert c * spec.outputCents <= c' * spec.outputCents;
    assert 40 * x <= 40 * y;
  }

  ghost predicate FiveCentPrices(spec: ModelSpec) {
    spec.inputCents % 5 == 0 && spec.outputCents % 5 == 0
  }

  /** Every price in the registry is a multiple of five cents. */
  lemma {:induction false} RegistryHasFiveCentPrices(model: string)
    requires GetSpec(model).Some?
    ensures FiveCentPrices(GetSpec(model).value)
  {
    SpecsHaveFiveCentPrices();
    var spec := GetSpec(model).value;
    var i :| 0 <= i < |SPECS| && SPECS[i] == spec;
  }

  lemma {:induction false} SpecsHaveFiveCentPrices()
    ensures forall i :: 0 <= i < |SPECS| ==> FiveCentPrices(SPECS[i])
  {
  }

  /** Hence every model the server can bill is charged without any rounding, and two
      charges add up to the charge for the tokens together. */
  lemma {:induction false} FiveCentChargesAreExact(spec: ModelSpec, p: int, c: int, p': int, c': int)
    requires FiveCentPrices(spec)
    ensures 100 * Price(spec, p, c) == ExactPrice(spec, p, c)
    ensures Price(spec, p, c) + Price(spec, p', c') == Price(spec, p + p', c + c')
  {
    FiveCentPricesAreExact(spec, p, c);
    FiveCentPricesAreExact(spec, p', c');
    FiveCentPricesAreExact(spec, p + p', c + c');
    ProviderCentsAdd(spec, p, c, p', c');
  }

  lemma {:induction false} ProviderCentsAdd(spec: ModelSpec, p: int, c: int, p': int, c': int)
    ensures ProviderCents(spec, p + p', c + c') == ProviderCents(spec, p, c) + ProviderCents(spec, p', c')
  {
    assert (p + p') * spec.inputCents == p * spec.inputCents + p' * spec.inputCents;
    assert (c + c') * spec.outputCents == c * spec.outputCents + c' * spec.outputCents;
  }

  lemma {:induction false} FiveCentPricesAreExact(spec: ModelSpec, p: int, c: int)
    requires FiveCentPrices(spec)
    ensures 100 * Price(spec, p, c) == ExactPrice(spec, p, c)
  {
    var i, o := spec.inputCents / 5, spec.outputCents / 5;
    var k := p * i + c * o;
    assert ProviderCents(spec, p, c) == 5 * k by {
      assert p * spec.inputCents == 5 * (p * i);
      assert c * spec.outputCents == 5 * (c * o);
    }
    assert ExactPrice(spec, p, c) == 100 * (2 * k);
  }

  /** The id under which a model is billed and stored is canonical: looking it up
      again gives the same price, whichever legacy name the client or the provider
      used. */
  lemma {:induction false} CanonicalIds(model: string)
    requires GetSpec(model).Some?
    ensures GetSpec(GetSpec(model).value.id) == GetSpec(model)
  {
    assert GetSpec(model).value.id == ResolveModelId(model);
    AliasesPointToLiveNames(model);
  }

  lemma {:induction false} AliasesPointToLiveNames(model: string)
    ensures ResolveModelId(ResolveModelId(model)) == ResolveModelId(model)
  {
  }

  /** No client can be left on a retired name: every alias reaches a live model. */
  lemma {:induction false} AliasesAreLive(model: string)
    requires model in LEGACY_ALIASES
    ensures GetSpec(model).Some? && GetSpec(model) == GetSpec(LEGACY_ALIASES[model])
  {
    assert LEGACY_ALIASES[model] !in LEGACY_ALIASES;
    var id := LEGACY_ALIASES[model];
    assert id == SPECS[0].id || id == SPECS[1].id || id == SPECS[3].id || id == SPECS[6].id
        || id == SPECS[7].id || id == SPECS[8].id || id == SPECS[9].id || id == SPECS[10].id;
  }

  /** billed_model in _generate_slot: the served model when it is in the registry,
      otherwise the one that was asked for. */
  function BilledModel(requested: ModelSpec, served: Option<string>): ModelSpec {
    if served.Some? && GetSpec(served.value).Some? then GetSpec(served.value).value else requested
  }

  ghost predicate Registered(specs: seq<ModelSpec>, id: string) {
    exists spec :: spec in specs && spec.id == id
  }

  /** Whoever answered is paid for: a model of the registry that says it served the request is
      billed under its own, current name, and anything else leaves the bill with the model
      that was asked. */
  lemma {:induction false} TheServedModelIsBilled(requested: ModelSpec, served: string)
    ensures BilledModel(requested, None) == requested
    ensures var billed := BilledModel(requested, Some(served));
            if Registered(SPECS, ResolveModelId(served)) then billed in SPECS && billed.id == ResolveModelId(served)
            else billed == requested
  {
    FindExactly(SPECS, ResolveModelId(served));
  }

  lemma {:induction false} FindExactly(specs: seq<ModelSpec>, id: string)
    ensures if Registered(specs, id) then Find(specs, id).Some? && Find(specs, id).value in specs && Find(specs, id).value.id == id
            else Find(specs, id).None?
  {
    if Find(specs, id).Some? {
      assert Registered(specs, id);
    }
  }

  /** The rates: a million prompt tokens at one cent cost four cents' worth of credits, ten to
      the dollar, and so do a million output tokens at theirs. */
  lemma {:induction false} PriceOfAMillionTokens(spec: ModelSpec, prompt: int, completion: int)
    ensures Price(spec, 1_000_000 * prompt, 1_000_000 * completion)
         == 400_000 * (prompt * spec.inputCents + completion * spec.outputCents)
  {
    var cents := prompt * spec.inputCents + completion * spec.outputCents;
    assert 1_000_000 * prompt * spec.inputCents == 1_000_000 * (prompt * spec.inputCents);
    assert 1_000_000 * completion * spec.outputCents == 1_000_000 * (completion * spec.outputCents);
    assert ExactPrice(spec, 1_000_000 * prompt, 1_000_000 * completion) == 100 * (400_000 * cents);
  }
}

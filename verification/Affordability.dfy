/** What a turn may spend (app/services/chat_service.py, app/api/v1/endpoints/chat.py).

    Amounts are micro-credits; comparisons of fractions are cross-multiplied, so the
    Decimal divisions of the source are exact here. */
module Affordability {
  import opened Wrappers
  import opened Pricing
  import opened ChatMessages

  const MIN_OUTPUT_TOKENS := 512
  const SYSTEM_PROMPT_SLACK := 64
  const CHARS_PER_TOKEN := 4
  const IMAGE_CHARS := 4000

  // --- prompt size ------------------------------------------------------

  function AttachmentChars(a: Attachment): nat {
    if a.TextFile? then |a.content| else IMAGE_CHARS
  }

  function AttachmentsChars(attachments: seq<Attachment>): nat {
    if attachments == [] then 0
    else AttachmentsChars(attachments[..|attachments| - 1]) + AttachmentChars(attachments[|attachments| - 1])
  }

  function TotalChars(history: seq<ChatMessage>): nat {
    if history == [] then 0
    else
      var last := history[|history| - 1];
      TotalChars(history[..|history| - 1]) + |last.text| + AttachmentsChars(last.attachments)
  }

  method HistoryChars(history: seq<ChatMessage>) returns (total: nat)
    ensures total == TotalChars(history)
  {
    total := 0;
    for i := 0 to |history|
      invariant total == TotalChars(history[..i])
    {
      var message := history[i];
      total := total + |message.text|;
      assert history[..i + 1][..i] == history[..i];
      for j := 0 to |message.attachments|
        invariant total == TotalChars(history[..i]) + |message.text| + AttachmentsChars(message.attachments[..j])
      {
        assert message.attachments[..j + 1][..j] == message.attachments[..j];
        total := total + if message.attachments[j].TextFile? then |message.attachments[j].content| else IMAGE_CHARS;
      }
      assert message.attachments[..|message.attachments|] == message.attachments;
    }
    assert history[..|history|] == history;
  }

  /** math.ceil(len(text) / 4) */
  function EstimateTokens(chars: nat): nat {
    (chars + CHARS_PER_TOKEN - 1) / CHARS_PER_TOKEN
  }

  // --- one slot ---------------------------------------------------------

  datatype Budget = Budget(spec: ModelSpec, maxOutputTokens: nat, promptTokens: nat, minimum: int)

  datatype CannotAfford = CannotAfford(model: string, minimum: int, balance: int)

  /** MAX_OUTPUT_TOKENS_BY_EFFORT.get(effort, ["medium"]) */
  function EffortCeiling(effort: string): nat {
    if effort == "low" then 4096 else if effort == "high" then 16384 else 8192
  }

  function PromptTokens(promptChars: nat): nat {
    EstimateTokens(promptChars) + SYSTEM_PROMPT_SLACK
  }

  function Min(a: int, b: int): int { if a < b then a else b }
  function Max(a: int, b: int): int { if a < b then b else a }

  /** int((available - prompt_cost) / out_rate), with available = balance / share. */
  function Affordable(spec: ModelSpec, promptTokens: nat, balance: int, share: nat): int
    requires share > 0 && spec.outputCents > 0
  {
    (100 * balance - share * ExactPrice(spec, promptTokens, 0)) / (share * ExactPrice(spec, 0, 1))
  }

  function PlanBudget(spec: ModelSpec, promptChars: nat, balance: int, effort: string, share: nat)
    : Result<Budget, CannotAfford>
    requires share > 0
  {
    var promptTokens := PromptTokens(promptChars);
    var minimum := RoundHalfEven(ExactPrice(spec, promptTokens, MIN_OUTPUT_TOKENS), 100);
    if 100 * balance < share * ExactPrice(spec, promptTokens, MIN_OUTPUT_TOKENS) then
      Err(CannotAfford(spec.id, minimum, balance))
    else
      var ceiling := EffortCeiling(effort);
      var affordable := if spec.outputCents > 0 then Affordable(spec, promptTokens, balance, share) else ceiling;
      Ok(Budget(spec, Max(MIN_OUTPUT_TOKENS, Min(ceiling, Min(affordable, spec.maxOutputTokens))), promptTokens, minimum))
  }

  lemma {:induction false} ExactPriceSplits(spec: ModelSpec, p: int, c: int)
    ensures ExactPrice(spec, p, c) == ExactPrice(spec, p, 0) + c * ExactPrice(spec, 0, 1)
    ensures ExactPrice(spec, 0, 1) == 40 * spec.outputCents
  {
    assert c * (40 * spec.outputCents) == 40 * (c * spec.outputCents);
  }

  lemma {:induction false} MulMonotone(k: nat, a: int, b: int)
    requires a <= b
    ensures k * a <= k * b
  {
  }

  lemma {:induction false} FloorDivision(n: int, d: int, q: int)
    requires d > 0
    ensures q <= n / d <==> d * q <= n
  {
    assert n == d * (n / d) + n % d;
    if q <= n / d {
      assert d * q <= d * (n / d);
    } else {
      assert d * q >= d * (n / d + 1);
    }
  }

  /** With enough tokens left for the cap, a slot stays within its share; the cap
      reaches past what is affordable for no reply length. This is the fact behind
      the budget: `affordable` is exactly the largest reply the share pays for. */
  lemma {:induction false} AffordableIsExact(spec: ModelSpec, promptTokens: nat, balance: int, share: nat, tokens: int)
    requires share > 0 && spec.outputCents > 0
    ensures tokens <= Affordable(spec, promptTokens, balance, share)
       <==> share * ExactPrice(spec, promptTokens, tokens) <= 100 * balance
  {
    var a, b := ExactPrice(spec, promptTokens, 0), ExactPrice(spec, 0, 1);
    ExactPriceSplits(spec, promptTokens, tokens);
    assert share * (a + tokens * b) == share * a + (share * b) * tokens;
    assert share * b > 0;
    FloorDivision(100 * balance - share * a, share * b, tokens);
  }

  /** A turn is refused exactly when its share of the balance cannot pay for the prompt
      and the shortest reply worth starting, and a planned slot can always pay for the
      longest reply its cap allows, floor included. */
  lemma {:induction false} PlannedSlotFitsItsShare(spec: ModelSpec, promptChars: nat, balance: int, effort: string, share: nat)
    requires share > 0
    ensures var plan := PlanBudget(spec, promptChars, balance, effort, share);
            && (plan.Ok? <==> share * ExactPrice(spec, PromptTokens(promptChars), MIN_OUTPUT_TOKENS) <= 100 * balance)
            && (plan.Ok? ==>
                  && MIN_OUTPUT_TOKENS <= plan.value.maxOutputTokens
                  && share * ExactPrice(spec, plan.value.promptTokens, plan.value.maxOutputTokens) <= 100 * balance)
  {
    var plan := PlanBudget(spec, promptChars, balance, effort, share);
    if plan.Ok? {
      var b := plan.value;
      if spec.outputCents > 0 {
        AffordableIsExact(spec, b.promptTokens, balance, share, MIN_OUTPUT_TOKENS);
        AffordableIsExact(spec, b.promptTokens, balance, share, b.maxOutputTokens);
      } else {
        ExactPriceSplits(spec, b.promptTokens, b.maxOutputTokens);
        ExactPriceSplits(spec, b.promptTokens, MIN_OUTPUT_TOKENS);
      }
    }
  }

  /** The cap is not lowered more than the wallet demands: below the effort ceiling and
      the model's own limit, one more output token would exceed the share. */
  lemma {:induction false} CapIsTheLongestAffordableReply(spec: ModelSpec, promptChars: nat, balance: int, effort: string, share: nat)
    requires share > 0
    requires PlanBudget(spec, promptChars, balance, effort, share).Ok?
    ensures var b := PlanBudget(spec, promptChars, balance, effort, share).value;
            b.maxOutputTokens < EffortCeiling(effort) && b.maxOutputTokens < spec.maxOutputTokens
            ==> share * ExactPrice(spec, b.promptTokens, b.maxOutputTokens + 1) > 100 * balance
  {
    var b := PlanBudget(spec, promptChars, balance, effort, share).value;
    if spec.outputCents > 0 {
      AffordableIsExact(spec, b.promptTokens, balance, share, b.maxOutputTokens + 1);
    }
  }

  /** What a budget is, for every model, history, balance and effort. The cap is the longest
      reply that the share of the balance pays for within the ceiling of the effort, 4096,
      8192 or 16384 tokens, and the model's own limit, and 512 tokens if that is less; the
      prompt counts a token for every four characters begun, and 64 for the system prompt; and
      the minimum is the price of the prompt with 512 tokens, to the nearest micro-credit. */
  lemma {:induction false} BudgetIsGreatest(spec: ModelSpec, promptChars: nat, balance: int, effort: string, share: nat, ceiling: nat)
    requires share > 0 && PlanBudget(spec, promptChars, balance, effort, share).Ok?
    requires || (effort == "low" && ceiling == 4096) || (effort == "high" && ceiling == 16384)
             || (effort != "low" && effort != "high" && ceiling == 8192)
    ensures var b := PlanBudget(spec, promptChars, balance, effort, share).value;
            var cap, prompt := b.maxOutputTokens, b.promptTokens;
            && b.spec == spec
            && 4 * (prompt - 64) - 3 <= promptChars <= 4 * (prompt - 64)
            && -40 <= 100 * b.minimum - ExactPrice(spec, prompt, 512) <= 40
            && 512 <= cap && (cap > 512 ==> cap <= ceiling && cap <= spec.maxOutputTokens)
            && share * ExactPrice(spec, prompt, cap) <= 100 * balance
            && forall t :: cap < t <= ceiling && t <= spec.maxOutputTokens ==> share * ExactPrice(spec, prompt, t) > 100 * balance
  {
    var b := PlanBudget(spec, promptChars, balance, effort, share).value;
    PlannedSlotFitsItsShare(spec, promptChars, balance, effort, share);
    PriceIsNearest(spec, b.promptTokens, 512, b.minimum);
    forall t | b.maxOutputTokens < t <= ceiling && t <= spec.maxOutputTokens
      ensures share * ExactPrice(spec, b.promptTokens, t) > 100 * balance
    {
      if spec.outputCents > 0 {
        AffordableIsExact(spec, b.promptTokens, balance, share, t);
      }
    }
  }

  /** And when there is none: the share does not pay for the prompt and 512 tokens. */
  lemma {:induction false} RefusalNamesTheMinimum(spec: ModelSpec, promptChars: nat, balance: int, effort: string, share: nat, prompt: nat)
    requires share > 0 && 4 * (prompt - 64) - 3 <= promptChars <= 4 * (prompt - 64)
    ensures PlanBudget(spec, promptChars, balance, effort, share).Err? <==> share * ExactPrice(spec, prompt, 512) > 100 * balance
    ensures PlanBudget(spec, promptChars, balance, effort, share).Err? ==>
              var error := PlanBudget(spec, promptChars, balance, effort, share).error;
              error == CannotAfford(spec.id, Price(spec, prompt, 512), balance)
  {
    assert prompt == PromptTokens(promptChars);
  }

  // --- what a prompt weighs ---------------------------------------------

  /** Every character of text and of a text file counts, and every image for 4000. */
  lemma {:induction false} PromptWeighs(history: seq<ChatMessage>, text: string, files: seq<Attachment>, file: Attachment)
    ensures TotalChars([]) == 0
    ensures TotalChars(history + [ChatMessage("user", text, [])]) == TotalChars(history) + |text|
    ensures TotalChars(history + [ChatMessage("user", text, files + [file])])
         == TotalChars(history + [ChatMessage("user", text, files)])
            + match file { case TextFile(content) => |content| case ImageFile(_, _) => 4000 }
  {
    assert (files + [file])[..|files|] == files;
    assert (history + [ChatMessage("user", text, [])])[..|history|] == history;
    assert (history + [ChatMessage("user", text, files)])[..|history|] == history;
    assert (history + [ChatMessage("user", text, files + [file])])[..|history|] == history;
  }

  // --- a whole turn -----------------------------------------------------

  datatype TurnPlan = Planned(budgets: seq<Budget>) | Refused(slot: nat, error: CannotAfford)

  /** One slot request: the model and the characters of the history it will be sent. */
  datatype SlotRequest = SlotRequest(spec: ModelSpec, promptChars: nat)

  function PlanFirst(slots: seq<SlotRequest>, balance: int, effort: string, n: nat): TurnPlan
    requires n <= |slots|
  {
    if n == 0 then Planned([])
    else
      var before := PlanFirst(slots, balance, effort, n - 1);
      if before.Refused? then before
      else
        match PlanBudget(slots[n - 1].spec, slots[n - 1].promptChars, balance, effort, |slots|)
        case Ok(budget) => Planned(before.budgets + [budget])
        case Err(error) => Refused(n - 1, error)
  }

  function PlanTurn(slots: seq<SlotRequest>, balance: int, effort: string): TurnPlan {
    PlanFirst(slots, balance, effort, |slots|)
  }

  /** Step 3 of run_turn: every slot is budgeted with an equal share of one balance
      reading, and the first one that cannot be paid for ends the turn. */
  method PlanSlots(slots: seq<SlotRequest>, balance: int, effort: string) returns (plan: TurnPlan)
    ensures plan == PlanTurn(slots, balance, effort)
  {
    var budgets := [];
    for index := 0 to |slots|
      invariant PlanFirst(slots, balance, effort, index) == Planned(budgets)
    {
      var budget := PlanBudget(slots[index].spec, slots[index].promptChars, balance, effort, |slots|);
      if budget.Err? {
        assert PlanFirst(slots, balance, effort, index + 1).Refused?;
        RefusalIsFinal(slots, balance, effort, index + 1, |slots|);
        return Refused(index, budget.error);
      }
      budgets := budgets + [budget.value];
    }
    return Planned(budgets);
  }

  lemma {:induction false} RefusalIsFinal(slots: seq<SlotRequest>, balance: int, effort: string, k: nat, n: nat)
    requires k <= n <= |slots|
    requires PlanFirst(slots, balance, effort, k).Refused?
    ensures PlanFirst(slots, balance, effort, n) == PlanFirst(slots, balance, effort, k)
  {
    if k < n {
      RefusalIsFinal(slots, balance, effort, k, n - 1);
    }
  }

  lemma {:induction false} PlanFirstGivesEachSlot(slots: seq<SlotRequest>, balance: int, effort: string, n: nat)
    requires n <= |slots|
    ensures var plan := PlanFirst(slots, balance, effort, n);
            && (plan.Planned? ==> |plan.budgets| == n && forall i :: 0 <= i < n ==>
                  PlanBudget(slots[i].spec, slots[i].promptChars, balance, effort, |slots|) == Ok(plan.budgets[i]))
            && (plan.Refused? ==>
                  && plan.slot < n
                  && PlanBudget(slots[plan.slot].spec, slots[plan.slot].promptChars, balance, effort, |slots|) == Err(plan.error)
                  && forall i :: 0 <= i < plan.slot ==>
                       PlanBudget(slots[i].spec, slots[i].promptChars, balance, effort, |slots|).Ok?)
  {
    if n > 0 {
      PlanFirstGivesEachSlot(slots, balance, effort, n - 1);
    }
  }

  /** Token counts a provider reports for one slot. */
  datatype TokenUse = TokenUse(prompt: int, completion: int)

  ghost predicate WithinPlan(use: TokenUse, budget: Budget) {
    use.prompt <= budget.promptTokens && use.completion <= budget.maxOutputTokens
  }

  /** The sum of the rounded charges of the slots. */
  function Spent(budgets: seq<Budget>, uses: seq<TokenUse>): int
    requires |budgets| == |uses|
  {
    if budgets == [] then 0
    else
      var n := |budgets| - 1;
      Spent(budgets[..n], uses[..n]) + Price(budgets[n].spec, uses[n].prompt, uses[n].completion)
  }

  /** The charge of a slot that uses everything it was given. */
  function SlotBound(budget: Budget): int {
    Price(budget.spec, budget.promptTokens, budget.maxOutputTokens)
  }

  lemma {:induction false} UseWithinPlanCostsAtMostTheBound(use: TokenUse, budget: Budget)
    requires WithinPlan(use, budget)
    ensures Price(budget.spec, use.prompt, use.completion) <= SlotBound(budget)
  {
    PriceIsMonotone(budget.spec, use.prompt, use.completion, budget.promptTokens, budget.maxOutputTokens);
  }

  /** Rounding can add this many micro-credits over `slots` charges. */
  function Slack(slots: nat): nat { 2 * slots / 5 }

  /** How far a charge may be rounded up, in hundredths of a micro-credit. */
  ghost predicate ChargesOffBy(budgets: seq<Budget>, uses: seq<TokenUse>, balance: int, share: nat, off: nat)
    requires |budgets| == |uses|
  {
    forall i :: 0 <= i < |budgets| ==>
      share * (100 * Price(budgets[i].spec, uses[i].prompt, uses[i].completion)) <= 100 * balance + share * off
  }

  lemma {:induction false} SharesAdd(share: nat, x: int, y: int, n: nat, cap: int)
    requires share * (100 * x) <= n * cap && share * (100 * y) <= cap
    ensures share * (100 * (x + y)) <= (n + 1) * cap
  {
    assert share * (100 * (x + y)) == share * (100 * x) + share * (100 * y);
    assert (n + 1) * cap == n * cap + cap;
  }

  lemma {:induction false} SpentSums(budgets: seq<Budget>, uses: seq<TokenUse>, balance: int, share: nat, off: nat)
    requires |budgets| == |uses|
    requires ChargesOffBy(budgets, uses, balance, share, off)
    ensures share * (100 * Spent(budgets, uses)) <= |budgets| * (100 * balance + share * off)
  {
    if budgets != [] {
      var n := |budgets| - 1;
      SpentSums(budgets[..n], uses[..n], balance, share, off);
      var rest, last := Spent(budgets[..n], uses[..n]), Price(budgets[n].spec, uses[n].prompt, uses[n].completion);
      var cap := 100 * balance + share * off;
      assert Spent(budgets, uses) == rest + last;
      SharesAdd(share, rest, last, n, cap);
    }
  }

  lemma {:induction false} CancelShare(share: nat, x: int, y: int)
    requires share > 0 && share * x <= share * y
    ensures x <= y
  {
    assert share * (y + 1) == share * y + share;
    if x > y {
      MulMonotone(share, y + 1, x);
    }
  }

  lemma {:induction false} ScaledBound(share: nat, charge: int, exact: int, off: nat, cap: int)
    requires charge <= exact + off && share * exact <= cap
    ensures share * charge <= cap + share * off
  {
    MulMonotone(share, charge, exact + off);
    assert share * (exact + off) == share * exact + share * off;
  }

  lemma {:induction false} ChargeIsWithinShare(slot: SlotRequest, balance: int, effort: string, share: nat, use: TokenUse, off: nat)
    requires share > 0 && PlanBudget(slot.spec, slot.promptChars, balance, effort, share).Ok?
    requires WithinPlan(use, PlanBudget(slot.spec, slot.promptChars, balance, effort, share).value)
    requires off == 40 || (off == 0 && FiveCentPrices(slot.spec))
    ensures share * (100 * Price(slot.spec, use.prompt, use.completion)) <= 100 * balance + share * off
  {
    var budget := PlanBudget(slot.spec, slot.promptChars, balance, effort, share).value;
    var exact := ExactPrice(budget.spec, budget.promptTokens, budget.maxOutputTokens);
    PlannedSlotFitsItsShare(slot.spec, slot.promptChars, balance, effort, share);
    UseWithinPlanCostsAtMostTheBound(use, budget);
    PriceIsNearest(budget.spec, budget.promptTokens, budget.maxOutputTokens, 0);
    if off == 0 {
      FiveCentPricesAreExact(budget.spec, budget.promptTokens, budget.maxOutputTokens);
    }
    ScaledBound(share, 100 * Price(slot.spec, use.prompt, use.completion), exact, off, 100 * balance);
  }

  lemma {:induction false} PlanCharges(slots: seq<SlotRequest>, balance: int, effort: string, uses: seq<TokenUse>, off: nat)
    requires slots != []
    requires PlanTurn(slots, balance, effort).Planned?
    requires |uses| == |slots| == |PlanTurn(slots, balance, effort).budgets|
    requires forall i :: 0 <= i < |uses| ==> WithinPlan(uses[i], PlanTurn(slots, balance, effort).budgets[i])
    requires off == 40 || (off == 0 && forall i :: 0 <= i < |slots| ==> FiveCentPrices(slots[i].spec))
    ensures 100 * Spent(PlanTurn(slots, balance, effort).budgets, uses) <= 100 * balance + |slots| * off
  {
    var budgets, share := PlanTurn(slots, balance, effort).budgets, |slots|;
    PlanFirstGivesEachSlot(slots, balance, effort, share);
    forall i | 0 <= i < |budgets|
      ensures share * (100 * Price(budgets[i].spec, uses[i].prompt, uses[i].completion)) <= 100 * balance + share * off
    {
      ChargeIsWithinShare(slots[i], balance, effort, share, uses[i], off);
    }
    SpentSums(budgets, uses, balance, share, off);
    CancelShare(share, 100 * Spent(budgets, uses), 100 * balance + share * off);
  }

  /** A planned turn never outspends the wallet. If every slot uses at most what it was
      planned with, the rounded charges add up to at most the balance for one or two
      slots, balance + 1 micro-credit for three, and balance + 2n/5 in general. */
  lemma {:induction false} PlannedTurnNeverOutspends(slots: seq<SlotRequest>, balance: int, effort: string, uses: seq<TokenUse>)
    requires slots != []
    requires PlanTurn(slots, balance, effort).Planned?
    requires |uses| == |slots| == |PlanTurn(slots, balance, effort).budgets|
    requires forall i :: 0 <= i < |uses| ==> WithinPlan(uses[i], PlanTurn(slots, balance, effort).budgets[i])
    ensures Spent(PlanTurn(slots, balance, effort).budgets, uses) <= balance + Slack(|slots|)
    ensures (forall i :: 0 <= i < |slots| ==> FiveCentPrices(slots[i].spec))
            ==> Spent(PlanTurn(slots, balance, effort).budgets, uses) <= balance
  {
    PlanCharges(slots, balance, effort, uses, 40);
    if forall i :: 0 <= i < |slots| ==> FiveCentPrices(slots[i].spec) {
      PlanCharges(slots, balance, effort, uses, 0);
    }
  }

  /** The extra micro-credit of a three-slot turn is real for two-decimal prices: three
      slots on a one-cent model, planned on 695 micro-credits, spend 696. */
  lemma {:induction false} ThreeSlotSlackIsReached()
    ensures var spec := ModelSpec("m", 1, 1, 8192);
            var slots := [SlotRequest(spec, 0), SlotRequest(spec, 0), SlotRequest(spec, 0)];
            var budget := Budget(spec, 515, 64, 230);
            && PlanTurn(slots, 695, "medium") == Planned([budget, budget, budget])
            && Spent([budget, budget, budget], [TokenUse(64, 515), TokenUse(64, 515), TokenUse(64, 515)]) == 695 + Slack(3)
  {
    var spec := ModelSpec("m", 1, 1, 8192);
    var budget := Budget(spec, 515, 64, 230);
    assert PlanBudget(spec, 0, 695, "medium", 3) == Ok(budget);
    ThreeEqualPlans(SlotRequest(spec, 0), 695, "medium", budget);
    assert Price(spec, 64, 515) == 232;
    ThreeEqualCharges(budget, TokenUse(64, 515));
  }

  lemma {:induction false} ThreeEqualPlans(slot: SlotRequest, balance: int, effort: string, budget: Budget)
    requires PlanBudget(slot.spec, slot.promptChars, balance, effort, 3) == Ok(budget)
    ensures PlanTurn([slot, slot, slot], balance, effort) == Planned([budget, budget, budget])
  {
    var slots := [slot, slot, slot];
    assert PlanFirst(slots, balance, effort, 1) == Planned([budget]);
    assert PlanFirst(slots, balance, effort, 2) == Planned([budget, budget]);
  }

  lemma {:induction false} ThreeEqualCharges(budget: Budget, use: TokenUse)
    ensures Spent([budget, budget, budget], [use, use, use]) == 3 * Price(budget.spec, use.prompt, use.completion)
  {
    assert [budget, budget, budget][..2] == [budget, budget] && [use, use, use][..2] == [use, use];
    assert [budget, budget][..1] == [budget] && [use, use][..1] == [use];
    assert Spent([budget], [use]) == Price(budget.spec, use.prompt, use.completion);
  }
}

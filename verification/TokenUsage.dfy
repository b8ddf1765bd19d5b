/** The token counter of a generation (app/services/llm/usage.py) and what it means for the
    charge: whatever the provider reports, text that was produced is paid for. */
module TokenUsage {
  import opened Wrappers
  import opened Pricing
  import Affordability

  /** One usage report; some SDKs send None for a count they do not know yet. */
  datatype Report = Report(prompt: Option<int>, completion: Option<int>)

  /** The last count that is not None, or `start`. */
  function LastCount(counts: seq<Option<int>>, start: int): int {
    if counts == [] then start
    else counts[|counts| - 1].GetOr(LastCount(counts[..|counts| - 1], start))
  }

  function PromptCounts(reports: seq<Report>): (counts: seq<Option<int>>)
    ensures |counts| == |reports|
  {
    seq(|reports|, i requires 0 <= i < |reports| => reports[i].prompt)
  }

  function CompletionCounts(reports: seq<Report>): (counts: seq<Option<int>>)
    ensures |counts| == |reports|
  {
    seq(|reports|, i requires 0 <= i < |reports| => reports[i].completion)
  }

  /** A count the provider gave, or the character estimate of the text. */
  function Billed(count: int, text: string): int {
    if count <= 0 && text != "" then Affordability.EstimateTokens(|text|) else count
  }

  class Usage {
    var promptTokens: int
    var completionTokens: int

    constructor ()
      ensures promptTokens == 0 && completionTokens == 0
    {
      promptTokens, completionTokens := 0, 0;
    }

    /** record */
    method Record(report: Report)
      modifies this
      ensures promptTokens == report.prompt.GetOr(old(promptTokens))
      ensures completionTokens == report.completion.GetOr(old(completionTokens))
    {
      if report.prompt.Some? {
        promptTokens := report.prompt.value;
      }
      if report.completion.Some? {
        completionTokens := report.completion.value;
      }
    }

    /** The reports of one stream, in order: a late None never wipes a count out. */
    method RecordAll(reports: seq<Report>)
      modifies this
      ensures promptTokens == LastCount(PromptCounts(reports), old(promptTokens))
      ensures completionTokens == LastCount(CompletionCounts(reports), old(completionTokens))
    {
      for i := 0 to |reports|
        invariant promptTokens == LastCount(PromptCounts(reports)[..i], old(promptTokens))
        invariant completionTokens == LastCount(CompletionCounts(reports)[..i], old(completionTokens))
      {
        assert PromptCounts(reports)[..i + 1][..i] == PromptCounts(reports)[..i];
        assert CompletionCounts(reports)[..i + 1][..i] == CompletionCounts(reports)[..i];
        Record(reports[i]);
      }
      assert PromptCounts(reports)[..|reports|] == PromptCounts(reports);
      assert CompletionCounts(reports)[..|reports|] == CompletionCounts(reports);
    }

    /** ensure_validity */
    method EnsureValidity(promptText: string, completionText: string)
      modifies this
      ensures promptTokens == Billed(old(promptTokens), promptText)
      ensures completionTokens == Billed(old(completionTokens), completionText)
    {
      if promptTokens <= 0 && promptText != "" {
        promptTokens := Affordability.EstimateTokens(|promptText|);
      }
      if completionTokens <= 0 && completionText != "" {
        completionTokens := Affordability.EstimateTokens(|completionText|);
      }
    }
  }

  /** The count a provider reported last stands when it is positive; without one a
      non-empty text is billed for between one and all of its characters. */
  lemma {:induction false} BilledIsReportedOrEstimated(counts: seq<Option<int>>, k: nat, text: string)
    requires k < |counts| ==> counts[k].Some? && forall j :: k < j < |counts| ==> counts[j].None?
    requires k >= |counts| ==> forall j :: 0 <= j < |counts| ==> counts[j].None?
    ensures k < |counts| && counts[k].value > 0 ==> Billed(LastCount(counts, 0), text) == counts[k].value
    ensures text != "" && (k < |counts| ==> counts[k].value <= 0) ==> 1 <= Billed(LastCount(counts, 0), text) <= |text|
  {
    LastCountIsLast(counts, 0, k);
  }

  lemma {:induction false} LastCountIsLast(counts: seq<Option<int>>, start: int, k: nat)
    requires k < |counts| ==> counts[k].Some? && forall j :: k < j < |counts| ==> counts[j].None?
    requires k >= |counts| ==> forall j :: 0 <= j < |counts| ==> counts[j].None?
    ensures LastCount(counts, start) == if k < |counts| then counts[k].value else start
  {
    if counts != [] {
      var n := |counts| - 1;
      if k != n {
        LastCountIsLast(counts[..n], start, k);
      }
    }
  }

  /** No reply is free: whatever a provider reports or leaves out, a reply with text costs
      its user at least 50 micro-credits on every registered model, as long as the last
      prompt count is not negative; with a text in the prompt not even that is needed, since
      a negative count then gives way to the estimate. */
  lemma {:induction false} NoReplyIsFree(prompts: seq<Option<int>>, completions: seq<Option<int>>, promptText: string, reply: string, model: string)
    requires reply != "" && GetSpec(model).Some?
    requires promptText != "" || LastCount(prompts, 0) >= 0
    ensures Price(GetSpec(model).value, Billed(LastCount(prompts, 0), promptText), Billed(LastCount(completions, 0), reply)) >= 50
  {
    var spec := GetSpec(model).value;
    var p, c := Billed(LastCount(prompts, 0), promptText), Billed(LastCount(completions, 0), reply);
    assert p >= 0 && c >= 1;
    SpecsAreNotFree();
    var i :| 0 <= i < |SPECS| && SPECS[i] == spec;
    PriceIsMonotone(spec, 0, 1, p, c);
    assert ExactPrice(spec, 0, 1) == 40 * spec.outputCents;
  }

  /** Exactly when a reply with text costs nothing: the prompt has no text to estimate it by,
      and a negative count stands for it that outweighs the reply. Nothing in record refuses
      such a count; the adapters pass on what the SDKs say. */
  lemma {:induction false} ReplyIsFreeExactly(prompts: seq<Option<int>>, completions: seq<Option<int>>, promptText: string, reply: string, model: string)
    requires reply != "" && GetSpec(model).Some?
    ensures var spec, p, c := GetSpec(model).value, LastCount(prompts, 0), Billed(LastCount(completions, 0), reply);
            Price(spec, Billed(p, promptText), c) <= 0
            <==> promptText == "" && p < 0 && c * spec.outputCents <= -p * spec.inputCents
  {
    RegistryHasFiveCentPrices(model);
    RegistryIsNotFree(model);
    FreeAtThatPrice(GetSpec(model).value, LastCount(prompts, 0), LastCount(completions, 0), promptText, reply);
  }

  lemma {:induction false} FreeAtThatPrice(spec: ModelSpec, prompt: int, completion: int, promptText: string, reply: string)
    requires reply != "" && FiveCentPrices(spec) && spec.outputCents > 0
    ensures var c := Billed(completion, reply);
            Price(spec, Billed(prompt, promptText), c) <= 0
            <==> promptText == "" && prompt < 0 && c * spec.outputCents <= -prompt * spec.inputCents
  {
    FreeExactly(spec, Billed(prompt, promptText), Billed(completion, reply));
  }

  lemma {:induction false} RegistryIsNotFree(model: string)
    requires GetSpec(model).Some?
    ensures GetSpec(model).value.outputCents >= 125
  {
    var i :| 0 <= i < |SPECS| && SPECS[i] == GetSpec(model).value;
    SpecsAreNotFree();
  }

  /** Without rounding, a price is not positive exactly when its tokens outweigh each other. */
  lemma {:induction false} FreeExactly(spec: ModelSpec, p: int, c: int)
    requires FiveCentPrices(spec) && spec.outputCents > 0 && c > 0
    ensures Price(spec, p, c) <= 0 <==> p < 0 && c * spec.outputCents <= -p * spec.inputCents
  {
    FiveCentChargesAreExact(spec, p, c, 0, 0);
    PositiveProduct(c, spec.outputCents);
    if p >= 0 {
      assert p * spec.inputCents >= 0;
    }
  }

  lemma {:induction false} PositiveProduct(a: int, b: int)
    requires a > 0 && b > 0
    ensures a * b > 0
  {
  }

  lemma {:induction false} SpecsAreNotFree()
    ensures forall i :: 0 <= i < |SPECS| ==> SPECS[i].outputCents >= 125
  {
  }
}

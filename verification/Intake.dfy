/** From a request to the prompts and budgets of a turn: the balance gate and steps 2 and 3
    of run_turn (app/api/v1/endpoints/chat.py) in one piece. A wallet without credits stops a
    turn before anything is written; one that cannot pay for a slot stops it only after the
    message log has been written and committed. */
module Intake {
  import opened Wrappers
  import opened ChatMessages
  import opened Pricing
  import opened Affordability
  import opened ChatLog

  datatype Outcome =
    | Rejected(error: TurnError)
    | OutOfCredits
    | CannotPay(slot: nat)
    | Ready(prompts: seq<seq<ChatMessage>>, budgets: seq<Budget>)

  /** What a request comes with: the staging area, the models resolved for it, the balance
      read, and the rows other sessions commit before each model's history query. */
  datatype Setting = Setting(staged: map<string, Attachment>, specs: seq<ModelSpec>, late: seq<seq<Row>>, limit: nat, balance: int, effort: string)

  predicate ValidSetting(c: Setting) {
    c.specs != [] && |c.late| == |c.specs| && c.limit > 0
  }

  function Ids(specs: seq<ModelSpec>): (ids: seq<string>)
    ensures |ids| == |specs|
  {
    seq(|specs|, i requires 0 <= i < |specs| => specs[i].id)
  }

  /** One slot for each prompt. */
  function Slots(specs: seq<ModelSpec>, prompts: seq<seq<ChatMessage>>): (slots: seq<SlotRequest>)
    requires |specs| == |prompts|
    ensures |slots| == |specs|
  {
    seq(|specs|, i requires 0 <= i < |specs| => SlotRequest(specs[i], TotalChars(prompts[i])))
  }

  function Latest(log: seq<Row>, request: Request, staged: map<string, Attachment>): ChatMessage
    requires log != []
  {
    ChatMessage(USER, log[|log| - 1].content, SentFiles(request, staged))
  }

  function Budgeted(specs: seq<ModelSpec>, prompts: seq<seq<ChatMessage>>, balance: int, effort: string): Outcome
    requires |specs| == |prompts|
  {
    var plan := PlanTurn(Slots(specs, prompts), balance, effort);
    if plan.Refused? then CannotPay(plan.slot) else Ready(prompts, plan.budgets)
  }

  /** The log afterwards, and what becomes of the turn. */
  function TakeTurn(rows: seq<Row>, request: Request, id: nat, now: int, c: Setting): (seq<Row>, Outcome)
    requires ValidSetting(c)
  {
    var step2 := Step2(rows, request, id, now);
    if request.RegenerateReply? && LastUser(rows).None? then (rows, Rejected(NothingToRegenerate))
    else if c.balance <= 0 then (rows, OutOfCredits)
    else if step2.Err? then (rows, Rejected(step2.error))
    else
      Step2EndsWithTheMessage(rows, request, id, now);
      var log := step2.value;
      var prompts := PromptsOf(log, c.late, Ids(c.specs), c.limit, Latest(log, request, c.staged));
      (log + Arrived(c.late, |c.late|), Budgeted(c.specs, prompts, c.balance, c.effort))
  }

  method MeasureSlots(specs: seq<ModelSpec>, prompts: seq<seq<ChatMessage>>) returns (slots: seq<SlotRequest>)
    requires |specs| == |prompts|
    ensures slots == Slots(specs, prompts)
  {
    slots := [];
    for i := 0 to |prompts|
      invariant slots == Slots(specs, prompts)[..i]
    {
      var chars := HistoryChars(prompts[i]);
      slots := slots + [SlotRequest(specs[i], chars)];
    }
  }

  /** Step 3: measure each prompt and budget its slot. */
  method BudgetPrompts(specs: seq<ModelSpec>, prompts: seq<seq<ChatMessage>>, balance: int, effort: string) returns (outcome: Outcome)
    requires |specs| == |prompts|
    ensures outcome == Budgeted(specs, prompts, balance, effort)
  {
    var slots := MeasureSlots(specs, prompts);
    var plan := PlanSlots(slots, balance, effort);
    outcome := if plan.Refused? then CannotPay(plan.slot) else Ready(prompts, plan.budgets);
  }

  method FilesOf(request: Request, staged: map<string, Attachment>) returns (files: seq<Attachment>)
    ensures files == SentFiles(request, staged)
  {
    if request.RegenerateReply? {
      files := [];
    } else {
      files := ResolveAttachments(staged, request.uploads);
    }
  }

  /** What stops a turn before it writes anything: nothing to answer again, or no credits. */
  method CheckGate(table: ChatTable, request: Request, balance: int) returns (stop: Option<Outcome>)
    ensures stop == if request.RegenerateReply? && LastUser(table.rows).None? then Some(Rejected(NothingToRegenerate))
                    else if balance <= 0 then Some(OutOfCredits) else None
  {
    if request.RegenerateReply? {
      var previous, k := table.LastUserMessage();
      NoLastUserExactly(table.rows);
      if previous.None? {
        return Some(Rejected(NothingToRegenerate));
      }
    }
    stop := if balance <= 0 then Some(OutOfCredits) else None;
  }

  lemma {:induction false} NoLastUserExactly(rows: seq<Row>)
    ensures LastUser(rows).None? <==> forall r :: r in rows ==> r.role == Assistant
  {
    LastUserIs(rows);
  }

  /** The same on the table: the gate, rewind or append, load and edit every history, budget. */
  method RunIntake(table: ChatTable, request: Request, id: nat, now: int, c: Setting) returns (outcome: Outcome)
    requires ValidSetting(c) && table.Valid() && forall x :: x in table.rows ==> x.at < now && x.id != id
    modifies table
    ensures (table.rows, outcome) == TakeTurn(old(table.rows), request, id, now, c)
  {
    var stop := CheckGate(table, request, c.balance);
    if stop.Some? {
      return stop.value;
    }
    var current := table.BeginTurn(request, id, now);
    if current.Err? {
      return Rejected(current.error);
    }
    var files := FilesOf(request, c.staged);
    var latest := ChatMessage(USER, current.value.content, files);
    var prompts := table.Prompts(Ids(c.specs), c.late, c.limit, latest);
    outcome := BudgetPrompts(c.specs, prompts, c.balance, c.effort);
  }

  // --- what a request comes to ------------------------------------------

  /** What a turn that was let through has written: a new message at the end, an edited one
      in place of its target and of all that followed, or nothing but the loss of the replies
      to the last user message. */
  ghost predicate IsWritten(log: seq<Row>, rows: seq<Row>, request: Request, id: nat, now: int) {
    match request
    case NewMessage(text, uploads) => log == rows + [Row(id, User, text, None, None, Names(uploads), now)]
    case EditMessage(target, text, uploads) =>
      exists k: nat :: IsUserMessage(rows, k, target) && log == rows[..k] + [Row(id, User, text, None, None, Names(uploads), now)]
    case RegenerateReply => exists k: nat :: IsLastUser(rows, k) && log == rows[..k + 1]
  }

  ghost predicate GoesOn(rows: seq<Row>, request: Request, id: nat, now: int, late: seq<Row>, after: seq<Row>) {
    exists log :: IsWritten(log, rows, request, id, now) && after == log + late
  }

  /** Every request, on the rows alone: there is nothing to regenerate exactly when the log has
      no user message, there are no credits exactly when the balance is not positive, and an
      edit is bad exactly when its target is no user message; these leave the log alone, and
      every other turn goes on to its budgets. */
  lemma {:induction false} RequestsTakeTheirCourse(rows: seq<Row>, request: Request, id: nat, now: int, c: Setting)
    requires ValidSetting(c)
    ensures var (log, outcome) := TakeTurn(rows, request, id, now, c);
            var mute := request.RegenerateReply? && forall r :: r in rows ==> r.role == Assistant;
            var lost := request.EditMessage? && forall r :: r in rows && r.id == request.target ==> r.role == Assistant;
            && (outcome == Rejected(NothingToRegenerate) <==> mute)
            && (outcome == OutOfCredits <==> !mute && c.balance <= 0)
            && (outcome == Rejected(BadEdit) <==> c.balance > 0 && lost)
            && if mute || lost || c.balance <= 0 then log == rows
               else (outcome.CannotPay? || outcome.Ready?) && GoesOn(rows, request, id, now, Arrived(c.late, |c.late|), log)
  {
    NoLastUserExactly(rows);
    LastUserIs(rows);
    if request.EditMessage? {
      NoTargetExactly(rows, request.target);
    }
    if Step2(rows, request, id, now).Ok? {
      Step2Writes(rows, request, id, now);
    }
  }

  lemma {:induction false} NoTargetExactly(rows: seq<Row>, target: nat)
    ensures FindUser(rows, target).None? <==> forall r :: r in rows && r.id == target ==> r.role == Assistant
  {
    if FindUser(rows, target).None? {
      FindUserFinds(rows, target);
    } else {
      var k := FindUser(rows, target).value;
      assert rows[k] in rows;
    }
  }

  lemma {:induction false} Step2Writes(rows: seq<Row>, request: Request, id: nat, now: int)
    requires Step2(rows, request, id, now).Ok?
    ensures IsWritten(Step2(rows, request, id, now).value, rows, request, id, now)
  {
    LastUserIs(rows);
    if request.EditMessage? {
      assert IsUserMessage(rows, FindUser(rows, request.target).value, request.target);
    }
  }

  // --- a turn that cannot be paid for -----------------------------------

  /** Refused for lack of credits: at the gate, or at the first slot that cannot be paid for. */
  predicate Unpaid(outcome: Outcome) {
    outcome.OutOfCredits? || outcome.CannotPay?
  }

  /** The log that was there, with what other sessions wrote before the histories were read. */
  function Untouched(rows: seq<Row>, outcome: Outcome, c: Setting): seq<Row> {
    if outcome.OutOfCredits? then rows else rows + Arrived(c.late, |c.late|)
  }

  /** Exactly when a refusal for lack of credits leaves the log alone: when there were no
      credits at all, so that the turn stopped at the gate; or for a regenerate of a log that
      already ends with the user message. Otherwise a new message stays stored, an edit has
      truncated, and a regenerate has deleted the replies. */
  lemma {:induction false} UnpaidTurnKeepsTheLogExactly(rows: seq<Row>, request: Request, id: nat, now: int, c: Setting)
    requires ValidSetting(c) && (forall x :: x in rows ==> x.id != id)
    requires Unpaid(TakeTurn(rows, request, id, now, c).1)
    ensures var (log, outcome) := TakeTurn(rows, request, id, now, c);
            log == Untouched(rows, outcome, c)
            <==> c.balance <= 0 || (request.RegenerateReply? && rows != [] && rows[|rows| - 1].role == User)
  {
    if c.balance > 0 {
      UnaffordableTurnKeepsTheLogExactly(rows, request, id, now, c);
    }
  }

  lemma {:induction false} UnaffordableTurnKeepsTheLogExactly(rows: seq<Row>, request: Request, id: nat, now: int, c: Setting)
    requires ValidSetting(c) && (forall x :: x in rows ==> x.id != id)
    requires TakeTurn(rows, request, id, now, c).1.CannotPay?
    ensures TakeTurn(rows, request, id, now, c).0 == rows + Arrived(c.late, |c.late|)
       <==> request.RegenerateReply? && rows != [] && rows[|rows| - 1].role == User
  {
    var log, late := Step2(rows, request, id, now).value, Arrived(c.late, |c.late|);
    Step2EndsWithTheMessage(rows, request, id, now);
    SuffixCancels(log, rows, late);
    if request.RegenerateReply? {
      RegenerateKeepsTheLogExactly(rows, id, now);
    } else {
      assert log[|log| - 1].id == id && (rows != [] ==> rows[|rows| - 1] in rows);
    }
  }

  lemma {:induction false} SuffixCancels(a: seq<Row>, b: seq<Row>, late: seq<Row>)
    ensures a + late == b + late <==> a == b
  {
    if a + late == b + late {
      assert |a| == |b| && (a + late)[..|a|] == a && (b + late)[..|b|] == b;
    }
  }

  lemma {:induction false} RegenerateKeepsTheLogExactly(rows: seq<Row>, id: nat, now: int)
    requires Step2(rows, RegenerateReply, id, now).Ok?
    ensures Step2(rows, RegenerateReply, id, now).value == rows <==> rows != [] && rows[|rows| - 1].role == User
  {
    var k := LastUser(rows).value;
    assert rows[..k + 1] == rows <==> k == |rows| - 1;
  }

  /** What an unpaid edit leaves: the rows before its target, and the new message. */
  lemma {:induction false} UnpaidEditHasTruncated(rows: seq<Row>, target: nat, text: string, uploads: seq<Upload>, id: nat, now: int, c: Setting)
    requires ValidSetting(c) && TakeTurn(rows, EditMessage(target, text, uploads), id, now, c).1.CannotPay?
    ensures exists k: nat :: (
      && IsUserMessage(rows, k, target)
      && TakeTurn(rows, EditMessage(target, text, uploads), id, now, c).0
         == rows[..k] + [Row(id, User, text, None, None, Names(uploads), now)] + Arrived(c.late, |c.late|))
  {
    var k := FindUser(rows, target);
    assert IsUserMessage(rows, k.value, target);
  }

  const FIRST := Row(1, User, "Hi", None, None, [], 10)
  const ANSWER := Row(2, Assistant, "Hello", Some("gpt-5.4-nano"), Some(1), [], 20)
  const SECOND := Row(3, User, "More", None, None, [], 30)

  /** The instance: with one micro-credit left, editing the first of three messages is refused
      and has deleted the other two. */
  lemma {:induction false} AnUnpaidEditLosesTheChat(limit: nat)
    requires limit > 0
    ensures TakeTurn([FIRST, ANSWER, SECOND], EditMessage(1, "Hey", []), 4, 40, Setting(map[], [SPECS[4]], [[]], limit, 1, "low"))
         == ([Row(4, User, "Hey", None, None, [], 40)], CannotPay(0))
  {
    var rows, c := [FIRST, ANSWER, SECOND], Setting(map[], [SPECS[4]], [[]], limit, 1, "low");
    var edited := Row(4, User, "Hey", None, None, [], 40);
    assert rows[..2] == [FIRST, ANSWER] && rows[..2][..1] == [FIRST];
    assert FindUser([FIRST], 1) == Some(0) && FindUser([FIRST, ANSWER], 1) == Some(0);
    assert Names([]) == [] && rows[..0] + [edited] == [edited];
    assert Step2(rows, EditMessage(1, "Hey", []), 4, 40) == Ok([edited]);
    assert Arrived([[]], 0) == [] && Arrived([[]], 1) == [];
    var prompts := PromptsOf([edited], c.late, Ids(c.specs), limit, Latest([edited], EditMessage(1, "Hey", []), map[]));
    OnePoorSlot(Slots(c.specs, prompts));
    assert [edited] + [] == [edited];
  }

  lemma {:induction false} OnePoorSlot(slots: seq<SlotRequest>)
    requires |slots| == 1 && slots[0].spec == SPECS[4]
    ensures PlanTurn(slots, 1, "low").Refused? && PlanTurn(slots, 1, "low").slot == 0
  {
    var tokens := PromptTokens(slots[0].promptChars);
    assert ExactPrice(SPECS[4], tokens, MIN_OUTPUT_TOKENS) == 40 * (tokens * 20 + 512 * 125);
    assert PlanBudget(SPECS[4], slots[0].promptChars, 1, "low", 1).Err?;
    assert PlanFirst(slots, 1, "low", 0) == Planned([]);
  }

  // --- the prompts of a turn --------------------------------------------

  /** The log that a turn ready to stream has written; it ends with the current message. */
  function LogAfter(rows: seq<Row>, request: Request, id: nat, now: int, c: Setting): (log: seq<Row>)
    requires ValidSetting(c) && TakeTurn(rows, request, id, now, c).1.Ready?
    ensures log != [] && log[|log| - 1].role == User && Step2(rows, request, id, now) == Ok(log)
  {
    Step2EndsWithTheMessage(rows, request, id, now);
    Step2(rows, request, id, now).value
  }

  /** From the request to every prompt. Each prompt ends with the current message of the log
      and the files sent for it; and these are the staged contents of all the attachments of
      that message, in order, exactly when every one is still staged, for a new or an edited
      message, and exactly when it has none, for a regenerate. `uploads` are the attachments
      the stored message was sent with, of which it keeps the names. */
  lemma {:induction false} PromptsCarryTheMessage(rows: seq<Row>, request: Request, id: nat, now: int, c: Setting, uploads: seq<Upload>, i: nat)
    requires ValidSetting(c) && i < |c.specs|
    requires TakeTurn(rows, request, id, now, c).1.Ready?
    requires !request.RegenerateReply? ==> uploads == request.uploads
    requires var log := LogAfter(rows, request, id, now, c); log[|log| - 1].attachments == Names(uploads)
    ensures var log, prompt := LogAfter(rows, request, id, now, c), TakeTurn(rows, request, id, now, c).1.prompts[i];
            && prompt != [] && prompt[|prompt| - 1] == ChatMessage(USER, log[|log| - 1].content, SentFiles(request, c.staged))
            && (AllContents(c.staged, uploads, SentFiles(request, c.staged))
                <==> if request.RegenerateReply? then log[|log| - 1].attachments == [] else forall u :: u in uploads ==> IsStaged(c.staged, u))
  {
    var log := LogAfter(rows, request, id, now, c);
    var latest := Latest(log, request, c.staged);
    PromptIsMadeOfRows(log + Arrived(c.late, i + 1), c.limit, ThreadOf(Ids(c.specs), i), latest);
    PromptOfATurn(rows, request, id, now, c, i);
    ResolvedExactly(c.staged, uploads);
  }

  /** And before it come the rows the model should see, exactly when nothing that other
      sessions committed by the time of its query disturbs them. */
  lemma {:induction false} PromptsAreRightExactly(rows: seq<Row>, request: Request, id: nat, now: int, c: Setting, i: nat)
    requires ValidSetting(c) && i < |c.specs|
    requires TakeTurn(rows, request, id, now, c).1.Ready?
    requires Apart(LogAfter(rows, request, id, now, c), Arrived(c.late, i + 1))
    ensures var log := LogAfter(rows, request, id, now, c);
            var before, current, late, model := log[..|log| - 1], log[|log| - 1], Arrived(c.late, i + 1), ThreadOf(Ids(c.specs), i);
            && TakeTurn(rows, request, id, now, c).1.prompts[i]
               == Messages(SentRows(Window(log + late, c.limit, model), current.content)) + [Latest(log, request, c.staged)]
            && (IsRight(before, current, late, c.limit, model) <==> Undisturbed(before, late, c.limit, model, current.content))
  {
    var log := LogAfter(rows, request, id, now, c);
    PromptOfATurn(rows, request, id, now, c, i);
    PromptOfALog(log, Arrived(c.late, i + 1), c.limit, ThreadOf(Ids(c.specs), i), Latest(log, request, c.staged));
  }

  /** The current message and the rows that came after it are not among the rows before. */
  predicate Apart(log: seq<Row>, late: seq<Row>)
    requires log != []
  {
    forall x, y :: x in log[..|log| - 1] && y in [log[|log| - 1]] + late ==> x.id != y.id
  }

  lemma {:induction false} PromptOfATurn(rows: seq<Row>, request: Request, id: nat, now: int, c: Setting, i: nat)
    requires ValidSetting(c) && i < |c.specs| && TakeTurn(rows, request, id, now, c).1.Ready?
    ensures var log := LogAfter(rows, request, id, now, c);
            TakeTurn(rows, request, id, now, c).1.prompts[i]
            == WithLatest(LoadHistory(log + Arrived(c.late, i + 1), c.limit, ThreadOf(Ids(c.specs), i)), Latest(log, request, c.staged))
  {
    var log := LogAfter(rows, request, id, now, c);
    assert TakeTurn(rows, request, id, now, c).1.prompts[i] == PromptAt(log, c.late, Ids(c.specs), c.limit, Latest(log, request, c.staged), i);
  }

  lemma {:induction false} PromptOfALog(log: seq<Row>, late: seq<Row>, limit: nat, model: Option<string>, latest: ChatMessage)
    requires limit > 0 && log != [] && log[|log| - 1].role == User && latest.text == log[|log| - 1].content
    requires Apart(log, late)
    ensures var before, current := log[..|log| - 1], log[|log| - 1];
            && WithLatest(LoadHistory(log + late, limit, model), latest)
               == Messages(SentRows(Window(log + late, limit, model), current.content)) + [latest]
            && (IsRight(before, current, late, limit, model) <==> Undisturbed(before, late, limit, model, current.content))
  {
    PromptIsMadeOfRows(log + late, limit, model, latest);
    assert log[..|log| - 1] + [log[|log| - 1]] == log;
    PromptIsRightExactly(log[..|log| - 1], log[|log| - 1], late, limit, model);
  }

  /** From the request to every prompt, on the rows alone: model i of the turn is sent the
      non-empty rows among the last `limit` of its own thread, as the log is by the time of its
      query, and then the current message. In an arena it reads the user and itself, never the
      other models. */
  lemma {:induction false} EveryModelReadsItsThread(rows: seq<Row>, request: Request, id: nat, now: int, c: Setting, i: nat)
    requires ValidSetting(c) && i < |c.specs|
    requires TakeTurn(rows, request, id, now, c).1.Ready?
    ensures var log := LogAfter(rows, request, id, now, c);
            && |Ids(c.specs)| == |c.specs| && (forall k :: 0 <= k < |c.specs| ==> Ids(c.specs)[k] == c.specs[k].id)
            && ReadsItsThread(TakeTurn(rows, request, id, now, c).1.prompts[i], log + Arrived(c.late, i + 1), Ids(c.specs), i, c.limit,
                              Latest(log, request, c.staged))
  {
    var log := LogAfter(rows, request, id, now, c);
    PromptOfATurn(rows, request, id, now, c, i);
    PromptIsTheThread(log + Arrived(c.late, i + 1), Ids(c.specs), i, c.limit, Latest(log, request, c.staged));
  }

  predicate IsBudgetOf(spec: ModelSpec, prompt: seq<ChatMessage>, balance: int, effort: string, share: nat, b: Budget)
    requires share > 0
  {
    PlanBudget(spec, TotalChars(prompt), balance, effort, share) == Ok(b)
  }

  predicate IsPaidFor(spec: ModelSpec, prompt: seq<ChatMessage>, balance: int, effort: string, share: nat)
    requires share > 0
  {
    PlanBudget(spec, TotalChars(prompt), balance, effort, share).Ok?
  }

  /** And every slot is budgeted for its own model, its own prompt and an equal share of the
      balance; a turn that is refused is refused at the first slot that its share does not pay
      for. */
  lemma {:induction false} EverySlotIsBudgeted(specs: seq<ModelSpec>, prompts: seq<seq<ChatMessage>>, balance: int, effort: string)
    requires |specs| == |prompts|
    ensures var outcome := Budgeted(specs, prompts, balance, effort);
            && (outcome.Ready? ==>
                  && outcome.prompts == prompts && |outcome.budgets| == |specs|
                  && forall i :: 0 <= i < |specs| ==> IsBudgetOf(specs[i], prompts[i], balance, effort, |specs|, outcome.budgets[i]))
            && (outcome.CannotPay? ==>
                  && outcome.slot < |specs| && !IsPaidFor(specs[outcome.slot], prompts[outcome.slot], balance, effort, |specs|)
                  && forall i :: 0 <= i < outcome.slot ==> IsPaidFor(specs[i], prompts[i], balance, effort, |specs|))
            && (outcome.Ready? || outcome.CannotPay?)
  {
    var slots := Slots(specs, prompts);
    SlotsAreTheirPrompts(specs, prompts);
    PlanFirstGivesEachSlot(Slots(specs, prompts), balance, effort, |specs|);
  }

  lemma {:induction false} SlotsAreTheirPrompts(specs: seq<ModelSpec>, prompts: seq<seq<ChatMessage>>)
    requires |specs| == |prompts|
    ensures forall i :: 0 <= i < |specs| ==> Slots(specs, prompts)[i] == SlotRequest(specs[i], TotalChars(prompts[i]))
  {
  }
}

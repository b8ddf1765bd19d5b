/** What a fault outside the design's assumptions does to a paid job: the runs that show
    each assumption is needed. */
module MediaFaults {
  import opened Wrappers
  import opened Ledger
  import opened MediaJobs
  import opened ChatBilling
  import opened Economy
  import opened Traces

  const OWNER: User := 3
  const PRICE := 4_000_000

  /** One job alone in the world. */
  function Alone(wallet: int, open: map<Sid, Tx>, ledger: seq<Posting>, job: Job): World {
    World(Db(map[OWNER := wallet], map[], [], map[], open, ledger), [Making(job)])
  }

  function Tick(part: Part, env: Env): Event {
    Step(0, JobEvent(part, env), Look)
  }

  const DEBIT := Posting(OWNER, 0 - PRICE, MediaDebit(0))
  const REFUND := Posting(OWNER, PRICE, Refund(0))

  function NewJob(avatar: bool): Job {
    Job(OWNER, PRICE, avatar, None, false, false, 0, JobStart, JobIdle)
  }

  const START := Start(map[OWNER := PRICE])

  // --- runs, a stretch at a time ----------------------------------------

  ghost predicate Reaches(w: World, maxAttempts: nat) {
    exists events :: RunFrom(START, events, maxAttempts) == w
  }

  lemma {:induction false} Then(w: World, e: Event, w': World, maxAttempts: nat)
    requires Reaches(w, maxAttempts) && Next(w, e, maxAttempts) == w'
    ensures Reaches(w', maxAttempts)
  {
    var events :| RunFrom(START, events, maxAttempts) == w;
    RunsCompose(START, events, [e], maxAttempts);
    RunOfOne(w, e, maxAttempts);
  }

  lemma {:induction false} Moves(wallet: int, ledger: seq<Posting>, j: Job, part: Part, env: Env, maxAttempts: nat)
    requires Reaches(Alone(wallet, map[], ledger, j), maxAttempts) && !TouchesWallet(PcOf(j, part))
    ensures Reaches(Alone(wallet, map[], ledger, JobMove(j, part, env, maxAttempts)), maxAttempts)
  {
    var w := Alone(wallet, map[], ledger, j);
    Then(w, Tick(part, env), Alone(wallet, map[], ledger, JobMove(j, part, env, maxAttempts)), maxAttempts);
  }

  const CHARGE := Tx(Some(DEBIT), None, None)

  /** Spawn and debit. */
  lemma {:induction false} Debits(avatar: bool, maxAttempts: nat)
    ensures Reaches(Alone(PRICE, map[SidOf(0, Task) := CHARGE], [], NewJob(avatar).(task := JobDebited)), maxAttempts)
  {
    var j := NewJob(avatar);
    assert RunFrom(START, [], maxAttempts) == START;
    Then(START, Spawn(Making(j)), Alone(PRICE, map[], [], j), maxAttempts);
    Then(Alone(PRICE, map[], [], j), Tick(Task, Succeed), Alone(PRICE, map[SidOf(0, Task) := CHARGE], [], j.(task := JobDebited)), maxAttempts);
  }

  /** And commit. */
  lemma {:induction false} Reserves(avatar: bool, maxAttempts: nat)
    ensures Reaches(Alone(0, map[], [DEBIT], NewJob(avatar).(task := JobReserved, video := if avatar then Some(Processing) else None)), maxAttempts)
  {
    var w := Alone(PRICE, map[SidOf(0, Task) := CHARGE], [], NewJob(avatar).(task := JobDebited));
    Debits(avatar, maxAttempts);
    assert Commit(w.db, SidOf(0, Task)).open == map[] && [] + [DEBIT] == [DEBIT];
    Then(w, Tick(Task, Succeed), Next(w, Tick(Task, Succeed), maxAttempts), maxAttempts);
  }

  /** A part whose refund is due gives the price back. */
  lemma {:induction false} GivesBack(wallet: int, ledger: seq<Posting>, j: Job, part: Part, maxAttempts: nat)
    requires Reaches(Alone(wallet, map[], ledger, j), maxAttempts) && PcOf(j, part) == JobRefundDue && j.user == OWNER && j.cost == PRICE
    ensures Reaches(Alone(wallet + PRICE, map[], ledger + [REFUND], WithPc(j, part, JobRefunded)), maxAttempts)
  {
    var s, tx := SidOf(0, part), Tx(Some(REFUND), None, None);
    var w0, w1 := Alone(wallet, map[], ledger, j), Alone(wallet, map[s := tx], ledger, WithPc(j, part, JobRefunding));
    RefundEffect(w0.db, 0, j, part, Succeed);
    Then(w0, Tick(part, Succeed), w1, maxAttempts);
    assert Commit(w1.db, s).open == map[];
    Then(w1, Tick(part, Succeed), Alone(wallet + PRICE, map[], ledger + [REFUND], WithPc(j, part, JobRefunded)), maxAttempts);
  }

  // --- the faults -------------------------------------------------------

  function StoredAsset(): Job {
    NewJob(false).(delivered := true, task := JobStored(0))
  }

  lemma {:induction false} StoresItsAsset(maxAttempts: nat)
    ensures Reaches(Alone(0, map[], [DEBIT], StoredAsset()), maxAttempts)
  {
    var j := NewJob(false);
    Reserves(false, maxAttempts);
    Moves(0, [DEBIT], j.(task := JobReserved), Task, Succeed, maxAttempts);
    Moves(0, [DEBIT], j.(task := JobQueued), Task, Succeed, maxAttempts);
  }

  /** A task that fails after it has stored its asset is refunded all the same: the owner
      keeps the picture and the credits. */
  lemma {:induction false} LateFaultDeliversForFree(maxAttempts: nat)
    ensures Reaches(Alone(PRICE, map[], [DEBIT, REFUND], StoredAsset().(lateFault := true, task := JobRefunded)), maxAttempts)
  {
    StoresItsAsset(maxAttempts);
    Moves(0, [DEBIT], StoredAsset(), Task, Fail, maxAttempts);
    var failed := StoredAsset().(lateFault := true, task := JobFailing);
    Moves(0, [DEBIT], failed, Task, Succeed, maxAttempts);
    GivesBack(0, [DEBIT], failed.(task := JobRefundDue), Task, maxAttempts);
    assert [DEBIT] + [REFUND] == [DEBIT, REFUND];
  }

  /** A broker that is down when the charged task should be queued leaves the owner charged
      with nothing to come. */
  lemma {:induction false} LostTaskIsNotRefunded(maxAttempts: nat)
    ensures Reaches(Alone(0, map[], [DEBIT], NewJob(false).(task := JobStranded)), maxAttempts)
  {
    Reserves(false, maxAttempts);
    Moves(0, [DEBIT], NewJob(false).(task := JobReserved), Task, Fail, maxAttempts);
  }

  /** An avatar submitted to D-ID whose task fails with the first poll already queued. */
  function HandoverLost(): Job {
    NewJob(true).(video := Some(External), task := JobFailing, poller := JobPolling(1))
  }

  lemma {:induction false} HandsOverAndFails(maxAttempts: nat)
    ensures Reaches(Alone(0, map[], [DEBIT], HandoverLost()), maxAttempts)
  {
    var j := NewJob(true);
    Reserves(true, maxAttempts);
    Moves(0, [DEBIT], j.(task := JobReserved, video := Some(Processing)), Task, Succeed, maxAttempts);
    Moves(0, [DEBIT], j.(task := JobQueued, video := Some(Processing)), Task, Succeed, maxAttempts);
    Moves(0, [DEBIT], j.(task := JobSubmitted, video := Some(External)), Task, Succeed, maxAttempts);
    Moves(0, [DEBIT], j.(task := JobHandingOver, poller := JobPolling(1), video := Some(External)), Task, Fail, maxAttempts);
  }

  /** Its refund does not stop the poller. When the render then fails, the poller refunds as
      well: the owner, who had paid the price once, has it twice. */
  lemma {:induction false} HandoverFaultRefundsTwice(maxAttempts: nat)
    ensures Reaches(Alone(2 * PRICE, map[], [DEBIT, REFUND, REFUND],
                          NewJob(true).(video := Some(VideoStatus.Failed), polls := 1, task := JobRefunded, poller := JobRefunded)), maxAttempts)
  {
    var j := HandoverLost();
    HandsOverAndFails(maxAttempts);
    Moves(0, [DEBIT], j, Task, Succeed, maxAttempts);
    var due := j.(task := JobRefundDue, video := Some(VideoStatus.Failed));
    GivesBack(0, [DEBIT], due, Task, maxAttempts);
    assert [DEBIT] + [REFUND] == [DEBIT, REFUND];
    var refunded := due.(task := JobRefunded);
    Moves(PRICE, [DEBIT, REFUND], refunded, Poller, DidError, maxAttempts);
    var failing := refunded.(polls := 1, poller := JobFailing);
    Moves(PRICE, [DEBIT, REFUND], failing, Poller, Succeed, maxAttempts);
    GivesBack(PRICE, [DEBIT, REFUND], failing.(poller := JobRefundDue), Poller, maxAttempts);
    assert [DEBIT, REFUND] + [REFUND] == [DEBIT, REFUND, REFUND];
  }

  /** When the render succeeds instead, the owner has the video and the credits, although
      nothing failed after the video was stored. */
  lemma {:induction false} HandoverFaultDeliversForFree(maxAttempts: nat)
    ensures Reaches(Alone(PRICE, map[], [DEBIT, REFUND],
                          NewJob(true).(video := Some(Completed), delivered := true, polls := 1, task := JobRefunded, poller := JobDone)), maxAttempts)
  {
    var j := HandoverLost();
    HandsOverAndFails(maxAttempts);
    Moves(0, [DEBIT], j, Task, Succeed, maxAttempts);
    var due := j.(task := JobRefundDue, video := Some(VideoStatus.Failed));
    GivesBack(0, [DEBIT], due, Task, maxAttempts);
    assert [DEBIT] + [REFUND] == [DEBIT, REFUND];
    var refunded := due.(task := JobRefunded);
    Moves(PRICE, [DEBIT, REFUND], refunded, Poller, Succeed, maxAttempts);
    var stored := refunded.(video := Some(Completed), delivered := true, polls := 1, poller := JobStored(1));
    Moves(PRICE, [DEBIT, REFUND], stored, Poller, Succeed, maxAttempts);
  }

  // --- the last poll ----------------------------------------------------

  /** An avatar handed over in good order, when k polls have run. */
  function BeforePoll(k: nat): Job {
    NewJob(true).(video := Some(External), polls := k, task := JobHandedOver, poller := JobPolling(k + 1))
  }

  lemma {:induction false} HandsOver(maxAttempts: nat)
    ensures Reaches(Alone(0, map[], [DEBIT], BeforePoll(0)), maxAttempts)
  {
    var j := NewJob(true);
    Reserves(true, maxAttempts);
    Moves(0, [DEBIT], j.(task := JobReserved, video := Some(Processing)), Task, Succeed, maxAttempts);
    Moves(0, [DEBIT], j.(task := JobQueued, video := Some(Processing)), Task, Succeed, maxAttempts);
    Moves(0, [DEBIT], j.(task := JobSubmitted, video := Some(External)), Task, Succeed, maxAttempts);
    Moves(0, [DEBIT], j.(task := JobHandingOver, poller := JobPolling(1), video := Some(External)), Task, Succeed, maxAttempts);
  }

  /** While the render goes on, every poll below the limit queues the next. */
  lemma {:induction false} KeepsPolling(k: nat, maxAttempts: nat)
    requires k < maxAttempts
    ensures Reaches(Alone(0, map[], [DEBIT], BeforePoll(k)), maxAttempts)
  {
    if k == 0 {
      HandsOver(maxAttempts);
    } else {
      KeepsPolling(k - 1, maxAttempts);
      Moves(0, [DEBIT], BeforePoll(k - 1), Poller, StillRendering, maxAttempts);
      Moves(0, [DEBIT], BeforePoll(k).(poller := JobRescheduling(k + 1)), Poller, Succeed, maxAttempts);
    }
  }

  /** For every limit there is a run in which the render takes all the polls but one, and the
      last one that the limit allows still delivers it. */
  lemma {:induction false} TheLastPollDelivers(maxAttempts: nat)
    requires maxAttempts > 0
    ensures Reaches(Alone(0, map[], [DEBIT],
                          NewJob(true).(video := Some(Completed), delivered := true, polls := maxAttempts, task := JobHandedOver, poller := JobDone)), maxAttempts)
  {
    KeepsPolling(maxAttempts - 1, maxAttempts);
    Moves(0, [DEBIT], BeforePoll(maxAttempts - 1), Poller, Succeed, maxAttempts);
    var stored := NewJob(true).(video := Some(Completed), delivered := true, polls := maxAttempts, task := JobHandedOver, poller := JobStored(maxAttempts));
    Moves(0, [DEBIT], stored, Poller, Succeed, maxAttempts);
  }

  lemma {:induction false} IsGivenUp(maxAttempts: nat)
    requires maxAttempts > 0
    ensures Reaches(Alone(0, map[], [DEBIT], BeforePoll(maxAttempts - 1).(polls := maxAttempts, poller := JobFailing)), maxAttempts)
  {
    KeepsPolling(maxAttempts - 1, maxAttempts);
    Moves(0, [DEBIT], BeforePoll(maxAttempts - 1), Poller, StillRendering, maxAttempts);
  }

  /** And one in which the render never ends: after that many polls it is given up and paid
      back. */
  lemma {:induction false} AnEndlessRenderIsPaidBack(maxAttempts: nat)
    requires maxAttempts > 0
    ensures Reaches(Alone(PRICE, map[], [DEBIT, REFUND],
                          NewJob(true).(video := Some(VideoStatus.Failed), polls := maxAttempts, task := JobHandedOver, poller := JobRefunded)), maxAttempts)
  {
    IsGivenUp(maxAttempts);
    var failing := BeforePoll(maxAttempts - 1).(polls := maxAttempts, poller := JobFailing);
    Moves(0, [DEBIT], failing, Poller, Succeed, maxAttempts);
    GivesBack(0, [DEBIT], failing.(video := Some(VideoStatus.Failed), poller := JobRefundDue), Poller, maxAttempts);
    assert [DEBIT] + [REFUND] == [DEBIT, REFUND];
  }
}

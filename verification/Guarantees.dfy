/** What the economy guarantees in every reachable state. */
module Guarantees {
  import opened Wrappers
  import opened Pricing
  import opened Ledger
  import opened Payments
  import opened MediaJobs
  import opened ChatBilling
  import opened Economy
  import opened Traces

  // --- purchases --------------------------------------------------------

  /** However deliveries of one session are replayed, interleaved with each other and
      with the checkout insert, or killed: its credits have been granted exactly once if
      its row is completed and not at all otherwise; and once a paid delivery has run to
      its end without giving up, the row is completed. */
  lemma {:induction false} StripeSessionIsCreditedOnce(opening: map<User, int>, events: seq<Event>, maxAttempts: nat, session: string)
    requires maxAttempts > 0
    ensures var db := RunFrom(Start(opening), events, maxAttempts).db;
            Entries(db.ledger, OfRef(Stripe(session))) == PurchasesFor(db.rows, Stripe(session))
    ensures var w := RunFrom(Start(opening), events, maxAttempts);
            forall p :: 0 <= p < |w.procs| && w.procs[p].Delivering? ==>
              var d := w.procs[p].delivery;
              d.session == session && d.paid && d.pc == DeliveryDone ==> Settled(w.db.rows, Stripe(session))
  {
    EveryRunIsSafe(opening, events, maxAttempts);
    var w := RunFrom(Start(opening), events, maxAttempts);
    forall p | 0 <= p < |w.procs| && w.procs[p].Delivering?
      ensures var d := w.procs[p].delivery;
              d.session == session && d.paid && d.pc == DeliveryDone ==> Settled(w.db.rows, Stripe(session))
    {
      assert ProcOk(w.db, p, w.procs[p], maxAttempts);
    }
  }

  /** An order is credited at most once, a payment id settles at most one order, and each
      answer a verification gives is true: success means this caller's order carries this
      payment, a conflict means the payment belongs to another completed order. */
  lemma {:induction false} RazorpayOrderIsCreditedOnce(opening: map<User, int>, events: seq<Event>, maxAttempts: nat, order: string)
    requires maxAttempts > 0
    ensures var db := RunFrom(Start(opening), events, maxAttempts).db;
            && Entries(db.ledger, OfRef(Order(order))) == PurchasesFor(db.rows, Order(order))
            && (forall a, b :: a in db.rows && b in db.rows && a != b && db.rows[a].payment.Some? ==>
                  db.rows[a].payment != db.rows[b].payment)
    ensures var w := RunFrom(Start(opening), events, maxAttempts);
            forall p :: 0 <= p < |w.procs| && w.procs[p].Verifying? ==>
              var v := w.procs[p].verify;
              && (v.pc == VerifyEnded(Success) ==>
                    && Settled(w.db.rows, Order(v.order)) && w.db.rows[Order(v.order)].payment == Some(v.payment)
                    && w.db.rows[Order(v.order)].user == v.caller)
              && (v.pc == VerifyEnded(AlreadyProcessed) ==> Settled(w.db.rows, Order(v.order)))
              && (v.pc == VerifyEnded(Conflict) ==> PaidElsewhere(w.db.rows, v))
  {
    EveryRunIsSafe(opening, events, maxAttempts);
    var w := RunFrom(Start(opening), events, maxAttempts);
    forall p | 0 <= p < |w.procs| && w.procs[p].Verifying?
      ensures VerifyOk(w.db, Sid(p, 0), w.procs[p].verify)
    {
      assert ProcOk(w.db, p, w.procs[p], maxAttempts);
    }
  }

  // --- media jobs -------------------------------------------------------

  /** At any time a job was never charged, or was charged once and refunded by each of its
      parts that came to a refund: not at all, once, or, only after a fault between queueing
      the first poll and returning, twice. Without such a fault it can be delivered and
      refunded only after a fault between storing the asset and returning; and it can end
      charged with nothing delivered or given back only if one of its parts was lost.
      Deleting the video row changes none of this, and no job polls more often than the
      limit. */
  lemma {:induction false} JobsBalanceOut(opening: map<User, int>, events: seq<Event>, maxAttempts: nat, p: nat)
    requires maxAttempts > 0
    requires var w := RunFrom(Start(opening), events, maxAttempts); p < |w.procs| && w.procs[p].Making?
    ensures var w := RunFrom(Start(opening), events, maxAttempts);
            var j, entries := w.procs[p].job, Entries(w.db.ledger, OfJob(p));
            var debit, refund := DebitPosting(p, j), RefundPosting(p, j);
            var byTask, byPoller := Seen(opening, events, maxAttempts, p, RefundCommitted(Task)), Seen(opening, events, maxAttempts, p, RefundCommitted(Poller));
            && j.polls <= maxAttempts
            && entries == (if !Charged(j) then [] else if byTask && byPoller then [debit, refund, refund]
                           else if byTask || byPoller then [debit, refund] else [debit])
            && (!Charged(j) ==> !j.delivered)
            && (byTask && byPoller ==> Seen(opening, events, maxAttempts, p, HandoverFault))
            && (j.delivered && (byTask || byPoller) ==>
                  Seen(opening, events, maxAttempts, p, HandoverFault) || Seen(opening, events, maxAttempts, p, LateFault))
            && (Terminal(j) && Charged(j) && !j.delivered && !byTask && !byPoller ==>
                  Seen(opening, events, maxAttempts, p, Lost(Task)) || Seen(opening, events, maxAttempts, p, Lost(Poller)))
  {
    EveryRunIsSafe(opening, events, maxAttempts);
    JobTells(opening, events, maxAttempts, p);
    var w := RunFrom(Start(opening), events, maxAttempts);
    assert ProcOk(w.db, p, w.procs[p], maxAttempts);
    AccountOf(w.db, p, w.procs[p].job, maxAttempts);
  }

  /** The account of a job, by where its parts are. */
  lemma {:induction false} AccountOf(db: Db, p: nat, j: Job, maxAttempts: nat)
    requires JobOk(db, p, j, maxAttempts)
    ensures var byTask, byPoller := j.task.JobRefunded?, j.poller.JobRefunded?;
            var debit, refund := DebitPosting(p, j), RefundPosting(p, j);
            && j.polls <= maxAttempts
            && Entries(db.ledger, OfJob(p)) == (if !Charged(j) then [] else if byTask && byPoller then [debit, refund, refund]
                                                else if byTask || byPoller then [debit, refund] else [debit])
            && (!Charged(j) ==> !j.delivered)
            && (byTask && byPoller ==> HandoverFailed(j))
            && (j.delivered && (byTask || byPoller) ==> HandoverFailed(j) || j.lateFault)
            && (Terminal(j) && Charged(j) && !j.delivered && !byTask && !byPoller ==> j.task.JobStranded? || j.poller.JobStranded?)
  {
    FewMovements(p, j);
  }

  lemma {:induction false} FewMovements(p: nat, j: Job)
    ensures var debit, refund := DebitPosting(p, j), RefundPosting(p, j);
            && Movements(p, j, 0) == [debit]
            && Movements(p, j, 1) == [debit, refund]
            && Movements(p, j, 2) == [debit, refund, refund]
  {
    assert Movements(p, j, 2) == Movements(p, j, 1) + [RefundPosting(p, j)];
  }

  /** Delivered and paid for, or not delivered and paid back once. */
  ghost predicate Balanced(w: World, p: nat)
    requires p < |w.procs| && w.procs[p].Making?
  {
    var j, entries := w.procs[p].job, Entries(w.db.ledger, OfJob(p));
    || (j.delivered && entries == [DebitPosting(p, j)])
    || (!j.delivered && entries == [DebitPosting(p, j), RefundPosting(p, j)])
  }

  /** Exactly when a charged job that has ended balances, by the answers its steps were
      given. One that failed after storing its asset: when no refund committed. Any other
      whose task failed with its poll already queued: when exactly one of the task and the
      poller lost its enqueue, its refund or its worker, for each settles the account on its
      own. Any other: when neither did. */
  lemma {:induction false} JobsBalanceExactly(opening: map<User, int>, events: seq<Event>, maxAttempts: nat, p: nat)
    requires maxAttempts > 0
    requires var w := RunFrom(Start(opening), events, maxAttempts);
             p < |w.procs| && w.procs[p].Making? && Terminal(w.procs[p].job) && Charged(w.procs[p].job)
    ensures var byTask, byPoller := Seen(opening, events, maxAttempts, p, RefundCommitted(Task)), Seen(opening, events, maxAttempts, p, RefundCommitted(Poller));
            var lostTask, lostPoller := Seen(opening, events, maxAttempts, p, Lost(Task)), Seen(opening, events, maxAttempts, p, Lost(Poller));
            Balanced(RunFrom(Start(opening), events, maxAttempts), p) <==>
            if Seen(opening, events, maxAttempts, p, LateFault) then !byTask && !byPoller
            else if Seen(opening, events, maxAttempts, p, HandoverFault) then lostTask != lostPoller
            else !lostTask && !lostPoller
  {
    EveryRunIsSafe(opening, events, maxAttempts);
    JobTells(opening, events, maxAttempts, p);
    var w := RunFrom(Start(opening), events, maxAttempts);
    assert ProcOk(w.db, p, w.procs[p], maxAttempts);
    BalancedAtTheEnd(w, p, maxAttempts);
  }

  lemma {:induction false} BalancedAtTheEnd(w: World, p: nat, maxAttempts: nat)
    requires p < |w.procs| && w.procs[p].Making? && JobOk(w.db, p, w.procs[p].job, maxAttempts)
    requires Terminal(w.procs[p].job) && Charged(w.procs[p].job)
    ensures var j := w.procs[p].job;
            Balanced(w, p) <==>
            if j.lateFault then !j.task.JobRefunded? && !j.poller.JobRefunded?
            else if HandoverFailed(j) then j.task.JobStranded? != j.poller.JobStranded?
            else !j.task.JobStranded? && !j.poller.JobStranded?
  {
    AccountOf(w.db, p, w.procs[p].job, maxAttempts);
    EndsBalance(w.procs[p].job, maxAttempts);
  }

  /** The ends of a job, by what its state remembers. */
  lemma {:induction false} EndsBalance(j: Job, maxAttempts: nat)
    requires JobHistoryOk(j, maxAttempts) && Terminal(j) && Charged(j)
    ensures (if j.delivered then Refunds(j) == 0 else Refunds(j) == 1) <==>
            if j.lateFault then Refunds(j) == 0
            else if HandoverFailed(j) then j.task.JobStranded? != j.poller.JobStranded?
            else !j.task.JobStranded? && !j.poller.JobStranded?
  {
  }

  /** Every job step of the run meets the environment assumptions. */
  ghost predicate HealthyRun(w: World, events: seq<Event>, maxAttempts: nat)
    decreases |events|
  {
    events == [] || (
      && (events[0].Step? && events[0].p < |w.procs| && w.procs[events[0].p].Making?
          ==> Healthy(w.procs[events[0].p].job, events[0].je))
      && HealthyRun(Next(w, events[0], maxAttempts), events[1..], maxAttempts))
  }

  ghost predicate NoFaults(w: World) {
    forall p :: 0 <= p < |w.procs| && w.procs[p].Making? ==> NoFault(w.procs[p].job)
  }

  lemma {:induction false} HealthyRunsHaveNoFaults(w: World, opening: map<User, int>, events: seq<Event>, maxAttempts: nat)
    requires maxAttempts > 0 && Inv(w, opening, maxAttempts) && NoFaults(w) && HealthyRun(w, events, maxAttempts)
    ensures NoFaults(RunFrom(w, events, maxAttempts))
    decreases |events|
  {
    if events != [] {
      var e := events[0];
      if e.Step? && e.p < |w.procs| && w.procs[e.p].Making? {
        assert ProcOk(w.db, e.p, w.procs[e.p], maxAttempts);
        HealthyStepsLeaveNoFault(w.db, e.p, w.procs[e.p].job, e.je, maxAttempts);
      }
      assert NoFaults(Next(w, e, maxAttempts));
      NextIsSafe(w, opening, e, maxAttempts);
      HealthyRunsHaveNoFaults(Next(w, e, maxAttempts), opening, events[1..], maxAttempts);
    }
  }

  /** Under the environment assumptions of the design, a charged job that has ended was
      delivered and kept its charge, or was not delivered and got it back: never both,
      never neither. */
  lemma {:induction false} HealthyJobsAreDeliveredOrRefunded(opening: map<User, int>, events: seq<Event>, maxAttempts: nat, p: nat)
    requires maxAttempts > 0 && HealthyRun(Start(opening), events, maxAttempts)
    requires var w := RunFrom(Start(opening), events, maxAttempts);
             p < |w.procs| && w.procs[p].Making? && Terminal(w.procs[p].job)
    ensures var w := RunFrom(Start(opening), events, maxAttempts);
            var j, entries := w.procs[p].job, Entries(w.db.ledger, OfJob(p));
            || (j.task == JobRejected && !j.delivered && entries == [])
            || (j.delivered && entries == [DebitPosting(p, j)])
            || (!j.delivered && entries == [DebitPosting(p, j), RefundPosting(p, j)])
  {
    EveryRunIsSafe(opening, [], maxAttempts);
    HealthyRunsHaveNoFaults(Start(opening), opening, events, maxAttempts);
    EveryRunIsSafe(opening, events, maxAttempts);
    var w := RunFrom(Start(opening), events, maxAttempts);
    assert ProcOk(w.db, p, w.procs[p], maxAttempts);
    assert NoFault(w.procs[p].job);
    FewMovements(p, w.procs[p].job);
    if Charged(w.procs[p].job) {
      EndsBalance(w.procs[p].job, maxAttempts);
    }
  }

  ghost predicate UndeliverableAt(w: World, p: nat) {
    p < |w.procs| && w.procs[p].Making? && Undeliverable(w.procs[p].job)
  }

  lemma {:induction false} StepKeepsDeletion(w: World, opening: map<User, int>, e: Event, maxAttempts: nat, p: nat)
    requires Inv(w, opening, maxAttempts) && UndeliverableAt(w, p)
    ensures UndeliverableAt(Next(w, e, maxAttempts), p)
  {
    assert ProcOk(w.db, p, w.procs[p], maxAttempts);
    if e.Step? && e.p == p {
      DeletionIsFinal(w.db, p, w.procs[p].job, e.je, maxAttempts);
    } else if e.Delete? && e.p == p {
      DeletionIsFinal(w.db, p, w.procs[p].job, JobEvent(Task, Succeed), maxAttempts);
    }
  }

  lemma {:induction false} DeletionStays(w: World, opening: map<User, int>, events: seq<Event>, maxAttempts: nat, p: nat)
    requires maxAttempts > 0 && Inv(w, opening, maxAttempts) && UndeliverableAt(w, p)
    ensures UndeliverableAt(RunFrom(w, events, maxAttempts), p)
    decreases |events|
  {
    if events != [] {
      StepKeepsDeletion(w, opening, events[0], maxAttempts, p);
      NextIsSafe(w, opening, events[0], maxAttempts);
      DeletionStays(Next(w, events[0], maxAttempts), opening, events[1..], maxAttempts, p);
    }
  }

  /** A job that can no longer be delivered does not become so, and under the environment
      assumptions it ends refunded. */
  lemma {:induction false} UndeliverableJobsAreRefunded(opening: map<User, int>, before: seq<Event>, after: seq<Event>, maxAttempts: nat, p: nat)
    requires maxAttempts > 0 && HealthyRun(Start(opening), before + after, maxAttempts)
    requires UndeliverableAt(RunFrom(Start(opening), before, maxAttempts), p)
    ensures var w := RunFrom(Start(opening), before + after, maxAttempts);
            && UndeliverableAt(w, p)
            && (Terminal(w.procs[p].job) ==>
                  Entries(w.db.ledger, OfJob(p)) == [DebitPosting(p, w.procs[p].job), RefundPosting(p, w.procs[p].job)])
  {
    RunsCompose(Start(opening), before, after, maxAttempts);
    EveryRunIsSafe(opening, before, maxAttempts);
    DeletionStays(RunFrom(Start(opening), before, maxAttempts), opening, after, maxAttempts, p);
    if Terminal(RunFrom(Start(opening), before + after, maxAttempts).procs[p].job) {
      HealthyJobsAreDeliveredOrRefunded(opening, before + after, maxAttempts, p);
    }
  }

  /** Deleting the row of a video that is still being made does not lose the money: the
      job is never delivered afterwards, and under the environment assumptions it ends
      refunded, once, for what it was charged. */
  lemma {:induction false} DeletedVideosAreRefunded(opening: map<User, int>, before: seq<Event>, after: seq<Event>, maxAttempts: nat, p: nat)
    requires maxAttempts > 0 && HealthyRun(Start(opening), before + [Delete(p)] + after, maxAttempts)
    requires var w := RunFrom(Start(opening), before, maxAttempts);
             p < |w.procs| && w.procs[p].Making? && w.procs[p].job.avatar && Charged(w.procs[p].job) && !w.procs[p].job.delivered
    ensures var w := RunFrom(Start(opening), before + [Delete(p)] + after, maxAttempts);
            && p < |w.procs| && w.procs[p].Making? && !w.procs[p].job.delivered && w.procs[p].job.video.None?
            && (Terminal(w.procs[p].job) ==>
                  Entries(w.db.ledger, OfJob(p)) == [DebitPosting(p, w.procs[p].job), RefundPosting(p, w.procs[p].job)])
  {
    RunsCompose(Start(opening), before, [Delete(p)], maxAttempts);
    RunOfOne(RunFrom(Start(opening), before, maxAttempts), Delete(p), maxAttempts);
    UndeliverableJobsAreRefunded(opening, before + [Delete(p)], after, maxAttempts, p);
  }

  // --- replies ----------------------------------------------------------

  /** The replies ever recorded are exactly the reply charges ever committed: the two agree on
      user, turn, slot and amount in order, the amount is the price of the reply's own tokens at
      its own model, and no slot of a turn is charged twice. MessageRows tells which of them are
      still in the messages table. */
  lemma {:induction false} RepliesAreChargedOnce(opening: map<User, int>, events: seq<Event>, maxAttempts: nat)
    requires maxAttempts > 0
    ensures var w := RunFrom(Start(opening), events, maxAttempts);
            && Entries(w.db.ledger, AnyReply) == ReplyPostings(w.db.recorded)
            && (forall i :: 0 <= i < |w.db.recorded| ==>
                  w.db.recorded[i].cost == Price(w.db.recorded[i].spec, w.db.recorded[i].prompt, w.db.recorded[i].completion))
            && (forall p, i: nat :: 0 <= p < |w.procs| && w.procs[p].Chatting? ==> |Entries(w.db.ledger, OfSlot(p, i))| <= 1)
  {
    EveryRunIsSafe(opening, events, maxAttempts);
    var w := RunFrom(Start(opening), events, maxAttempts);
    forall p, i: nat | 0 <= p < |w.procs| && w.procs[p].Chatting?
      ensures |Entries(w.db.ledger, OfSlot(p, i))| <= 1
    {
      assert ProcOk(w.db, p, w.procs[p], maxAttempts);
      assert SlotOk(w.db, p, w.procs[p].turn, i);
    }
  }

  // --- conservation -----------------------------------------------------

  /** Credits the user bought, over a list of references. */
  function Bought(rows: map<Ref, Row>, refs: seq<Ref>, user: User): int {
    if refs == [] then 0
    else
      var last := refs[|refs| - 1];
      Bought(rows, refs[..|refs| - 1], user)
      + if Settled(rows, last) && rows[last].user == user then Granted(rows[last].credits) else 0
  }

  /** What a job has taken from the user's wallet and not given back; less than nothing if
      both its parts have refunded. */
  function JobNet(proc: Proc, user: User): int {
    if proc.Making? && proc.job.user == user && Charged(proc.job)
    then (1 - Refunds(proc.job)) * Granted(proc.job.cost) else 0
  }

  function JobsNet(procs: seq<Proc>, user: User): int {
    if procs == [] then 0
    else JobsNet(procs[..|procs| - 1], user) + JobNet(procs[|procs| - 1], user)
  }

  function RepliesCost(replies: seq<Reply>, user: User): int {
    if replies == [] then 0
    else
      var last := replies[|replies| - 1];
      RepliesCost(replies[..|replies| - 1], user) + if last.user == user then Granted(last.cost) else 0
  }

  ghost predicate Distinct<T(!new)>(xs: seq<T>) {
    forall i, j :: 0 <= i < j < |xs| ==> xs[i] != xs[j]
  }

  function SumRefs(ledger: seq<Posting>, refs: seq<Ref>, user: User): int {
    if refs == [] then 0
    else SumRefs(ledger, refs[..|refs| - 1], user) + Sum(Entries(ledger, OfRef(refs[|refs| - 1])), user)
  }

  function SumJobs(ledger: seq<Posting>, jobs: nat, user: User): int {
    if jobs == 0 then 0
    else SumJobs(ledger, jobs - 1, user) + Sum(Entries(ledger, OfJob(jobs - 1)), user)
  }

  /** Every posting is about one of the listed purchases, one of the jobs, or a reply. */
  ghost predicate Covered(ledger: seq<Posting>, refs: seq<Ref>, jobs: nat) {
    forall i :: 0 <= i < |ledger| ==>
      match ledger[i].why
      case Purchase(ref) => ref in refs
      case MediaDebit(job) => job < jobs
      case Refund(job) => job < jobs
      case ReplyCost(_, _) => true
  }

  lemma {:induction false} SumGrows(ledger: seq<Posting>, p: Posting, user: User)
    ensures Sum(ledger + [p], user) == Sum(ledger, user) + if p.user == user then p.delta else 0
  {
    assert (ledger + [p])[..|ledger|] == ledger;
  }

  function Delta(p: Posting, user: User): int {
    if p.user == user then p.delta else 0
  }

  lemma {:induction false} TopicGrows(ledger: seq<Posting>, p: Posting, topic: Topic, user: User)
    ensures Sum(Entries(ledger + [p], topic), user)
         == Sum(Entries(ledger, topic), user) + if About(p, topic) then Delta(p, user) else 0
  {
    EntriesGrow(ledger, p, topic);
    SumGrows(Entries(ledger, topic), p, user);
    assert Entries(ledger, topic) + [] == Entries(ledger, topic);
  }

  lemma {:induction false} RefsGrow(ledger: seq<Posting>, p: Posting, refs: seq<Ref>, user: User)
    requires Distinct(refs)
    ensures SumRefs(ledger + [p], refs, user)
         == SumRefs(ledger, refs, user) + if p.why.Purchase? && p.why.ref in refs then Delta(p, user) else 0
  {
    if refs != [] {
      var n := |refs| - 1;
      RefsGrow(ledger, p, refs[..n], user);
      TopicGrows(ledger, p, OfRef(refs[n]), user);
      assert p.why.Purchase? ==> (p.why.ref in refs <==> p.why.ref in refs[..n] || p.why.ref == refs[n]);
    }
  }

  lemma {:induction false} JobsGrow(ledger: seq<Posting>, p: Posting, jobs: nat, user: User)
    ensures SumJobs(ledger + [p], jobs, user)
         == SumJobs(ledger, jobs, user) + if (p.why.MediaDebit? || p.why.Refund?) && p.why.job < jobs then Delta(p, user) else 0
  {
    if jobs > 0 {
      JobsGrow(ledger, p, jobs - 1, user);
      TopicGrows(ledger, p, OfJob(jobs - 1), user);
    }
  }

  lemma {:induction false} EmptySums(refs: seq<Ref>, jobs: nat, user: User)
    ensures SumRefs([], refs, user) == 0 && SumJobs([], jobs, user) == 0
    decreases |refs| + jobs
  {
    if refs != [] {
      EmptySums(refs[..|refs| - 1], jobs, user);
    } else if jobs > 0 {
      EmptySums(refs, jobs - 1, user);
    }
  }

  lemma {:induction false} SumSplitsByTopic(ledger: seq<Posting>, refs: seq<Ref>, jobs: nat, user: User)
    requires Distinct(refs) && Covered(ledger, refs, jobs)
    ensures Sum(ledger, user)
         == SumRefs(ledger, refs, user) + SumJobs(ledger, jobs, user) + Sum(Entries(ledger, AnyReply), user)
  {
    if ledger == [] {
      EmptySums(refs, jobs, user);
    } else {
      var n := |ledger| - 1;
      var before, p := ledger[..n], ledger[n];
      assert ledger == before + [p];
      assert Covered(before, refs, jobs);
      SumSplitsByTopic(before, refs, jobs, user);
      SumGrows(before, p, user);
      RefsGrow(before, p, refs, user);
      JobsGrow(before, p, jobs, user);
      TopicGrows(before, p, AnyReply, user);
    }
  }

  lemma {:induction false} EntriesAreNotLost(ledger: seq<Posting>, i: nat, topic: Topic)
    requires i < |ledger| && About(ledger[i], topic)
    ensures Entries(ledger, topic) != []
  {
    if i < |ledger| - 1 {
      EntriesAreNotLost(ledger[..|ledger| - 1], i, topic);
    }
  }

  lemma {:induction false} RefsAreBought(db: Db, refs: seq<Ref>, user: User)
    requires PurchasesOnce(db)
    ensures SumRefs(db.ledger, refs, user) == Bought(db.rows, refs, user)
  {
    if refs != [] {
      var n := |refs| - 1;
      RefsAreBought(db, refs[..n], user);
      assert Entries(db.ledger, OfRef(refs[n])) == PurchasesFor(db.rows, refs[n]);
      SumGrows([], PurchasePosting(refs[n], if refs[n] in db.rows then db.rows[refs[n]] else Row(0, 0, false, None)), user);
    }
  }

  lemma {:induction false} MovementsSum(proc: nat, j: Job, refunds: nat, user: User)
    ensures Sum(Movements(proc, j, refunds), user) == -(if j.user == user then (1 - refunds) * Granted(j.cost) else 0)
  {
    if refunds == 0 {
      SumGrows([], DebitPosting(proc, j), user);
      assert [] + [DebitPosting(proc, j)] == [DebitPosting(proc, j)];
    } else {
      MovementsSum(proc, j, refunds - 1, user);
      SumGrows(Movements(proc, j, refunds - 1), RefundPosting(proc, j), user);
      OneMoreRefund(refunds, Granted(j.cost));
    }
  }

  lemma {:induction false} OneMoreRefund(refunds: nat, amount: int)
    requires refunds > 0
    ensures -((1 - (refunds - 1)) * amount) + amount == -((1 - refunds) * amount)
  {
  }

  lemma {:induction false} JobIsNet(p: nat, j: Job, user: User)
    ensures Sum(JobPostings(p, j), user) == -JobNet(Making(j), user)
  {
    MovementsSum(p, j, Refunds(j), user);
  }

  lemma {:induction false} ProcIsNet(db: Db, p: nat, proc: Proc, maxAttempts: nat, user: User)
    requires ProcOk(db, p, proc, maxAttempts)
    ensures Sum(Entries(db.ledger, OfJob(p)), user) == -JobNet(proc, user)
  {
    if proc.Making? {
      assert Entries(db.ledger, OfJob(p)) == JobPostings(p, proc.job);
      JobIsNet(p, proc.job, user);
    }
  }

  lemma {:induction false} NetGrows(procs: seq<Proc>, n: nat, user: User)
    requires 0 < n <= |procs|
    ensures JobsNet(procs[..n], user) == JobsNet(procs[..n - 1], user) + JobNet(procs[n - 1], user)
  {
    assert procs[..n][..n - 1] == procs[..n - 1];
  }

  lemma {:induction false} NetsAdd(ledger: seq<Posting>, procs: seq<Proc>, n: nat, user: User)
    requires n <= |procs|
    requires forall q: nat :: q < n ==> Sum(Entries(ledger, OfJob(q)), user) == -JobNet(procs[q], user)
    ensures SumJobs(ledger, n, user) == -JobsNet(procs[..n], user)
  {
    if n > 0 {
      NetsAdd(ledger, procs, n - 1, user);
      NetGrows(procs, n, user);
    }
  }

  lemma {:induction false} JobsAreNet(w: World, maxAttempts: nat, user: User)
    requires ProcsOk(w, maxAttempts)
    ensures SumJobs(w.db.ledger, |w.procs|, user) == -JobsNet(w.procs, user)
  {
    forall q: nat | q < |w.procs|
      ensures Sum(Entries(w.db.ledger, OfJob(q)), user) == -JobNet(w.procs[q], user)
    {
      ProcIsNet(w.db, q, w.procs[q], maxAttempts, user);
    }
    NetsAdd(w.db.ledger, w.procs, |w.procs|, user);
    assert w.procs[..|w.procs|] == w.procs;
  }

  lemma {:induction false} RepliesAreCharged(replies: seq<Reply>, user: User)
    ensures Sum(ReplyPostings(replies), user) == -RepliesCost(replies, user)
  {
    if replies != [] {
      var n := |replies| - 1;
      RepliesAreCharged(replies[..n], user);
      SumGrows(ReplyPostings(replies[..n]), ReplyPosting(replies[n]), user);
    }
  }

  lemma {:induction false} LedgerIsCovered(w: World, opening: map<User, int>, maxAttempts: nat, refs: seq<Ref>)
    requires Inv(w, opening, maxAttempts)
    requires forall r :: r in w.db.rows ==> r in refs
    ensures Covered(w.db.ledger, refs, |w.procs|)
  {
    forall i | 0 <= i < |w.db.ledger|
      ensures match w.db.ledger[i].why
              case Purchase(ref) => ref in refs
              case MediaDebit(job) => job < |w.procs|
              case Refund(job) => job < |w.procs|
              case ReplyCost(_, _) => true
    {
      match w.db.ledger[i].why
      case Purchase(ref) =>
        EntriesAreNotLost(w.db.ledger, i, OfRef(ref));
        assert Entries(w.db.ledger, OfRef(ref)) == PurchasesFor(w.db.rows, ref);
      case MediaDebit(job) =>
        EntriesAreNotLost(w.db.ledger, i, OfJob(job));
        assert job >= |w.procs| ==> Fresh(w.db, job);
      case Refund(job) =>
        EntriesAreNotLost(w.db.ledger, i, OfJob(job));
        assert job >= |w.procs| ==> Fresh(w.db, job);
      case ReplyCost(_, _) =>
    }
  }

  /** Conservation. In every reachable state a user's balance is the opening balance plus
      the credits of the completed purchase rows, minus the charges of media jobs
      net of their refunds, minus the costs of all replies ever recorded, whatever rewinds
      have removed from the messages table since. `refs` lists the rows of the transactions
      table in any order. */
  lemma {:induction false} CreditsAreConserved(opening: map<User, int>, events: seq<Event>, maxAttempts: nat, refs: seq<Ref>, user: User)
    requires maxAttempts > 0 && Distinct(refs)
    requires forall r :: r in RunFrom(Start(opening), events, maxAttempts).db.rows <==> r in refs
    ensures var w := RunFrom(Start(opening), events, maxAttempts);
            Balance(w.db, user) == BalanceIn(opening, user)
              + Bought(w.db.rows, refs, user) - JobsNet(w.procs, user) - RepliesCost(w.db.recorded, user)
  {
    EveryRunIsSafe(opening, events, maxAttempts);
    var w := RunFrom(Start(opening), events, maxAttempts);
    LedgerIsCovered(w, opening, maxAttempts, refs);
    SumSplitsByTopic(w.db.ledger, refs, |w.procs|, user);
    RefsAreBought(w.db, refs, user);
    JobsAreNet(w, maxAttempts, user);
    RepliesAreCharged(w.db.recorded, user);
  }
}

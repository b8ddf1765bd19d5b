/** Why a part of a paid job comes to its failure, and what follows from it. */
module JobOutcomes {
  import opened Wrappers
  import opened Ledger
  import opened MediaJobs
  import opened ChatBilling
  import opened Economy
  import opened Traces

  predicate FailingAt(w: World, p: nat, part: Part) {
    p < |w.procs| && w.procs[p].Making? && PcOf(w.procs[p].job, part).JobFailing?
  }

  predicate FailsBy(opening: map<User, int>, events: seq<Event>, maxAttempts: nat, p: nat, part: Part, n: nat)
    requires n <= |events|
  {
    FailingAt(RunFrom(Start(opening), events[..n], maxAttempts), p, part)
  }

  /** At some time in the run the part was at its failure: about to be marked as failed and
      refunded. */
  ghost predicate CameToFailure(opening: map<User, int>, events: seq<Event>, maxAttempts: nat, p: nat, part: Part) {
    exists n: nat :: n <= |events| && FailsBy(opening, events, maxAttempts, p, part, n)
  }

  lemma {:induction false} FailedEarlier(opening: map<User, int>, events: seq<Event>, maxAttempts: nat, p: nat, part: Part, n: nat)
    requires n < |events|
    ensures FailsBy(opening, events[..|events| - 1], maxAttempts, p, part, n) == FailsBy(opening, events, maxAttempts, p, part, n)
  {
    assert events[..|events| - 1][..n] == events[..n];
  }

  lemma {:induction false} CameGrows(opening: map<User, int>, events: seq<Event>, maxAttempts: nat, p: nat, part: Part)
    requires events != []
    ensures CameToFailure(opening, events, maxAttempts, p, part)
       <==> CameToFailure(opening, events[..|events| - 1], maxAttempts, p, part)
            || FailingAt(RunFrom(Start(opening), events, maxAttempts), p, part)
  {
    var last := |events| - 1;
    assert events[..|events|] == events;
    if CameToFailure(opening, events, maxAttempts, p, part) {
      var n: nat :| n <= |events| && FailsBy(opening, events, maxAttempts, p, part, n);
      if n <= last {
        FailedEarlier(opening, events, maxAttempts, p, part, n);
        assert FailsBy(opening, events[..last], maxAttempts, p, part, n);
      }
    }
    if CameToFailure(opening, events[..last], maxAttempts, p, part) {
      var n: nat :| n <= last && FailsBy(opening, events[..last], maxAttempts, p, part, n);
      FailedEarlier(opening, events, maxAttempts, p, part, n);
      assert FailsBy(opening, events, maxAttempts, p, part, n);
    }
    assert FailingAt(RunFrom(Start(opening), events, maxAttempts), p, part) ==> FailsBy(opening, events, maxAttempts, p, part, |events|);
  }

  // --- one step ---------------------------------------------------------

  /** The sights that bring a part to its failure. */
  predicate FailureShown(j: Job, e: JobEvent, maxAttempts: nat, part: Part) {
    if part == Task then JobShows(j, e, maxAttempts, TaskFails)
    else JobShows(j, e, maxAttempts, RenderError) || JobShows(j, e, maxAttempts, PollsUsedUp)
  }

  /** Where a part can be once it has come to its failure. */
  predicate PastFailure(pc: JobPc) {
    pc.JobFailing? || pc.JobRefundDue? || pc.JobRefunding? || pc.JobRefunded?
  }

  lemma {:induction false} TaskMoveFails(j: Job, env: Env, maxAttempts: nat)
    requires Shaped(j) && !TouchesWallet(j.task)
    ensures TaskMove(j, env).task.JobFailing? <==> FailureShown(j, JobEvent(Task, env), maxAttempts, Task)
  {
  }

  lemma {:induction false} PollerMoveFails(j: Job, env: Env, maxAttempts: nat)
    requires maxAttempts > 0 && JobHistoryOk(j, maxAttempts) && !TouchesWallet(j.poller)
    ensures PollerMove(j, env, maxAttempts).poller.JobFailing? <==> FailureShown(j, JobEvent(Poller, env), maxAttempts, Poller)
  {
  }

  /** A step of one part leaves the other where it is, or queues its first poll. */
  lemma {:induction false} OtherPartStays(db: Db, p: nat, j: Job, e: JobEvent, maxAttempts: nat)
    requires Shaped(j)
    ensures var j' := JobStep(db, p, j, e, maxAttempts).1;
            if e.part == Poller then j'.task == j.task else j'.poller == j.poller || (j.poller.JobIdle? && j'.poller == JobPolling(1))
  {
  }

  lemma {:induction false} StepFails(db: Db, p: nat, j: Job, e: JobEvent, maxAttempts: nat)
    requires maxAttempts > 0 && JobHistoryOk(j, maxAttempts)
    ensures PcOf(JobStep(db, p, j, e, maxAttempts).1, e.part).JobFailing? <==> FailureShown(j, e, maxAttempts, e.part)
  {
    if TouchesWallet(PcOf(j, e.part)) {
      PayingMovesOn(db, p, j, e.part, e.env);
    } else if e.part == Task {
      TaskMoveFails(j, e.env, maxAttempts);
    } else {
      PollerMoveFails(j, e.env, maxAttempts);
    }
  }

  lemma {:induction false} StepStaysPast(db: Db, p: nat, j: Job, e: JobEvent, maxAttempts: nat)
    requires Shaped(j)
    ensures var pc, pc' := PcOf(j, e.part), PcOf(JobStep(db, p, j, e, maxAttempts).1, e.part);
            && (PastFailure(pc') ==> PastFailure(pc) || pc'.JobFailing?)
            && (PastFailure(pc) ==> PastFailure(pc') || pc'.JobStranded?)
            && (pc.JobStranded? ==> pc'.JobStranded?)
  {
    if TouchesWallet(PcOf(j, e.part)) {
      PayingMovesOn(db, p, j, e.part, e.env);
    }
  }

  // --- runs -------------------------------------------------------------

  predicate PcTells(pc: JobPc, came: bool) {
    (PastFailure(pc) ==> came) && (came ==> PastFailure(pc) || pc.JobStranded?)
  }

  ghost predicate PartTold(w: World, p: nat, part: Part, came: bool, shown: bool) {
    && came == shown
    && (p < |w.procs| && w.procs[p].Making? ==>
          PcTells(PcOf(w.procs[p].job, part), came))
    && (p >= |w.procs| || !w.procs[p].Making? ==> !came)
  }

  predicate EventFails(w: World, e: Event, maxAttempts: nat, p: nat, part: Part) {
    if part == Task then EventShows(w, e, maxAttempts, p, TaskFails)
    else EventShows(w, e, maxAttempts, p, RenderError) || EventShows(w, e, maxAttempts, p, PollsUsedUp)
  }

  lemma {:induction false} OthersDoNotFail(w: World, e: Event, maxAttempts: nat, p: nat, part: Part, came: bool)
    requires PartTold(w, p, part, came, came) && !(e.Step? && e.p == p)
    ensures var w' := Next(w, e, maxAttempts);
            && !EventFails(w, e, maxAttempts, p, part)
            && PartTold(w', p, part, came || FailingAt(w', p, part), came)
  {
  }

  lemma {:induction false} OwnStepFails(w: World, opening: map<User, int>, e: Event, maxAttempts: nat, p: nat, part: Part, came: bool)
    requires maxAttempts > 0 && Inv(w, opening, maxAttempts) && PartTold(w, p, part, came, came)
    requires e.Step? && e.p == p && p < |w.procs| && w.procs[p].Making?
    ensures var w' := Next(w, e, maxAttempts);
            PartTold(w', p, part, came || FailingAt(w', p, part), came || EventFails(w, e, maxAttempts, p, part))
  {
    assert ProcOk(w.db, p, w.procs[p], maxAttempts);
    PartFails(w.db, p, w.procs[p].job, e.je, maxAttempts, part, came);
    EventIsShown(w, e, maxAttempts, p, part);
  }

  lemma {:induction false} EventIsShown(w: World, e: Event, maxAttempts: nat, p: nat, part: Part)
    requires e.Step? && e.p == p && p < |w.procs| && w.procs[p].Making?
    ensures EventFails(w, e, maxAttempts, p, part) <==> e.je.part == part && FailureShown(w.procs[p].job, e.je, maxAttempts, part)
    ensures Next(w, e, maxAttempts).procs == w.procs[p := Making(JobStep(w.db, p, w.procs[p].job, e.je, maxAttempts).1)]
  {
  }

  lemma {:induction false} PartFails(db: Db, p: nat, j: Job, e: JobEvent, maxAttempts: nat, part: Part, came: bool)
    requires maxAttempts > 0 && JobHistoryOk(j, maxAttempts) && PcTells(PcOf(j, part), came)
    ensures var pc := PcOf(JobStep(db, p, j, e, maxAttempts).1, part);
            && PcTells(pc, came || pc.JobFailing?)
            && (came || pc.JobFailing? <==> came || (e.part == part && FailureShown(j, e, maxAttempts, part)))
  {
    if e.part == part {
      StepFails(db, p, j, e, maxAttempts);
      StepStaysPast(db, p, j, e, maxAttempts);
    } else {
      OtherPartStays(db, p, j, e, maxAttempts);
    }
  }

  lemma {:induction false} NextFails(w: World, opening: map<User, int>, e: Event, maxAttempts: nat, p: nat, part: Part, came: bool)
    requires maxAttempts > 0 && Inv(w, opening, maxAttempts) && PartTold(w, p, part, came, came)
    ensures var w' := Next(w, e, maxAttempts);
            PartTold(w', p, part, came || FailingAt(w', p, part), came || EventFails(w, e, maxAttempts, p, part))
  {
    if !(e.Step? && e.p == p) {
      OthersDoNotFail(w, e, maxAttempts, p, part, came);
    } else if p < |w.procs| && w.procs[p].Making? {
      OwnStepFails(w, opening, e, maxAttempts, p, part, came);
    } else {
      NobodyFails(w, e, maxAttempts, p, part);
    }
  }

  lemma {:induction false} NobodyFails(w: World, e: Event, maxAttempts: nat, p: nat, part: Part)
    requires e.Step? && e.p == p && (p >= |w.procs| || !w.procs[p].Making?)
    ensures !EventFails(w, e, maxAttempts, p, part)
    ensures var w' := Next(w, e, maxAttempts); p >= |w'.procs| || !w'.procs[p].Making?
  {
  }

  ghost predicate FailureSeen(opening: map<User, int>, events: seq<Event>, maxAttempts: nat, p: nat, part: Part) {
    if part == Task then Seen(opening, events, maxAttempts, p, TaskFails)
    else Seen(opening, events, maxAttempts, p, RenderError) || Seen(opening, events, maxAttempts, p, PollsUsedUp)
  }

  lemma {:induction false} FailureSeenGrows(opening: map<User, int>, events: seq<Event>, maxAttempts: nat, p: nat, part: Part)
    requires events != []
    ensures var n := |events| - 1;
            FailureSeen(opening, events, maxAttempts, p, part)
            <==> FailureSeen(opening, events[..n], maxAttempts, p, part)
                 || EventFails(RunFrom(Start(opening), events[..n], maxAttempts), events[n], maxAttempts, p, part)
  {
    SeenGrows(opening, events, maxAttempts, p, TaskFails);
    SeenGrows(opening, events, maxAttempts, p, RenderError);
    SeenGrows(opening, events, maxAttempts, p, PollsUsedUp);
  }

  lemma {:induction false} RunFails(opening: map<User, int>, events: seq<Event>, maxAttempts: nat, p: nat, part: Part)
    requires maxAttempts > 0
    ensures PartTold(RunFrom(Start(opening), events, maxAttempts), p, part,
                     CameToFailure(opening, events, maxAttempts, p, part), FailureSeen(opening, events, maxAttempts, p, part))
  {
    if events == [] {
      NothingFailsAtFirst(opening, maxAttempts, p, part);
    } else {
      var n := |events| - 1;
      RunFails(opening, events[..n], maxAttempts, p, part);
      EveryRunIsSafe(opening, events[..n], maxAttempts);
      LastStep(Start(opening), events, maxAttempts);
      CameGrows(opening, events, maxAttempts, p, part);
      FailureSeenGrows(opening, events, maxAttempts, p, part);
      NextFails(RunFrom(Start(opening), events[..n], maxAttempts), opening, events[n], maxAttempts, p, part,
                CameToFailure(opening, events[..n], maxAttempts, p, part));
    }
  }

  lemma {:induction false} NothingFailsAtFirst(opening: map<User, int>, maxAttempts: nat, p: nat, part: Part)
    ensures !CameToFailure(opening, [], maxAttempts, p, part) && !FailureSeen(opening, [], maxAttempts, p, part)
  {
    forall n: nat | n <= 0
      ensures !FailsBy(opening, [], maxAttempts, p, part, n)
    {
      var none: seq<Event> := [];
      assert none[..n] == none;
    }
  }

  /** Over every run a poller comes to its failure exactly when a poll met a DIDError or the
      last of the polls that the limit allows was not conclusive, and a task exactly when an
      exception was raised in it or the row of its avatar was gone. */
  lemma {:induction false} PartsFailExactly(opening: map<User, int>, events: seq<Event>, maxAttempts: nat, p: nat)
    requires maxAttempts > 0
    ensures CameToFailure(opening, events, maxAttempts, p, Poller)
       <==> Seen(opening, events, maxAttempts, p, RenderError) || Seen(opening, events, maxAttempts, p, PollsUsedUp)
    ensures CameToFailure(opening, events, maxAttempts, p, Task) <==> Seen(opening, events, maxAttempts, p, TaskFails)
  {
    RunFails(opening, events, maxAttempts, p, Poller);
    RunFails(opening, events, maxAttempts, p, Task);
  }

  /** And a part refunds only what has come to its failure; one that has, and has ended, has
      refunded or was lost on the way, not both. The asset is delivered exactly when a step
      stored it. */
  lemma {:induction false} FailuresAreRefunded(opening: map<User, int>, events: seq<Event>, maxAttempts: nat, p: nat, part: Part)
    requires maxAttempts > 0
    requires var w := RunFrom(Start(opening), events, maxAttempts); p < |w.procs| && w.procs[p].Making?
    ensures var j := RunFrom(Start(opening), events, maxAttempts).procs[p].job;
            var came := CameToFailure(opening, events, maxAttempts, p, part);
            var refunded := Seen(opening, events, maxAttempts, p, RefundCommitted(part));
            && (refunded ==> came)
            && (came && Ended(PcOf(j, part)) ==> refunded != Seen(opening, events, maxAttempts, p, Lost(part)))
            && (j.delivered <==> Seen(opening, events, maxAttempts, p, Stores))
  {
    RunFails(opening, events, maxAttempts, p, part);
    JobTells(opening, events, maxAttempts, p);
  }

  /** What the owner reads in the row of a video, over every run: completed only when a step
      has stored it, and then always, while the row is there, unless a fault came behind a
      store or a handover. */
  lemma {:induction false} VideoRowsAreTrue(opening: map<User, int>, events: seq<Event>, maxAttempts: nat, p: nat)
    requires maxAttempts > 0
    requires var w := RunFrom(Start(opening), events, maxAttempts); p < |w.procs| && w.procs[p].Making?
    ensures var j := RunFrom(Start(opening), events, maxAttempts).procs[p].job;
            && (j.video == Some(Completed) ==> Seen(opening, events, maxAttempts, p, Stores))
            && (j.avatar && j.video.Some? && !Seen(opening, events, maxAttempts, p, LateFault) && !Seen(opening, events, maxAttempts, p, HandoverFault)
                ==> (j.video == Some(Completed) <==> Seen(opening, events, maxAttempts, p, Stores)))
  {
    EveryRunIsSafe(opening, events, maxAttempts);
    JobTells(opening, events, maxAttempts, p);
    var w := RunFrom(Start(opening), events, maxAttempts);
    assert ProcOk(w.db, p, w.procs[p], maxAttempts);
    RowByState(w.procs[p].job, maxAttempts);
  }

  lemma {:induction false} RowByState(j: Job, maxAttempts: nat)
    requires JobHistoryOk(j, maxAttempts)
    ensures j.video == Some(Completed) ==> j.delivered
    ensures j.avatar && j.video.Some? && !j.lateFault && !HandoverFailed(j) ==> (j.video == Some(Completed) <==> j.delivered)
  {
  }

  /** And marked failed only for a part that failed or was lost. */
  lemma {:induction false} FailedRowsAreTrue(opening: map<User, int>, events: seq<Event>, maxAttempts: nat, p: nat)
    requires maxAttempts > 0
    requires var w := RunFrom(Start(opening), events, maxAttempts); p < |w.procs| && w.procs[p].Making?
    requires RunFrom(Start(opening), events, maxAttempts).procs[p].job.video == Some(VideoStatus.Failed)
    ensures exists part :: CameToFailure(opening, events, maxAttempts, p, part) || Seen(opening, events, maxAttempts, p, Lost(part))
  {
    EveryRunIsSafe(opening, events, maxAttempts);
    JobTells(opening, events, maxAttempts, p);
    RunFails(opening, events, maxAttempts, p, Task);
    RunFails(opening, events, maxAttempts, p, Poller);
    var w := RunFrom(Start(opening), events, maxAttempts);
    assert ProcOk(w.db, p, w.procs[p], maxAttempts);
  }
}

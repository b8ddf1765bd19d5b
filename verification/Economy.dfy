/** The credit economy as one state machine: any number of checkouts, webhook
    deliveries, payment verifications, media jobs and chat turns, interleaved one SQL
    statement or commit at a time, with crashes and provider faults. */
module Economy {
  import opened Wrappers
  import opened Pricing
  import opened Affordability
  import opened Ledger
  import opened Payments
  import opened MediaJobs
  import opened ChatBilling

  datatype Proc =
    | Buying(checkout: Checkout)
    | Delivering(delivery: Delivery)
    | Verifying(verify: Verify)
    | Making(job: Job)
    | Chatting(turn: Turn)

  datatype World = World(db: Db, procs: seq<Proc>)

  /** Step runs process p once; `je` says what happens in a media job and `ev`
      what happens in a chat turn. Crash ends a request that has not committed, Delete
      removes a job's video row, EraseRows removes reply rows from the messages table. */
  datatype Event = Spawn(proc: Proc) | Step(p: nat, je: JobEvent, ev: TurnEvent) | Crash(p: nat) | Delete(p: nat) | EraseRows(ids: set<nat>)

  predicate Initial(proc: Proc) {
    match proc
    case Buying(c) => c.pc == CheckoutStart
    case Delivering(d) => d.pc == DeliveryStart
    case Verifying(v) => v.pc == VerifyStart
    case Making(j) => j.task == JobStart && j.poller == JobIdle && j.video.None? && !j.delivered && !j.lateFault && j.polls == 0
    case Chatting(t) => t.pc == TurnStart
  }

  function StepProc(db: Db, p: nat, proc: Proc, je: JobEvent, ev: TurnEvent, maxAttempts: nat): (Db, Proc) {
    var s := Sid(p, 0);
    match proc
    case Buying(c) => var (db', c') := CheckoutStep(db, s, c); (db', Buying(c'))
    case Delivering(d) => var (db', d') := DeliveryStep(db, s, d); (db', Delivering(d'))
    case Verifying(v) => var (db', v') := VerifyStep(db, s, v); (db', Verifying(v'))
    case Making(j) => var (db', j') := JobStep(db, p, j, je, maxAttempts); (db', Making(j'))
    case Chatting(t) => var (db', t') := TurnStep(db, p, t, ev); (db', Chatting(t'))
  }

  /** A request that has not come to its end. */
  predicate Interrupted(proc: Proc) {
    match proc
    case Buying(c) => c.pc != CheckoutDone
    case Delivering(d) => d.pc != DeliveryDone && d.pc != DeliveryGaveUp
    case Verifying(v) => !v.pc.VerifyEnded?
    case _ => false
  }

  function Dropped(proc: Proc): Proc {
    match proc
    case Buying(c) => Buying(c.(pc := CheckoutFailed))
    case Delivering(d) => Delivering(d.(pc := DeliveryDropped))
    case Verifying(v) => Verifying(v.(pc := VerifyEnded(VerifyStatus.Failed)))
    case _ => proc
  }

  function CrashProc(db: Db, p: nat, proc: Proc): (Db, Proc) {
    if Interrupted(proc) then (Rollback(db, Sid(p, 0)), Dropped(proc)) else (db, proc)
  }

  function Next(w: World, e: Event, maxAttempts: nat): World {
    match e
    case Spawn(proc) => if Initial(proc) then w.(procs := w.procs + [proc]) else w
    case Step(p, je, ev) =>
      if p >= |w.procs| then w
      else var (db', proc') := StepProc(w.db, p, w.procs[p], je, ev, maxAttempts); World(db', w.procs[p := proc'])
    case Crash(p) =>
      if p >= |w.procs| then w
      else var (db', proc') := CrashProc(w.db, p, w.procs[p]); World(db', w.procs[p := proc'])
    case Delete(p) =>
      if p >= |w.procs| || !w.procs[p].Making? then w
      else w.(procs := w.procs[p := Making(DeleteVideo(w.procs[p].job))])
    case EraseRows(ids) => w.(db := Erase(w.db, ids))
  }

  function RunFrom(w: World, events: seq<Event>, maxAttempts: nat): World
    decreases |events|
  {
    if events == [] then w else RunFrom(Next(w, events[0], maxAttempts), events[1..], maxAttempts)
  }

  function Start(opening: map<User, int>): World {
    World(Db(opening, map[], [], map[], map[], []), [])
  }

  // --- the invariant ----------------------------------------------------

  ghost predicate ProcOk(db: Db, p: nat, proc: Proc, maxAttempts: nat) {
    match proc
    case Buying(c) => CheckoutOk(db, Sid(p, 0), c) && NoJob(db, p)
    case Delivering(d) => DeliveryOk(db, Sid(p, 0), d) && NoJob(db, p)
    case Verifying(v) => VerifyOk(db, Sid(p, 0), v) && NoJob(db, p)
    case Making(j) => JobOk(db, p, j, maxAttempts)
    case Chatting(t) => TurnOk(db, p, t) && NoJob(db, p)
  }

  /** Only a media job posts as a job. */
  ghost predicate NoJob(db: Db, p: nat) {
    Entries(db.ledger, OfJob(p)) == []
  }

  ghost predicate ProcsOk(w: World, maxAttempts: nat) {
    forall p: nat :: p < |w.procs| ==> ProcOk(w.db, p, w.procs[p], maxAttempts)
  }

  /** Nothing has happened yet in the name of processes that do not exist. */
  ghost predicate Fresh(db: Db, p: nat) {
    && (forall i: nat :: Sid(p, i) !in db.open && Entries(db.ledger, OfSlot(p, i)) == [])
    && Entries(db.ledger, OfJob(p)) == []
  }

  ghost predicate Inv(w: World, opening: map<User, int>, maxAttempts: nat) {
    && SafeDb(w.db, opening)
    && ProcsOk(w, maxAttempts)
    && forall p: nat :: p >= |w.procs| ==> Fresh(w.db, p)
  }

  lemma {:induction false} FrameKeepsProc(db: Db, db': Db, q: nat, p: nat, proc: Proc, maxAttempts: nat)
    requires Frame(db, db', q) && p != q && ProcOk(db, p, proc, maxAttempts)
    ensures ProcOk(db', p, proc, maxAttempts)
  {
    match proc
    case Chatting(t) =>
      forall i: nat
        ensures SlotOk(db', p, t, i)
      {
        assert SlotOk(db, p, t, i);
      }
    case Verifying(v) =>
      if v.pc == VerifyEnded(Conflict) {
        var r :| r in db.rows && r != Order(v.order) && db.rows[r].completed && db.rows[r].payment == Some(v.payment);
        assert r in db'.rows && db'.rows[r] == db.rows[r];
      }
    case _ =>
  }

  lemma {:induction false} StepProcIsSafe(db: Db, opening: map<User, int>, p: nat, proc: Proc, je: JobEvent, ev: TurnEvent, maxAttempts: nat)
    requires maxAttempts > 0 && SafeDb(db, opening) && ProcOk(db, p, proc, maxAttempts)
    ensures var (db', proc') := StepProc(db, p, proc, je, ev, maxAttempts);
            SafeDb(db', opening) && Frame(db, db', p) && ProcOk(db', p, proc', maxAttempts)
  {
    match proc
    case Buying(c) => CheckoutStepIsSafe(db, opening, Sid(p, 0), c);
    case Delivering(d) => DeliveryStepIsSafe(db, opening, Sid(p, 0), d);
    case Verifying(v) => VerifyStepIsSafe(db, opening, Sid(p, 0), v);
    case Making(j) => JobStepIsSafe(db, opening, p, j, je, maxAttempts);
    case Chatting(t) => TurnStepIsSafe(db, opening, p, t, ev);
  }

  lemma {:induction false} CrashIsSafe(db: Db, opening: map<User, int>, p: nat, proc: Proc, maxAttempts: nat)
    requires SafeDb(db, opening) && ProcOk(db, p, proc, maxAttempts)
    ensures var (db', proc') := CrashProc(db, p, proc);
            SafeDb(db', opening) && Frame(db, db', p) && ProcOk(db', p, proc', maxAttempts)
  {
    RollbackKeepsSafety(db, opening, Sid(p, 0));
  }

  lemma {:induction false} UpdateIsSafe(w: World, opening: map<User, int>, p: nat, db': Db, proc': Proc, maxAttempts: nat)
    requires Inv(w, opening, maxAttempts) && p < |w.procs|
    requires SafeDb(db', opening) && Frame(w.db, db', p) && ProcOk(db', p, proc', maxAttempts)
    ensures Inv(World(db', w.procs[p := proc']), opening, maxAttempts)
  {
    var procs' := w.procs[p := proc'];
    forall q: nat | q < |procs'|
      ensures ProcOk(db', q, procs'[q], maxAttempts)
    {
      if q != p {
        FrameKeepsProc(w.db, db', p, q, w.procs[q], maxAttempts);
      }
    }
    forall q: nat | q >= |w.procs|
      ensures Fresh(db', q)
    {
      assert Fresh(w.db, q);
    }
  }

  lemma {:induction false} SpawnIsSafe(w: World, opening: map<User, int>, proc: Proc, maxAttempts: nat)
    requires Inv(w, opening, maxAttempts)
    ensures Inv(Next(w, Spawn(proc), maxAttempts), opening, maxAttempts)
  {
    if Initial(proc) {
      assert Fresh(w.db, |w.procs|);
      assert ProcOk(w.db, |w.procs|, proc, maxAttempts);
    }
  }

  lemma {:induction false} CrashEventIsSafe(w: World, opening: map<User, int>, p: nat, maxAttempts: nat)
    requires Inv(w, opening, maxAttempts)
    ensures Inv(Next(w, Crash(p), maxAttempts), opening, maxAttempts)
  {
    if p < |w.procs| {
      var (db', proc') := CrashProc(w.db, p, w.procs[p]);
      CrashIsSafe(w.db, opening, p, w.procs[p], maxAttempts);
      UpdateIsSafe(w, opening, p, db', proc', maxAttempts);
    }
  }

  lemma {:induction false} DeleteIsSafe(w: World, opening: map<User, int>, p: nat, maxAttempts: nat)
    requires Inv(w, opening, maxAttempts)
    ensures Inv(Next(w, Delete(p), maxAttempts), opening, maxAttempts)
  {
    if p < |w.procs| && w.procs[p].Making? {
      assert ProcOk(w.db, p, w.procs[p], maxAttempts);
      DeleteKeepsJob(w.db, p, w.procs[p].job, maxAttempts);
      UpdateIsSafe(w, opening, p, w.db, Making(DeleteVideo(w.procs[p].job)), maxAttempts);
    }
  }

  lemma {:induction false} DeleteKeepsJob(db: Db, p: nat, j: Job, maxAttempts: nat)
    requires JobOk(db, p, j, maxAttempts)
    ensures JobOk(db, p, DeleteVideo(j), maxAttempts)
  {
    SameMovements(p, j, DeleteVideo(j), Refunds(j));
  }

  lemma {:induction false} EraseFrame(db: Db, ids: set<nat>, proc: nat)
    ensures Frame(db, Erase(db, ids), proc)
  {
  }

  lemma {:induction false} EraseKeepsProc(db: Db, ids: set<nat>, p: nat, proc: Proc, maxAttempts: nat)
    requires ProcOk(db, p, proc, maxAttempts)
    ensures ProcOk(Erase(db, ids), p, proc, maxAttempts)
  {
    EraseFrame(db, ids, p + 1);
    FrameKeepsProc(db, Erase(db, ids), p + 1, p, proc, maxAttempts);
  }

  lemma {:induction false} EraseIsSafe(w: World, opening: map<User, int>, ids: set<nat>, maxAttempts: nat)
    requires Inv(w, opening, maxAttempts)
    ensures Inv(Next(w, EraseRows(ids), maxAttempts), opening, maxAttempts)
  {
    var db' := Erase(w.db, ids);
    EraseKeepsSafety(w.db, opening, ids);
    forall p: nat | p < |w.procs|
      ensures ProcOk(db', p, w.procs[p], maxAttempts)
    {
      EraseKeepsProc(w.db, ids, p, w.procs[p], maxAttempts);
    }
    forall p: nat | p >= |w.procs|
      ensures Fresh(db', p)
    {
      assert Fresh(w.db, p);
    }
  }

  lemma {:induction false} StepIsSafe(w: World, opening: map<User, int>, p: nat, je: JobEvent, ev: TurnEvent, maxAttempts: nat)
    requires maxAttempts > 0 && Inv(w, opening, maxAttempts)
    ensures Inv(Next(w, Step(p, je, ev), maxAttempts), opening, maxAttempts)
  {
    if p < |w.procs| {
      var (db', proc') := StepProc(w.db, p, w.procs[p], je, ev, maxAttempts);
      StepProcIsSafe(w.db, opening, p, w.procs[p], je, ev, maxAttempts);
      UpdateIsSafe(w, opening, p, db', proc', maxAttempts);
    }
  }

  lemma {:induction false} NextIsSafe(w: World, opening: map<User, int>, e: Event, maxAttempts: nat)
    requires maxAttempts > 0 && Inv(w, opening, maxAttempts)
    ensures Inv(Next(w, e, maxAttempts), opening, maxAttempts)
  {
    match e
    case Spawn(proc) => SpawnIsSafe(w, opening, proc, maxAttempts);
    case Step(p, je, ev) => StepIsSafe(w, opening, p, je, ev, maxAttempts);
    case Crash(p) => CrashEventIsSafe(w, opening, p, maxAttempts);
    case Delete(p) => DeleteIsSafe(w, opening, p, maxAttempts);
    case EraseRows(ids) => EraseIsSafe(w, opening, ids, maxAttempts);
  }

  lemma {:induction false} RunKeepsInv(w: World, opening: map<User, int>, events: seq<Event>, maxAttempts: nat)
    requires maxAttempts > 0 && Inv(w, opening, maxAttempts)
    ensures Inv(RunFrom(w, events, maxAttempts), opening, maxAttempts)
    decreases |events|
  {
    if events != [] {
      NextIsSafe(w, opening, events[0], maxAttempts);
      RunKeepsInv(Next(w, events[0], maxAttempts), opening, events[1..], maxAttempts);
    }
  }

  /** Every interleaving of everything keeps the invariant. */
  lemma {:induction false} EveryRunIsSafe(opening: map<User, int>, events: seq<Event>, maxAttempts: nat)
    requires maxAttempts > 0
    ensures Inv(RunFrom(Start(opening), events, maxAttempts), opening, maxAttempts)
  {
    RunKeepsInv(Start(opening), opening, events, maxAttempts);
  }
}

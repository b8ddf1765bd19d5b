/** The overdraft bound cannot be improved: for every number of sockets there is a run
    within all the assumptions that ends exactly on it. */
module OverdraftReached {
  import opened Wrappers
  import opened Pricing
  import opened Affordability
  import opened Ledger
  import opened MediaJobs
  import opened ChatBilling
  import opened Economy
  import opened Overdraft

  const MODEL := ModelSpec("gpt-5.4-nano", 20, 125, 128_000)
  const OWNER: User := 7

  /** The price of an empty prompt and the shortest planned reply. */
  const PLAN := 26112

  const ASKED := [SlotRequest(MODEL, 0)]
  const BUDGET := Budget(MODEL, 512, 64, PLAN)
  const READER := Chatting(Turn(OWNER, TurnChecked(PLAN)))
  const PAINTER := Making(Job(OWNER, PLAN, false, None, false, false, 0, JobStart, JobIdle))
  const DONE := JobEvent(Task, Succeed)

  function Spoken(pc: SlotPc): Proc {
    Chatting(Turn(OWNER, TurnRunning([Slot(BUDGET, pc)])))
  }

  lemma {:induction false} PlanOfTheLastCredits()
    ensures PlanTurn(ASKED, PLAN, "low") == Planned([BUDGET])
    ensures SlotBound(BUDGET) == PLAN && Price(MODEL, 64, 512) == PLAN
    ensures Opened([BUDGET]) == [Slot(BUDGET, Streaming)] && OpenBounds([Slot(BUDGET, Streaming)]) == PLAN
  {
    assert PlanFirst(ASKED, PLAN, "low", 0) == Planned([]);
    assert PlanBudget(MODEL, 0, PLAN, "low", 1) == Ok(BUDGET);
    assert Opened([BUDGET]) == [Slot(BUDGET, Streaming)];
    assert [Slot(BUDGET, Streaming)][..0] == [];
  }

  // --- runs within the assumptions --------------------------------------

  ghost predicate Reaches(w: World, w': World, g: Regime) {
    exists events :: AssumedAlong(w, events, OWNER, g, 1) && RunFrom(w, events, 1) == w'
  }

  lemma {:induction false} ReachesItself(w: World, g: Regime)
    ensures Reaches(w, w, g)
  {
    assert AssumedAlong(w, [], OWNER, g, 1) && RunFrom(w, [], 1) == w;
  }

  lemma {:induction false} OneMore(w: World, w1: World, e: Event, g: Regime)
    requires Reaches(w, w1, g) && Assumed(w1, e, OWNER, g, 1)
    ensures Reaches(w, Next(w1, e, 1), g)
  {
    var events :| AssumedAlong(w, events, OWNER, g, 1) && RunFrom(w, events, 1) == w1;
    RunThenStep(w, events, e, g);
  }

  lemma {:induction false} RunOfOne(w: World, e: Event, g: Regime)
    requires Assumed(w, e, OWNER, g, 1)
    ensures AssumedAlong(w, [e], OWNER, g, 1) && RunFrom(w, [e], 1) == Next(w, e, 1)
  {
    var w' := Next(w, e, 1);
    assert [e][1..] == [];
    assert RunFrom(w', [], 1) == w' && AssumedAlong(w', [], OWNER, g, 1);
  }

  lemma {:induction false} RunThenStep(w: World, events: seq<Event>, e: Event, g: Regime)
    requires AssumedAlong(w, events, OWNER, g, 1) && Assumed(RunFrom(w, events, 1), e, OWNER, g, 1)
    ensures AssumedAlong(w, events + [e], OWNER, g, 1)
    ensures RunFrom(w, events + [e], 1) == Next(RunFrom(w, events, 1), e, 1)
    decreases |events|
  {
    if events == [] {
      RunOfOne(w, e, g);
      assert events + [e] == [e];
    } else {
      RunThenStep(Next(w, events[0], 1), events[1..], e, g);
      assert (events + [e])[1..] == events[1..] + [e] && (events + [e])[0] == events[0];
    }
  }

  lemma {:induction false} FewTurns(procs: seq<Proc>, k: nat)
    requires |procs| <= k || (|procs| == k + 1 && procs[k].Making?)
    ensures TurnsInFlight(procs, OWNER) <= k
    decreases |procs|
  {
    if procs != [] {
      var n := |procs| - 1;
      if n == k {
        FewTurns(procs[..n], k);
      } else {
        FewTurns(procs[..n], n);
      }
    }
  }

  // --- k turns read the same balance ------------------------------------

  function Readers(i: nat): World {
    World(Db(map[OWNER := PLAN], map[], [], map[], map[], []), seq(i, _ => READER))
  }

  lemma {:induction false} AllRead(i: nat, k: nat)
    requires i <= k
    ensures Reaches(Start(map[OWNER := PLAN]), Readers(i), Many(k, PLAN))
  {
    var g := Many(k, PLAN);
    if i == 0 {
      ReachesItself(Start(map[OWNER := PLAN]), g);
      assert Readers(0) == Start(map[OWNER := PLAN]);
    } else {
      AllRead(i - 1, k);
      NewcomerReads(i - 1, k);
      OneMore(Start(map[OWNER := PLAN]), Readers(i - 1), Spawn(NEWCOMER), g);
      OneMore(Start(map[OWNER := PLAN]), Next(Readers(i - 1), Spawn(NEWCOMER), 1), Step(i - 1, DONE, Look), g);
    }
  }

  const NEWCOMER := Chatting(Turn(OWNER, TurnStart))

  lemma {:induction false} NewcomerReads(i: nat, k: nat)
    requires i < k
    ensures Assumed(Readers(i), Spawn(NEWCOMER), OWNER, Many(k, PLAN), 1)
    ensures Assumed(Next(Readers(i), Spawn(NEWCOMER), 1), Step(i, DONE, Look), OWNER, Many(k, PLAN), 1)
    ensures Next(Next(Readers(i), Spawn(NEWCOMER), 1), Step(i, DONE, Look), 1) == Readers(i + 1)
  {
    var w := Readers(i).(procs := Readers(i).procs + [NEWCOMER]);
    assert Next(Readers(i), Spawn(NEWCOMER), 1) == w;
    FewTurns(w.procs, k);
    FewTurns(Readers(i + 1).procs, k);
    assert Next(w, Step(i, DONE, Look), 1).procs == Readers(i + 1).procs;
  }

  // --- a media job takes the balance away -------------------------------

  function Painted(k: nat, pc: JobPc, wallet: int, open: map<Sid, Tx>, ledger: seq<Posting>): World {
    World(Db(map[OWNER := wallet], map[], [], map[], open, ledger), seq(k, _ => READER) + [Making(PAINTER.job.(task := pc))])
  }

  lemma {:induction false} PaintingDebits(k: nat)
    ensures Next(Painted(k, JobStart, PLAN, map[], []), Step(k, DONE, Look), 1)
         == Painted(k, JobDebited, PLAN, map[Sid(k, 0) := Tx(Some(Posting(OWNER, 0 - PLAN, MediaDebit(k))), None, None)], [])
  {
    var w, w' := Painted(k, JobStart, PLAN, map[], []), Next(Painted(k, JobStart, PLAN, map[], []), Step(k, DONE, Look), 1);
    assert w.procs[k] == PAINTER;
    assert w'.procs == seq(k, _ => READER) + [Making(PAINTER.job.(task := JobDebited))];
  }

  lemma {:induction false} PaintingCommits(k: nat)
    ensures Next(Painted(k, JobDebited, PLAN, map[Sid(k, 0) := Tx(Some(Posting(OWNER, 0 - PLAN, MediaDebit(k))), None, None)], []), Step(k, DONE, Look), 1)
         == Painted(k, JobReserved, 0, map[], [Posting(OWNER, 0 - PLAN, MediaDebit(k))])
  {
    var posting := Posting(OWNER, 0 - PLAN, MediaDebit(k));
    var w := Painted(k, JobDebited, PLAN, map[Sid(k, 0) := Tx(Some(posting), None, None)], []);
    var w' := Next(w, Step(k, DONE, Look), 1);
    assert w'.procs == seq(k, _ => READER) + [Making(PAINTER.job.(task := JobReserved))];
    assert w'.db == Commit(w.db, Sid(k, 0));
    assert w'.db.open == map[] && w'.db.ledger == [posting];
  }

  lemma {:induction false} BalanceIsSpent(k: nat)
    ensures Reaches(Start(map[OWNER := PLAN]), Painted(k, JobReserved, 0, map[], [Posting(OWNER, 0 - PLAN, MediaDebit(k))]), Many(k, PLAN))
  {
    var g, s, start := Many(k, PLAN), Sid(k, 0), Start(map[OWNER := PLAN]);
    var w0 := Painted(k, JobStart, PLAN, map[], []);
    assert Next(Readers(k), Spawn(PAINTER), 1) == w0;
    FewTurns(w0.procs, k);
    AllRead(k, k);
    OneMore(start, Readers(k), Spawn(PAINTER), g);
    PaintingDebits(k);
    PainterSteps(start, w0, k, g);
    PaintingCommits(k);
    PainterSteps(start, Next(w0, Step(k, DONE, Look), 1), k, g);
  }

  lemma {:induction false} PainterSteps(start: World, w: World, k: nat, g: Regime)
    requires g == Many(k, PLAN) && Reaches(start, w, g) && |w.procs| == k + 1 && w.procs[k].Making?
    ensures Reaches(start, Next(w, Step(k, DONE, Look), 1), g)
  {
    FewTurns(Next(w, Step(k, DONE, Look), 1).procs, k);
    OneMore(start, w, Step(k, DONE, Look), g);
  }

  // --- every turn spends its plan ---------------------------------------

  /** The first i turns have charged their reply. */
  ghost predicate Spending(w: World, i: nat, k: nat) {
    && w.db.open == map[] && OWNER in w.db.wallets && w.db.wallets[OWNER] == 0 - i * PLAN
    && i <= k && |w.procs| == k + 1 && w.procs[k].Making?
    && forall j :: 0 <= j < k ==> w.procs[j] == if j < i then Spoken(Closed) else READER
  }

  function LastReply(i: nat): Reply {
    Reply(i, 0, OWNER, MODEL, 64, 512, PLAN)
  }

  lemma {:induction false} TurnPlans(w: World, i: nat, k: nat)
    requires Spending(w, i, k) && i < k
    ensures Next(w, Step(i, DONE, Plan(ASKED, "low")), 1) == w.(procs := w.procs[i := Spoken(Streaming)])
    ensures Assumed(w, Step(i, DONE, Plan(ASKED, "low")), OWNER, Many(k, PLAN), 1)
  {
    assert w.procs[i] == READER;
    ReaderPlans(w.db, i, k);
    FewTurns(w.procs[i := Spoken(Streaming)], k);
  }

  lemma {:induction false} ReaderPlans(db: Db, i: nat, k: nat)
    ensures TurnStep(db, i, READER.turn, Plan(ASKED, "low")) == (db, Spoken(Streaming).turn)
    ensures AsPlanned(READER.turn, Plan(ASKED, "low")) && PlanFits(READER.turn, Plan(ASKED, "low"), Many(k, PLAN))
  {
    PlanOfTheLastCredits();
  }

  lemma {:induction false} TurnCharges(w: World, i: nat, k: nat)
    requires i < k && |w.procs| == k + 1 && w.procs[k].Making? && w.procs[i] == Spoken(Streaming)
    requires w.db.open == map[] && OWNER in w.db.wallets
    ensures var e := Step(i, DONE, Charge(0, TokenUse(64, 512), None));
            && Next(w, e, 1) == World(Put(w.db, Sid(i, 0), Tx(Some(ReplyPosting(LastReply(i))), None, Some(LastReply(i)))), w.procs[i := Spoken(Charging)])
            && Assumed(w, e, OWNER, Many(k, PLAN), 1)
  {
    ChargeOfTheLastCredits(w.db, i);
    FewTurns(w.procs[i := Spoken(Charging)], k);
  }

  lemma {:induction false} ChargeOfTheLastCredits(db: Db, i: nat)
    requires db.open == map[] && OWNER in db.wallets
    ensures TurnStep(db, i, Spoken(Streaming).turn, Charge(0, TokenUse(64, 512), None))
         == (Put(db, Sid(i, 0), Tx(Some(ReplyPosting(LastReply(i))), None, Some(LastReply(i)))), Spoken(Charging).turn)
    ensures AsPlanned(Spoken(Streaming).turn, Charge(0, TokenUse(64, 512), None))
  {
    PlanOfTheLastCredits();
    assert [Slot(BUDGET, Streaming)][0 := Slot(BUDGET, Charging)] == [Slot(BUDGET, Charging)];
    assert ReplyOf(i, Spoken(Streaming).turn, 0, TokenUse(64, 512), None) == LastReply(i);
    ReplyEffect(db, Sid(i, 0), LastReply(i));
  }

  lemma {:induction false} TurnCommits(w: World, i: nat, k: nat)
    requires i < k && |w.procs| == k + 1 && w.procs[k].Making? && w.procs[i] == Spoken(Charging)
    requires w.db.open == map[Sid(i, 0) := Tx(Some(ReplyPosting(LastReply(i))), None, Some(LastReply(i)))] && OWNER in w.db.wallets
    ensures var e := Step(i, DONE, CommitSlot(0));
            var w' := Next(w, e, 1);
            && w'.procs == w.procs[i := Spoken(Closed)] && w'.db.open == map[]
            && w'.db.wallets == w.db.wallets[OWNER := w.db.wallets[OWNER] - PLAN]
            && Assumed(w, e, OWNER, Many(k, PLAN), 1)
  {
    assert [Slot(BUDGET, Charging)][0 := Slot(BUDGET, Closed)] == [Slot(BUDGET, Closed)];
    FewTurns(w.procs[i := Spoken(Closed)], k);
    assert Next(w, Step(i, DONE, CommitSlot(0)), 1).db == Commit(w.db, Sid(i, 0));
  }

  /** Turn i has charged its reply and not committed yet. */
  ghost predicate HasCharged(w: World, w1: World, i: nat) {
    && w1.db.wallets == w.db.wallets
    && w1.db.open == map[Sid(i, 0) := Tx(Some(ReplyPosting(LastReply(i))), None, Some(LastReply(i)))]
    && i < |w.procs| && w1.procs == w.procs[i := Spoken(Charging)]
  }

  ghost predicate HasSpent(w: World, w1: World, i: nat) {
    && w1.db.open == map[] && OWNER in w.db.wallets
    && w1.db.wallets == w.db.wallets[OWNER := w.db.wallets[OWNER] - PLAN]
    && i < |w.procs| && w1.procs == w.procs[i := Spoken(Closed)]
  }

  lemma {:induction false} TurnReachesItsCharge(w: World, w0: World, i: nat, k: nat) returns (w2: World)
    requires Spending(w, i, k) && i < k && Reaches(w0, w, Many(k, PLAN))
    ensures HasCharged(w, w2, i) && Reaches(w0, w2, Many(k, PLAN))
  {
    var g, w1 := Many(k, PLAN), w.(procs := w.procs[i := Spoken(Streaming)]);
    TurnPlans(w, i, k);
    OneMore(w0, w, Step(i, DONE, Plan(ASKED, "low")), g);
    TurnCharges(w1, i, k);
    OneMore(w0, w1, Step(i, DONE, Charge(0, TokenUse(64, 512), None)), g);
    w2 := Next(w1, Step(i, DONE, Charge(0, TokenUse(64, 512), None)), 1);
    assert w1.procs[i := Spoken(Charging)] == w.procs[i := Spoken(Charging)];
  }

  lemma {:induction false} TurnReachesItsEnd(w: World, w2: World, w0: World, i: nat, k: nat) returns (w3: World)
    requires Spending(w, i, k) && i < k && HasCharged(w, w2, i) && Reaches(w0, w2, Many(k, PLAN))
    ensures HasSpent(w, w3, i) && Reaches(w0, w3, Many(k, PLAN))
  {
    TurnCommits(w2, i, k);
    OneMore(w0, w2, Step(i, DONE, CommitSlot(0)), Many(k, PLAN));
    w3 := Next(w2, Step(i, DONE, CommitSlot(0)), 1);
    assert w2.procs[i := Spoken(Closed)] == w.procs[i := Spoken(Closed)];
  }

  lemma {:induction false} TurnSpends(w: World, w0: World, i: nat, k: nat) returns (w3: World)
    requires Spending(w, i, k) && i < k && Reaches(w0, w, Many(k, PLAN))
    ensures Spending(w3, i + 1, k) && Reaches(w0, w3, Many(k, PLAN))
  {
    var w2 := TurnReachesItsCharge(w, w0, i, k);
    w3 := TurnReachesItsEnd(w, w2, w0, i, k);
    OneMoreSpent(w, w3, i, k);
  }

  lemma {:induction false} OneMoreSpent(w: World, w': World, i: nat, k: nat)
    requires Spending(w, i, k) && i < k && HasSpent(w, w', i)
    ensures Spending(w', i + 1, k)
  {
  }

  lemma {:induction false} AllSpend(w: World, w0: World, i: nat, k: nat) returns (end: World)
    requires Spending(w, i, k) && Reaches(w0, w, Many(k, PLAN))
    ensures Spending(end, k, k) && Reaches(w0, end, Many(k, PLAN))
    decreases k - i
  {
    if i == k {
      end := w;
    } else {
      var w' := TurnSpends(w, w0, i, k);
      end := AllSpend(w', w0, i + 1, k);
    }
  }

  /** The overdraft is not bounded by one unit of work: k sockets that read the same
      balance, and a media job that then takes it, leave k planned turns to pay for. */
  lemma {:induction false} OverdraftBoundIsReached(k: nat)
    ensures exists events ::
      && AssumedAlong(Start(map[OWNER := PLAN]), events, OWNER, Many(k, PLAN), 1)
      && Balance(RunFrom(Start(map[OWNER := PLAN]), events, 1).db, OWNER) == 0 - k * PLAN
  {
    var start := Start(map[OWNER := PLAN]);
    BalanceIsSpent(k);
    var end := AllSpend(Painted(k, JobReserved, 0, map[], [Posting(OWNER, 0 - PLAN, MediaDebit(k))]), start, 0, k);
    var events :| AssumedAlong(start, events, OWNER, Many(k, PLAN), 1) && RunFrom(start, events, 1) == end;
  }
}

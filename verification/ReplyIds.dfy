/** One socket and the economy joined at _record_reply: what the message id of a
    message_done says about the reply row. */
module ReplyIds {
  import opened Wrappers
  import opened Affordability
  import opened Ledger
  import opened MediaJobs
  import opened ChatBilling
  import opened Economy
  import MessageRows
  import Overdraft
  import Reached = OverdraftReached
  import Chat = ChatSession

  /** The money side of the server and one of its sockets. */
  datatype Joint = Joint(world: World, session: Chat.Session)

  /** The process that bills each turn of the socket. */
  type Turns = map<nat, nat>

  /** Keep is one step of _record_reply for slot i of turn t of the socket: it moves both
      sides. Money is anything else in the economy, Talk anything else on the socket. */
  datatype JointEvent = Money(e: Event) | Talk(said: Chat.Event) | Keep(t: nat, i: nat, ev: TurnEvent)

  predicate Injective(m: Turns) {
    forall t, u :: t in m && u in m && t != u ==> m[t] != m[u]
  }

  /** The slot has left its streaming loop with a reply to store. */
  predicate Ready(s: Chat.Session, t: nat, i: nat) {
    Chat.HasSlot(s, t, i) && Chat.SlotAt(s, t, i).pc.Finishing? && !Chat.Blank(Chat.SlotAt(s, t, i).reply)
  }

  /** How a step of the bookkeeping ends it, if it does: the debit is refused or fails before
      the flush; the transaction commits; or it fails, before the flush or after. */
  function Outcome(db: Db, p: nat, turn: Turn, ev: TurnEvent): Option<Chat.Storing> {
    match ev
    case Charge(i, use, served) =>
      if SlotIs(turn, i, Streaming) && ReplyStmt(db, Sid(p, i), ReplyOf(p, turn, i, use, served)).Refused?
      then Some(Chat.Unflushed) else None
    case Quiet(i) => if SlotIs(turn, i, Streaming) then Some(Chat.Unflushed) else None
    case CommitSlot(i) => if SlotIs(turn, i, Charging) then Some(Chat.Stored) else None
    case Drop(i, flushed) =>
      if !SlotIs(turn, i, Charging) then None else if flushed then Some(Chat.CommitLost) else Some(Chat.Unflushed)
    case _ => None
  }

  /** The bookkeeping of this slot can take this step. */
  predicate CanKeep(j: Joint, m: Turns, e: JointEvent) {
    && e.Keep? && e.t in m && m[e.t] < |j.world.procs| && j.world.procs[m[e.t]].Chatting?
    && (e.ev.Charge? || e.ev.CommitSlot? || e.ev.Drop? || e.ev.Quiet?) && e.ev.slot == e.i
    && Ready(j.session, e.t, e.i)
  }

  /** What becomes of the reply of slot i of turn t in this step, if it is decided here. */
  function Keeps(j: Joint, m: Turns, e: JointEvent, t: nat, i: nat): Option<Chat.Storing> {
    if CanKeep(j, m, e) && e.t == t && e.i == i then Outcome(j.world.db, m[t], j.world.procs[m[t]].turn, e.ev) else None
  }

  /** The economy leaves the bookkeeping of this socket's replies to Keep. */
  predicate Elsewhere(m: Turns, e: Event) {
    e.Step? && e.p in m.Values ==> !e.ev.Charge? && !e.ev.CommitSlot? && !e.ev.Drop?
  }

  const NO_JOB := JobEvent(Task, Succeed)

  function JointNext(j: Joint, m: Turns, e: JointEvent, maxAttempts: nat): Joint {
    match e
    case Money(e) => if Elsewhere(m, e) then j.(world := Next(j.world, e, maxAttempts)) else j
    case Talk(said) => if said.Record? && said.turn in m then j else j.(session := Chat.Next(j.session, said))
    case Keep(t, i, ev) =>
      if !CanKeep(j, m, e) then j
      else
        var kept := Keeps(j, m, e, t, i);
        Joint(Next(j.world, Step(m[t], NO_JOB, ev), maxAttempts),
              if kept.Some? then Chat.Next(j.session, Chat.Record(t, i, kept.value)) else j.session)
  }

  function JointRun(opening: map<User, int>, m: Turns, events: seq<JointEvent>, maxAttempts: nat): Joint {
    if events == [] then Joint(Start(opening), Chat.CONNECTED)
    else JointNext(JointRun(opening, m, events[..|events| - 1], maxAttempts), m, events[|events| - 1], maxAttempts)
  }

  lemma {:induction false} JointRunIsSafe(opening: map<User, int>, m: Turns, events: seq<JointEvent>, maxAttempts: nat)
    requires maxAttempts > 0
    ensures var j := JointRun(opening, m, events, maxAttempts); Inv(j.world, opening, maxAttempts) && Chat.Valid(j.session)
  {
    if events == [] {
      EveryRunIsSafe(opening, [], maxAttempts);
      Chat.ConnectedIsValid();
    } else {
      var n := |events| - 1;
      JointRunIsSafe(opening, m, events[..n], maxAttempts);
      JointNextIsSafe(JointRun(opening, m, events[..n], maxAttempts), opening, m, events[n], maxAttempts);
    }
  }

  lemma {:induction false} JointNextIsSafe(j: Joint, opening: map<User, int>, m: Turns, e: JointEvent, maxAttempts: nat)
    requires maxAttempts > 0 && Inv(j.world, opening, maxAttempts) && Chat.Valid(j.session)
    ensures var j' := JointNext(j, m, e, maxAttempts); Inv(j'.world, opening, maxAttempts) && Chat.Valid(j'.session)
  {
    match e
    case Money(e) => NextIsSafe(j.world, opening, e, maxAttempts);
    case Talk(said) => Chat.NextIsValid(j.session, said);
    case Keep(t, i, ev) =>
      if CanKeep(j, m, e) {
        NextIsSafe(j.world, opening, Step(m[t], NO_JOB, ev), maxAttempts);
        var kept := Keeps(j, m, e, t, i);
        if kept.Some? {
          Chat.NextIsValid(j.session, Chat.Record(t, i, kept.value));
        }
      }
  }

  // --- the money side ---------------------------------------------------

  predicate IsRow(r: Reply, p: nat, i: nat) {
    r.turn == p && r.slot == i
  }

  /** The reply of slot i of process p has been stored. */
  ghost predicate HasRow(db: Db, p: nat, i: nat) {
    exists k :: 0 <= k < |db.recorded| && IsRow(db.recorded[k], p, i)
  }

  predicate Commits(w: World, e: Event, p: nat, i: nat) {
    && e.Step? && e.p == p && p < |w.procs| && w.procs[p].Chatting?
    && e.ev == CommitSlot(i) && SlotIs(w.procs[p].turn, i, Charging)
  }

  lemma {:induction false} PurchasesStoreNoReply(db: Db, opening: map<User, int>, p: nat, proc: Proc, je: JobEvent, ev: TurnEvent, maxAttempts: nat)
    requires SafeDb(db, opening) && ProcOk(db, p, proc, maxAttempts)
    requires proc.Buying? || proc.Delivering? || proc.Verifying?
    ensures StepProc(db, p, proc, je, ev, maxAttempts).0.recorded == db.recorded
  {
    var s := Sid(p, 0);
    assert s in db.open ==> TxOk(db, s, db.open[s]);
    match proc
    case Buying(c) => Overdraft.CheckoutMoves(db, s, c);
    case Delivering(d) => Overdraft.DeliveryMoves(db, s, d);
    case Verifying(v) => Overdraft.VerifyMoves(db, s, v);
    case _ =>
  }

  lemma {:induction false} JobsStoreNoReply(db: Db, p: nat, j: Job, je: JobEvent, maxAttempts: nat)
    requires JobPaid(db, p, j)
    ensures JobStep(db, p, j, je, maxAttempts).0.recorded == db.recorded
  {
    Overdraft.JobMoves(db, p, j, je, maxAttempts);
    assert SessionIs(db, p, j, je.part);
  }

  lemma {:induction false} TurnsStore(db: Db, opening: map<User, int>, p: nat, t: Turn, ev: TurnEvent)
    requires SafeDb(db, opening) && TurnOk(db, p, t)
    ensures var db' := TurnStep(db, p, t, ev).0;
            if ev.CommitSlot? && SlotIs(t, ev.slot, Charging)
            then |db'.recorded| == |db.recorded| + 1 && db'.recorded[..|db.recorded|] == db.recorded
                 && IsRow(db'.recorded[|db.recorded|], p, ev.slot)
            else db'.recorded == db.recorded
  {
    if ev.CommitSlot? && SlotIs(t, ev.slot, Charging) {
      CommitStoresTheReply(db, opening, p, t, ev.slot);
    } else {
      MessageRows.TurnMoves(db, p, t, ev);
    }
  }

  lemma {:induction false} RowAppend(db: Db, db': Db, p: nat, i: nat)
    requires |db'.recorded| == |db.recorded| + 1 && db'.recorded[..|db.recorded|] == db.recorded
    ensures HasRow(db', p, i) <==> HasRow(db, p, i) || IsRow(db'.recorded[|db.recorded|], p, i)
  {
    if HasRow(db, p, i) {
      var k :| 0 <= k < |db.recorded| && IsRow(db.recorded[k], p, i);
      assert db'.recorded[k] == db'.recorded[..|db.recorded|][k];
    }
    if HasRow(db', p, i) {
      var k :| 0 <= k < |db'.recorded| && IsRow(db'.recorded[k], p, i);
      assert k < |db.recorded| ==> db'.recorded[k] == db'.recorded[..|db.recorded|][k];
    }
  }

  /** A reply row comes from the commit of its own slot and from nothing else. */
  lemma {:induction false} RowsComeFromCommits(w: World, opening: map<User, int>, e: Event, maxAttempts: nat, p: nat, i: nat)
    requires Inv(w, opening, maxAttempts)
    ensures HasRow(Next(w, e, maxAttempts).db, p, i) <==> HasRow(w.db, p, i) || Commits(w, e, p, i)
  {
    if e.Step? && e.p < |w.procs| {
      var proc, db' := w.procs[e.p], Next(w, e, maxAttempts).db;
      assert ProcOk(w.db, e.p, proc, maxAttempts);
      match proc
      case Chatting(t) =>
        TurnsStore(w.db, opening, e.p, t, e.ev);
        if e.ev.CommitSlot? && SlotIs(t, e.ev.slot, Charging) {
          RowAppend(w.db, db', p, i);
        }
      case Making(j) => JobsStoreNoReply(w.db, e.p, j, e.je, maxAttempts);
      case _ => PurchasesStoreNoReply(w.db, opening, e.p, proc, e.je, e.ev, maxAttempts);
    }
  }

  // --- the socket -------------------------------------------------------

  predicate Is(r: Chat.HandedReply, t: nat, i: nat, storing: Chat.Storing) {
    r.turn == t && r.slot == i && r.storing == storing
  }

  ghost predicate HandedAs(s: Chat.Session, t: nat, i: nat, storing: Chat.Storing) {
    exists k :: 0 <= k < |s.handed| && Is(s.handed[k], t, i, storing)
  }

  lemma {:induction false} RecordHands(s: Chat.Session, e: Chat.Event)
    ensures e.Record? && Ready(s, e.turn, e.slot) ==> Chat.Next(s, e).handed != s.handed
  {
    if e.Record? && Ready(s, e.turn, e.slot) {
      assert |Chat.Next(s, e).handed| == |s.handed| + 1;
    }
  }

  /** A reply is handed over by the return of its _record_reply and by nothing else. */
  lemma {:induction false} HandedByRecord(s: Chat.Session, e: Chat.Event, t: nat, i: nat, storing: Chat.Storing)
    ensures HandedAs(Chat.Next(s, e), t, i, storing)
       <==> HandedAs(s, t, i, storing) || (e == Chat.Record(t, i, storing) && Ready(s, t, i))
  {
    var s' := Chat.Next(s, e);
    RecordHands(s, e);
    if s'.handed != s.handed {
      Chat.HandsOver(s, e);
      assert Ready(s, e.turn, e.slot);
      if HandedAs(s, t, i, storing) {
        var k :| 0 <= k < |s.handed| && Is(s.handed[k], t, i, storing);
        assert s'.handed[k] == s.handed[k];
      }
      assert Is(s'.handed[|s.handed|], t, i, storing) <==> e == Chat.Record(t, i, storing);
    }
  }

  // --- both -------------------------------------------------------------

  predicate KeptAt(opening: map<User, int>, m: Turns, events: seq<JointEvent>, maxAttempts: nat, t: nat, i: nat, storing: Chat.Storing, n: nat)
    requires n < |events|
  {
    Keeps(JointRun(opening, m, events[..n], maxAttempts), m, events[n], t, i) == Some(storing)
  }

  /** Somewhere in the run the bookkeeping of this slot ended like that. */
  ghost predicate Kept(opening: map<User, int>, m: Turns, events: seq<JointEvent>, maxAttempts: nat, t: nat, i: nat, storing: Chat.Storing) {
    exists n: nat :: n < |events| && KeptAt(opening, m, events, maxAttempts, t, i, storing, n)
  }

  lemma {:induction false} KeptGrows(opening: map<User, int>, m: Turns, events: seq<JointEvent>, maxAttempts: nat, t: nat, i: nat, storing: Chat.Storing)
    requires events != []
    ensures var n := |events| - 1;
            Kept(opening, m, events, maxAttempts, t, i, storing)
            <==> Kept(opening, m, events[..n], maxAttempts, t, i, storing) || KeptAt(opening, m, events, maxAttempts, t, i, storing, n)
  {
    var last := |events| - 1;
    if Kept(opening, m, events, maxAttempts, t, i, storing) {
      var n: nat :| n < |events| && KeptAt(opening, m, events, maxAttempts, t, i, storing, n);
      if n < last {
        KeptEarlier(opening, m, events, maxAttempts, t, i, storing, n);
        assert KeptAt(opening, m, events[..last], maxAttempts, t, i, storing, n);
      }
    }
    if Kept(opening, m, events[..last], maxAttempts, t, i, storing) {
      var n: nat :| n < last && KeptAt(opening, m, events[..last], maxAttempts, t, i, storing, n);
      KeptEarlier(opening, m, events, maxAttempts, t, i, storing, n);
      assert KeptAt(opening, m, events, maxAttempts, t, i, storing, n);
    }
  }

  lemma {:induction false} KeptEarlier(opening: map<User, int>, m: Turns, events: seq<JointEvent>, maxAttempts: nat, t: nat, i: nat, storing: Chat.Storing, n: nat)
    requires n < |events| - 1
    ensures KeptAt(opening, m, events[..|events| - 1], maxAttempts, t, i, storing, n) == KeptAt(opening, m, events, maxAttempts, t, i, storing, n)
  {
    assert events[..|events| - 1][..n] == events[..n];
  }

  lemma {:induction false} StepHands(j: Joint, m: Turns, e: JointEvent, maxAttempts: nat, t: nat, i: nat, storing: Chat.Storing)
    requires t in m
    ensures HandedAs(JointNext(j, m, e, maxAttempts).session, t, i, storing)
       <==> HandedAs(j.session, t, i, storing) || Keeps(j, m, e, t, i) == Some(storing)
  {
    match e
    case Money(_) =>
    case Talk(said) => HandedByRecord(j.session, said, t, i, storing);
    case Keep(u, k, ev) =>
      var kept := Keeps(j, m, e, u, k);
      if CanKeep(j, m, e) && kept.Some? {
        HandedByRecord(j.session, Chat.Record(u, k, kept.value), t, i, storing);
      }
  }

  lemma {:induction false} StepStores(j: Joint, opening: map<User, int>, m: Turns, e: JointEvent, maxAttempts: nat, t: nat, i: nat)
    requires Inv(j.world, opening, maxAttempts) && Injective(m) && t in m
    ensures HasRow(JointNext(j, m, e, maxAttempts).world.db, m[t], i)
       <==> HasRow(j.world.db, m[t], i) || Keeps(j, m, e, t, i) == Some(Chat.Stored)
  {
    match e
    case Money(e) => RowsComeFromCommits(j.world, opening, e, maxAttempts, m[t], i);
    case Talk(_) =>
    case Keep(u, k, ev) =>
      if CanKeep(j, m, e) {
        RowsComeFromCommits(j.world, opening, Step(m[u], NO_JOB, ev), maxAttempts, m[t], i);
      }
  }

  /** In step: the socket handed a reply over as stored when the row was committed. */
  lemma {:induction false} BothSidesAgree(opening: map<User, int>, m: Turns, events: seq<JointEvent>, maxAttempts: nat, t: nat, i: nat, storing: Chat.Storing)
    requires maxAttempts > 0 && Injective(m) && t in m
    ensures var j := JointRun(opening, m, events, maxAttempts);
            && (HandedAs(j.session, t, i, storing) <==> Kept(opening, m, events, maxAttempts, t, i, storing))
            && (HasRow(j.world.db, m[t], i) <==> Kept(opening, m, events, maxAttempts, t, i, Chat.Stored))
  {
    if events != [] {
      var n := |events| - 1;
      var j := JointRun(opening, m, events[..n], maxAttempts);
      BothSidesAgree(opening, m, events[..n], maxAttempts, t, i, storing);
      JointRunIsSafe(opening, m, events[..n], maxAttempts);
      KeptGrows(opening, m, events, maxAttempts, t, i, storing);
      KeptGrows(opening, m, events, maxAttempts, t, i, Chat.Stored);
      StepHands(j, m, events[n], maxAttempts, t, i, storing);
      StepStores(j, opening, m, events[n], maxAttempts, t, i);
    }
  }

  lemma {:induction false} HandedOnce(s: Chat.Session, t: nat, i: nat, a: Chat.Storing, b: Chat.Storing)
    requires Chat.RepliesOk(s) && HandedAs(s, t, i, a) && HandedAs(s, t, i, b)
    ensures a == b
  {
    var j :| 0 <= j < |s.handed| && Is(s.handed[j], t, i, a);
    var k :| 0 <= k < |s.handed| && Is(s.handed[k], t, i, b);
    SameReply(s, j, k);
  }

  lemma {:induction false} SameReply(s: Chat.Session, j: nat, k: nat)
    requires Chat.RepliesOk(s) && j < |s.handed| && k < |s.handed|
    requires s.handed[j].turn == s.handed[k].turn && s.handed[j].slot == s.handed[k].slot
    ensures j == k
  {
  }

  lemma {:induction false} DoneMeansHanded(s: Chat.Session, t: nat, i: nat, finish: Chat.Reason, named: bool)
    requires Chat.Valid(s) && t > 0 && Chat.IsDone(s.log, t, i, finish, named)
    ensures if named then HandedAs(s, t, i, Chat.Stored) || HandedAs(s, t, i, Chat.CommitLost) else HandedAs(s, t, i, Chat.Unflushed)
  {
    assert Chat.DoneOk(s, t, i, finish, named);
    var k :| 0 <= k < |s.handed| && Chat.Hands(s.handed[k], t, i, finish, named);
    assert Is(s.handed[k], t, i, s.handed[k].storing);
  }

  /** Over every joint run: a message_done with a message id names a stored reply if and only
      if no commit of that slot was lost after the flush that made the id; one without an id
      comes with no row. */
  lemma {:induction false} IdsNameRowsExactly(opening: map<User, int>, m: Turns, events: seq<JointEvent>, maxAttempts: nat, t: nat, i: nat, finish: Chat.Reason)
    requires maxAttempts > 0 && Injective(m) && t in m && t > 0
    ensures var j := JointRun(opening, m, events, maxAttempts);
            && (Chat.IsDone(j.session.log, t, i, finish, true) ==>
                  (HasRow(j.world.db, m[t], i) <==> !Kept(opening, m, events, maxAttempts, t, i, Chat.CommitLost)))
            && (Chat.IsDone(j.session.log, t, i, finish, false) ==> !HasRow(j.world.db, m[t], i))
  {
    var s := JointRun(opening, m, events, maxAttempts).session;
    JointRunIsSafe(opening, m, events, maxAttempts);
    BothSidesAgree(opening, m, events, maxAttempts, t, i, Chat.Stored);
    BothSidesAgree(opening, m, events, maxAttempts, t, i, Chat.CommitLost);
    forall named: bool | Chat.IsDone(s.log, t, i, finish, named)
      ensures if named then HandedAs(s, t, i, Chat.Stored) || HandedAs(s, t, i, Chat.CommitLost) else HandedAs(s, t, i, Chat.Unflushed)
    {
      DoneMeansHanded(s, t, i, finish, named);
    }
    if HandedAs(s, t, i, Chat.Stored) {
      if HandedAs(s, t, i, Chat.CommitLost) {
        HandedOnce(s, t, i, Chat.Stored, Chat.CommitLost);
      }
      if HandedAs(s, t, i, Chat.Unflushed) {
        HandedOnce(s, t, i, Chat.Stored, Chat.Unflushed);
      }
    }
  }

  // --- the run with an id and no row ------------------------------------

  const OPENING: map<User, int> := map[Reached.OWNER := Reached.PLAN]
  const ONE_TURN: Turns := map[1 := 0]

  ghost predicate Reaches(j: Joint) {
    exists events :: JointRun(OPENING, ONE_TURN, events, 1) == j
  }

  lemma {:induction false} Then(j: Joint, e: JointEvent)
    requires Reaches(j)
    ensures Reaches(JointNext(j, ONE_TURN, e, 1))
  {
    var events :| JointRun(OPENING, ONE_TURN, events, 1) == j;
    assert (events + [e])[..|events|] == events;
    assert JointRun(OPENING, ONE_TURN, events + [e], 1) == JointNext(j, ONE_TURN, e, 1);
  }

  /** The turn's process, between its budget and its charge. */
  function Billed(pc: SlotPc, open: map<Sid, Tx>): World {
    World(Db(OPENING, map[], [], map[], open, []), [Reached.Spoken(pc)])
  }

  const REPLY := Reached.LastReply(0)
  const CHARGE := Charge(0, TokenUse(64, 512), None)
  const OPEN_TX := map[Sid(0, 0) := Tx(Some(ReplyPosting(REPLY)), None, Some(REPLY))]

  lemma {:induction false} TurnReads()
    ensures Reaches(Joint(Reached.Readers(1), Chat.CONNECTED))
  {
    var j := Joint(Start(OPENING), Chat.CONNECTED);
    assert JointRun(OPENING, ONE_TURN, [], 1) == j && Reached.Readers(0) == Start(OPENING);
    Reached.NewcomerReads(0, 1);
    Then(j, Money(Spawn(Reached.NEWCOMER)));
    Then(Joint(Next(Reached.Readers(0), Spawn(Reached.NEWCOMER), 1), Chat.CONNECTED), Money(Step(0, Reached.DONE, Look)));
  }

  lemma {:induction false} TurnIsBilled()
    ensures Reaches(Joint(Billed(Streaming, map[]), Chat.CONNECTED))
  {
    TurnReads();
    var w, plan := Reached.Readers(1), Step(0, Reached.DONE, Plan(Reached.ASKED, "low"));
    Then(Joint(w, Chat.CONNECTED), Money(plan));
    PlanIsBilled(w, plan);
  }

  lemma {:induction false} PlanIsBilled(w: World, plan: Event)
    requires w == Reached.Readers(1) && plan == Step(0, Reached.DONE, Plan(Reached.ASKED, "low"))
    ensures Next(w, plan, 1) == Billed(Streaming, map[])
  {
    Reached.ReaderPlans(w.db, 0, 1);
    assert w.procs == [Reached.READER] && [Reached.READER][0 := Reached.Spoken(Streaming)] == [Reached.Spoken(Streaming)];
  }

  /** The socket's first turn, its one slot back from streaming one chunk. */
  function Streamed(slot: Chat.Slot): Chat.Session {
    Chat.OneSlot(slot, "hi", [Chat.Entry(1, Chat.Content(0, "hi"), true)])
  }

  const READY := Chat.Slot(Chat.Finishing, 1, "hi", Chat.Complete)

  lemma {:induction false} Says(w: World, slot: Chat.Slot, log: seq<Chat.Entry>, e: Chat.Event, slot': Chat.Slot, log': seq<Chat.Entry>)
    requires Reaches(Joint(w, Chat.OneSlot(slot, "hi", log)))
    requires Chat.OfSlot(e) && !e.Record? && !e.Close? && e.turn == 1 && e.slot == 0
    requires var effect := Chat.StreamEffect(slot, ["hi"], 1, 0, 1, {}, e);
             !effect.fires && slot' == effect.slot && log' == log + if effect.said.Some? then [effect.said.value] else []
    ensures Reaches(Joint(w, Chat.OneSlot(slot', "hi", log')))
  {
    Then(Joint(w, Chat.OneSlot(slot, "hi", log)), Talk(e));
    Chat.OneSlotMoves(slot, "hi", log, e);
  }

  lemma {:induction false} TurnOpens(w: World)
    requires Reaches(Joint(w, Chat.CONNECTED))
    ensures Reaches(Joint(w, Chat.OneSlot(Chat.FRESH_SLOT, "hi", [])))
  {
    var start, begin := Chat.UserMessage(true), Chat.Begin(1, [["hi"]], true);
    Chat.OpensOneSlot("hi");
    assert [start, begin][..1] == [start] && [start][..0] == [];
    assert Chat.Run([]) == Chat.CONNECTED && Chat.Run([start]) == Chat.Next(Chat.CONNECTED, start);
    Then(Joint(w, Chat.CONNECTED), Talk(start));
    Then(Joint(w, Chat.Next(Chat.CONNECTED, start)), Talk(begin));
  }

  lemma {:induction false} StreamOpens(w: World, slot: Chat.Slot)
    requires Reaches(Joint(w, Chat.CONNECTED)) && slot == Chat.Slot(Chat.Streaming(1), 0, "", Chat.Complete)
    ensures Reaches(Joint(w, Chat.OneSlot(slot, "hi", [])))
  {
    TurnOpens(w);
    Says(w, Chat.FRESH_SLOT, [], Chat.OpenStream(1, 0), slot, []);
  }

  lemma {:induction false} SlotAppends(w: World)
    requires Reaches(Joint(w, Chat.CONNECTED))
    ensures Reaches(Joint(w, Chat.OneSlot(Chat.Slot(Chat.Sending(1, "hi"), 1, "hi", Chat.Complete), "hi", [])))
  {
    var streaming := Chat.Slot(Chat.Streaming(1), 0, "", Chat.Complete);
    StreamOpens(w, streaming);
    assert "" + "hi" == "hi";
    Says(w, streaming, [], Chat.Append(1, 0), Chat.Slot(Chat.Sending(1, "hi"), 1, "hi", Chat.Complete), []);
  }

  lemma {:induction false} SlotStreams(w: World)
    requires Reaches(Joint(w, Chat.CONNECTED))
    ensures Reaches(Joint(w, Streamed(READY)))
  {
    var content := Chat.Entry(1, Chat.Content(0, "hi"), true);
    var streaming := Chat.Slot(Chat.Streaming(1), 1, "hi", Chat.Complete);
    SlotAppends(w);
    assert [] + [content] == [content];
    Says(w, Chat.Slot(Chat.Sending(1, "hi"), 1, "hi", Chat.Complete), [], Chat.Sent(1, 0, true), streaming, [content]);
    Says(w, streaming, [content], Chat.StreamEnd(1, 0), READY, [content]);
  }

  lemma {:induction false} SlotIsReady()
    ensures Ready(Streamed(READY), 1, 0)
  {
    assert !Chat.IsSpace('h') && 'h' in "hi";
  }

  lemma {:induction false} ChargeIsBilled()
    ensures Next(Billed(Streaming, map[]), Step(0, NO_JOB, CHARGE), 1) == Billed(Charging, OPEN_TX)
  {
    Reached.ChargeOfTheLastCredits(Billed(Streaming, map[]).db, 0);
    assert [Reached.Spoken(Streaming)][0 := Reached.Spoken(Charging)] == [Reached.Spoken(Charging)];
    assert map[][Sid(0, 0) := OPEN_TX[Sid(0, 0)]] == OPEN_TX;
  }

  lemma {:induction false} ChargeDecidesNothing()
    ensures Outcome(Billed(Streaming, map[]).db, 0, Reached.Spoken(Streaming).turn, CHARGE).None?
  {
    Reached.ChargeOfTheLastCredits(Billed(Streaming, map[]).db, 0);
  }

  /** Debit and insert are flushed. */
  lemma {:induction false} SlotCharges()
    ensures Reaches(Joint(Billed(Charging, OPEN_TX), Streamed(READY)))
  {
    var j := Joint(Billed(Streaming, map[]), Streamed(READY));
    TurnIsBilled();
    SlotStreams(j.world);
    SlotIsReady();
    ChargeDecidesNothing();
    ChargeIsBilled();
    Then(j, Keep(1, 0, CHARGE));
  }

  function Recorded(): Chat.Session {
    Streamed(READY.(pc := Chat.Recorded(true))).(handed := [Chat.HandedReply(1, 0, "hi", Chat.Complete, Chat.CommitLost)])
  }

  lemma {:induction false} CommitLostOnTheSocket()
    ensures Chat.Next(Streamed(READY), Chat.Record(1, 0, Chat.CommitLost)) == Recorded()
  {
    SlotIsReady();
    assert [READY][0 := READY.(pc := Chat.Recorded(true))] == [READY.(pc := Chat.Recorded(true))];
  }

  lemma {:induction false} CommitLostInTheDatabase()
    ensures Next(Billed(Charging, OPEN_TX), Step(0, NO_JOB, Drop(0, true)), 1) == Billed(Closed, map[])
  {
    assert [Reached.Spoken(Charging)][0 := Reached.Spoken(Closed)] == [Reached.Spoken(Closed)];
    assert Reached.Spoken(Charging).turn.pc.slots[0 := Reached.Spoken(Closed).turn.pc.slots[0]] == Reached.Spoken(Closed).turn.pc.slots;
    assert OPEN_TX - {Sid(0, 0)} == map[];
  }

  const BILLED := Joint(Billed(Charging, OPEN_TX), Streamed(READY))
  const DROP := Keep(1, 0, Drop(0, true))

  lemma {:induction false} DropEndsIt()
    ensures JointNext(BILLED, ONE_TURN, DROP, 1) == Joint(Billed(Closed, map[]), Recorded())
  {
    SlotIsReady();
    CommitLostOnTheSocket();
    CommitLostInTheDatabase();
    assert Keeps(BILLED, ONE_TURN, DROP, 1, 0) == Some(Chat.CommitLost);
  }

  /** The commit is lost. */
  lemma {:induction false} SlotDrops()
    ensures Reaches(Joint(Billed(Closed, map[]), Recorded()))
  {
    SlotCharges();
    Then(BILLED, DROP);
    DropEndsIt();
  }

  /** A reply that the client got whole, with a message_done that gives it an id, and that is
      neither stored nor charged: the commit behind it was lost. */
  lemma {:induction false} AnIdCanNameNothing()
    ensures exists j ::
      && Reaches(j) && Chat.IsDone(j.session.log, 1, 0, Chat.Complete, true)
      && j.world.db.recorded == [] && j.world.db.wallets == OPENING && j.world.db.ledger == []
  {
    SlotDrops();
    var j, close := Joint(Billed(Closed, map[]), Recorded()), Chat.Close(1, 0, true);
    Then(j, Talk(close));
    var s' := Chat.Next(Recorded(), close);
    assert Chat.SlotAt(Recorded(), 1, 0).pc == Chat.Recorded(true);
    assert s'.log == Recorded().log + [Chat.Entry(1, Chat.MessageDone(0, Chat.Complete, true), true)];
    assert Chat.Dones(s'.log[|Recorded().log|], 1, 0, Chat.Complete, true);
    assert Reaches(Joint(j.world, s'));
  }
}

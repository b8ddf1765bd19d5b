/** One chat socket (ChatSession, _stream_until and the receive loop of
    app/api/v1/endpoints/chat.py): the turn in flight, the stop event, and the frames sent
    back, in every interleaving of the receive loop and the slots. */
module ChatSession {
  import opened Wrappers

  // --- the wire protocol ------------------------------------------------

  /** finish_reason: complete, interrupted by a stop or a failed send, or failed. */
  datatype Reason = Complete | Interrupted | Failed

  /** Server frames. MessageDone carries a message id, or null; `named` says which.
      Notice is any frame outside the turn grammar: ready, chat_id,
      truncated, title, stopped, pong, and the errors `busy` and `invalid_payload`. */
  datatype Frame =
    | TurnStart(slots: nat)
    | Content(slot: nat, delta: string)
    | MessageDone(slot: nat, finish: Reason, named: bool)
    | Error(at: Option<nat>)
    | TurnDone
    | Notice(code: string)

  /** An attempt to send a frame, for turn 1, 2, ..., or 0 for a notice. */
  datatype Entry = Entry(turn: nat, frame: Frame, delivered: bool)

  /** What the frames of one turn say so far; `open` tells which slots may still speak. */
  datatype Stage = Opening | Reading(open: seq<bool>) | Over

  function Advance(stage: Stage, e: Entry): Option<Stage> {
    match stage
    case Opening => (
      match e.frame
      case TurnStart(n) => Some(if e.delivered then Reading(seq(n, _ => true)) else Over)
      case Error(_) => Some(Over)
      case _ => None)
    case Reading(open) => (
      match e.frame
      case Content(i, _) => if i < |open| && open[i] then Some(stage) else None
      case TurnDone => if true !in open then Some(Over) else None
      case _ =>
        var closing := ClosedSlot(e.frame);
        if closing.Some? && closing.value < |open| && open[closing.value] then Some(Reading(open[closing.value := false])) else None)
    case Over => None
  }

  /** The slot a frame closes. */
  function ClosedSlot(frame: Frame): Option<nat> {
    match frame
    case MessageDone(i, _, _) => Some(i)
    case Error(Some(i)) => Some(i)
    case _ => None
  }

  /** Read the frames of turn t against the protocol; None when they break it. */
  function StageOf(log: seq<Entry>, t: nat): Option<Stage> {
    if log == [] then Some(Opening)
    else
      var before, last := StageOf(log[..|log| - 1], t), log[|log| - 1];
      if last.turn != t || before.None? then before else Advance(before.value, last)
  }

  predicate Closes(e: Entry, t: nat, i: nat) {
    e.turn == t && ClosedSlot(e.frame) == Some(i)
  }

  ghost predicate IsClosed(log: seq<Entry>, t: nat, i: nat) {
    exists q :: 0 <= q < |log| && Closes(log[q], t, i)
  }

  /** Turn t opened with n slots. */
  predicate Opens(e: Entry, t: nat, n: nat) {
    e == Entry(t, TurnStart(n), true)
  }

  lemma {:induction false} StageMeans(log: seq<Entry>, t: nat)
    requires StageOf(log, t).Some?
    ensures StageOf(log, t).value.Opening? ==> forall e :: e in log ==> e.turn != t
    ensures StageOf(log, t).value.Reading? ==>
      var open := StageOf(log, t).value.open;
      && (exists q :: 0 <= q < |log| && Opens(log[q], t, |open|))
      && (forall q :: 0 <= q < |log| && log[q].turn == t && log[q].frame.TurnStart? ==> Opens(log[q], t, |open|))
      && forall i :: 0 <= i < |open| ==> (open[i] <==> !IsClosed(log, t, i))
  {
    if log != [] {
      var n := |log| - 1;
      StageMeans(log[..n], t);
      var before := StageOf(log[..n], t).value;
      if before.Reading? {
        var q :| 0 <= q < n && Opens(log[..n][q], t, |before.open|);
        assert Opens(log[q], t, |before.open|);
        if StageOf(log, t).value.Reading? {
          forall i | 0 <= i < |before.open|
            ensures StageOf(log, t).value.open[i] <==> !IsClosed(log, t, i)
          {
            assert IsClosed(log, t, i) <==> IsClosed(log[..n], t, i) || Closes(log[n], t, i);
          }
        }
      } else if log[n].turn == t && before.Opening? {
        assert StageOf(log, t).value.Reading? ==> Opens(log[n], t, |StageOf(log, t).value.open|);
        forall i | IsClosed(log, t, i)
          ensures !StageOf(log, t).value.Reading?
        {
          var q :| 0 <= q < |log| && Closes(log[q], t, i);
          assert q < n ==> log[..n][q] in log[..n];
        }
      }
    }
  }

  lemma {:induction false} PrefixesFollow(log: seq<Entry>, t: nat, p: nat)
    requires StageOf(log, t).Some? && p <= |log|
    ensures StageOf(log[..p], t).Some?
    ensures StageOf(log[..p], t).value.Over? ==> forall q :: p <= q < |log| ==> log[q].turn != t
  {
    if p < |log| {
      var n := |log| - 1;
      PrefixesFollow(log[..n], t, p);
      assert log[..n][..p] == log[..p];
      if StageOf(log[..p], t).value.Over? {
        OverIsKept(log[..n], t, p);
        assert forall q :: p <= q < n ==> log[..n][q].turn != t;
      }
    } else {
      assert log[..p] == log;
    }
  }

  lemma {:induction false} OverIsKept(log: seq<Entry>, t: nat, p: nat)
    requires p <= |log| && StageOf(log[..p], t) == Some(Over) && StageOf(log, t).Some?
    ensures StageOf(log, t) == Some(Over)
  {
    if p < |log| {
      var n := |log| - 1;
      assert log[..n][..p] == log[..p];
      OverIsKept(log[..n], t, p);
    } else {
      assert log[..p] == log;
    }
  }

  /** Frame p has its place in turn t: a turn opens once; text comes only from a slot of
      the opening that has not closed; no slot closes twice; and turn_done comes last, after
      every slot has closed. */
  ghost predicate WellPlaced(log: seq<Entry>, t: nat, p: nat)
    requires p < |log|
  {
    && (log[p].frame.TurnStart? ==> forall q :: 0 <= q < p ==> log[q].turn != t)
    && (log[p].frame.Content? ==>
          && (exists q, n: nat :: 0 <= q < p && Opens(log[q], t, n) && log[p].frame.slot < n)
          && forall q :: 0 <= q < p ==> !Closes(log[q], t, log[p].frame.slot))
    && (forall i: nat, q :: 0 <= q < p && Closes(log[p], t, i) ==> !Closes(log[q], t, i))
    && (log[p].frame.TurnDone? ==>
          && (exists q, n: nat :: 0 <= q < p && Opens(log[q], t, n) && forall i: nat :: i < n ==> IsClosed(log[..p], t, i))
          && forall q :: p < q < |log| ==> log[q].turn != t)
  }

  /** What following the protocol means, frame by frame. */
  lemma {:induction false} ProtocolMeans(log: seq<Entry>, t: nat, p: nat)
    requires StageOf(log, t).Some? && p < |log| && log[p].turn == t
    ensures WellPlaced(log, t, p)
  {
    var before := log[..p];
    assert log[..p + 1][..p] == before;
    PrefixesFollow(log, t, p);
    PrefixesFollow(log, t, p + 1);
    StageMeans(before, t);
    var stage := StageOf(before, t).value;
    forall q | 0 <= q < p
      ensures stage.Opening? ==> log[q].turn != t
    {
      assert before[q] in before;
    }
    if stage.Reading? {
      var open := stage.open;
      var q :| 0 <= q < p && Opens(before[q], t, |open|);
      assert Opens(log[q], t, |open|);
      forall i: nat, q | 0 <= q < p && Closes(log[q], t, i)
        ensures i < |open| ==> !open[i]
      {
        assert Closes(before[q], t, i);
      }
    }
  }

  // --- the socket -------------------------------------------------------

  /** The coroutine of one slot. Streaming and Sending hold the stop event it was started
      with; Sending has appended a chunk and waits for its send to return; Recorded has
      come back from _record_reply, with a message id or without. */
  datatype SlotPc =
    | Idle
    | Streaming(watch: nat)
    | Sending(watch: nat, chunk: string)
    | Finishing
    | Recorded(named: bool)
    | Shut

  datatype Slot = Slot(pc: SlotPc, taken: nat, reply: string, finish: Reason)

  datatype TurnPc = Preparing | Generating(slots: seq<Slot>) | Ended

  datatype LoopPc = Receiving | AwaitingTurn | Gone

  /** What became of a reply in _record_reply: its insert was never flushed; it was flushed
      and has its id, but the commit at the end of the session was lost; or it is stored. */
  datatype Storing = Unflushed | CommitLost | Stored

  /** A call of _record_reply. */
  datatype HandedReply = HandedReply(turn: nat, slot: nat, text: string, finish: Reason, storing: Storing)

  /** `tasks` are the turn tasks ever created, turn t being tasks[t - 1]; `event` is the
      stop event the session holds now (each start makes a new one) and `fired` the events
      that have been set. History: `offered`, the chunks the providers of each turn
      produce; `log`, the frames; `handed`, the replies handed over for storage. */
  datatype Session = Session(
    loop: LoopPc, tasks: seq<TurnPc>, event: nat, fired: set<nat>,
    offered: map<nat, seq<seq<string>>>, log: seq<Entry>, handed: seq<HandedReply>)

  const CONNECTED := Session(Receiving, [], 0, {}, map[], [], [])

  /** busy: the last task created is not done. */
  predicate Busy(s: Session) {
    s.tasks != [] && !s.tasks[|s.tasks| - 1].Ended?
  }

  predicate InFlight(s: Session, t: nat) {
    1 <= t <= |s.tasks| && !s.tasks[t - 1].Ended?
  }

  function Told(s: Session, turn: nat, frame: Frame, ok: bool): Session {
    s.(log := s.log + [Entry(turn, frame, ok)])
  }

  /** start: a fresh event and a new task. */
  function Started(s: Session): Session {
    s.(event := s.event + 1, tasks := s.tasks + [Preparing])
  }

  /** stop: set the event, if a turn is in flight. */
  function Stopped(s: Session): Session {
    if Busy(s) then s.(fired := s.fired + {s.event}) else s
  }

  /** From the client: a frame of the receive loop, and Resume, the end of wait_for_turn
      (the turn is over or the grace has passed). From a turn: Refuse, the error that ends
      it before turn_start; Abandon, an end without a frame; Begin, with the chunks each
      provider will produce; Finish and CloseFails, after gather. From a slot: Append takes
      a chunk into the reply, Sent is the return of its send; StreamFails is any exception,
      a timeout in the middle of a send included, `reached` saying whether that chunk got
      through. The other booleans say whether a send reaches the client. */
  datatype Event =
    | Ping(ok: bool)
    | Malformed(ok: bool)
    | StopAsked
    | Resume(ok: bool)
    | UserMessage(ok: bool)
    | Disconnect
    | Refuse(turn: nat, at: Option<nat>, ok: bool)
    | Abandon(turn: nat)
    | Begin(turn: nat, scripts: seq<seq<string>>, ok: bool)
    | Finish(turn: nat, ok: bool)
    | CloseFails(turn: nat)
    | OpenStream(turn: nat, slot: nat)
    | Append(turn: nat, slot: nat)
    | Sent(turn: nat, slot: nat, ok: bool)
    | StopSeen(turn: nat, slot: nat)
    | StreamEnd(turn: nat, slot: nat)
    | StreamFails(turn: nat, slot: nat, reached: bool)
    | Record(turn: nat, slot: nat, storing: Storing)
    | Close(turn: nat, slot: nat, ok: bool)

  predicate OfSlot(e: Event) {
    || e.OpenStream? || e.Append? || e.Sent? || e.StopSeen? || e.StreamEnd? || e.StreamFails? || e.Record? || e.Close?
  }

  predicate OfClient(e: Event) {
    e.Ping? || e.Malformed? || e.StopAsked? || e.Resume? || e.UserMessage? || e.Disconnect?
  }

  function ClientStep(s: Session, e: Event): Session {
    if s.loop.Gone? then s
    else if e.Disconnect? then Stopped(s).(loop := Gone)
    else if s.loop.AwaitingTurn? then (
      match e
      case Resume(ok) => Told(s, 0, Notice("stopped"), ok).(loop := Receiving)
      case _ => s)
    else (
      match e
      case Ping(ok) => Told(s, 0, Notice("pong"), ok)
      case Malformed(ok) => Told(s, 0, Notice("invalid_payload"), ok)
      case StopAsked => Stopped(s).(loop := AwaitingTurn)
      case UserMessage(ok) => if Busy(s) then Told(s, 0, Notice("busy"), ok) else Started(s)
      case _ => s)
  }

  /** str.isspace */
  predicate IsSpace(c: char) {
    var n := c as int;
    || 0x09 <= n <= 0x0d || 0x1c <= n <= 0x20 || n == 0x85 || n == 0xa0 || n == 0x1680 || 0x2000 <= n <= 0x200a
    || n == 0x2028 || n == 0x2029 || n == 0x202f || n == 0x205f || n == 0x3000
  }

  /** not text.strip() */
  predicate Blank(text: string) {
    forall c :: c in text ==> IsSpace(c)
  }

  predicate HasSlot(s: Session, t: nat, i: nat) {
    1 <= t <= |s.tasks| && s.tasks[t - 1].Generating? && i < |s.tasks[t - 1].slots|
  }

  function SlotAt(s: Session, t: nat, i: nat): Slot
    requires HasSlot(s, t, i)
  {
    s.tasks[t - 1].slots[i]
  }

  /** What the provider of slot i of turn t produces. */
  function Script(s: Session, t: nat, i: nat): seq<string> {
    if t in s.offered && i < |s.offered[t]| then s.offered[t][i] else []
  }

  /** What one step of a slot does: the slot, a frame, whether it sets the session's stop
      event, and the reply it hands over. */
  datatype Effect = Effect(slot: Slot, said: Option<Entry>, fires: bool, handed: Option<HandedReply>)

  function Still(slot: Slot): Effect {
    Effect(slot, None, false, None)
  }

  /** The slot has left its streaming loop. */
  function Done(slot: Slot, finish: Reason): Effect {
    Still(slot.(pc := Finishing, finish := finish))
  }

  function StreamEffect(slot: Slot, script: seq<string>, t: nat, i: nat, event: nat, fired: set<nat>, e: Event): Effect {
    match e
    case OpenStream(_, _) => Still(if slot.pc.Idle? then slot.(pc := Streaming(event)) else slot)
    case Append(_, _) =>
      if !slot.pc.Streaming? || slot.taken >= |script| then Still(slot)
      else
        var chunk := script[slot.taken];
        Still(slot.(pc := Sending(slot.pc.watch, chunk), taken := slot.taken + 1, reply := slot.reply + chunk))
    case Sent(_, _, ok) =>
      if !slot.pc.Sending? then Still(slot)
      else
        var said := Some(Entry(t, Content(i, slot.pc.chunk), ok));
        if ok then Effect(slot.(pc := Streaming(slot.pc.watch)), said, false, None)
        else Effect(slot.(pc := Finishing, finish := Interrupted), said, true, None)
    case StopSeen(_, _) =>
      if slot.pc.Streaming? && slot.pc.watch in fired then Done(slot, if event in fired then Interrupted else Complete)
      else Still(slot)
    case StreamEnd(_, _) =>
      if slot.pc.Streaming? && slot.taken >= |script| then Done(slot, if event in fired then Interrupted else Complete)
      else Still(slot)
    case StreamFails(_, _, reached) =>
      if slot.pc.Idle? || slot.pc.Streaming? then Done(slot, Failed)
      else if slot.pc.Sending? then Done(slot, Failed).(said := Some(Entry(t, Content(i, slot.pc.chunk), reached)))
      else Still(slot)
    case _ => Still(slot)
  }

  function ClosingEffect(slot: Slot, t: nat, i: nat, e: Event): Effect {
    match e
    case Record(_, _, storing) =>
      if slot.pc.Finishing? && !Blank(slot.reply)
      then Effect(slot.(pc := Recorded(!storing.Unflushed?)), None, false, Some(HandedReply(t, i, slot.reply, slot.finish, storing)))
      else Still(slot)
    case Close(_, _, ok) =>
      if slot.pc.Finishing? && Blank(slot.reply) then Effect(slot.(pc := Shut), Some(Entry(t, Error(Some(i)), ok)), false, None)
      else if slot.pc.Recorded?
      then Effect(slot.(pc := Shut), Some(Entry(t, MessageDone(i, slot.finish, slot.pc.named), ok)), false, None)
      else Still(slot)
    case _ => Still(slot)
  }

  function SlotEffect(s: Session, e: Event): Effect
    requires OfSlot(e) && HasSlot(s, e.turn, e.slot)
  {
    var slot := SlotAt(s, e.turn, e.slot);
    if e.Record? || e.Close? then ClosingEffect(slot, e.turn, e.slot, e)
    else StreamEffect(slot, Script(s, e.turn, e.slot), e.turn, e.slot, s.event, s.fired, e)
  }

  function Apply(s: Session, t: nat, i: nat, effect: Effect): Session
    requires HasSlot(s, t, i)
  {
    s.(tasks := s.tasks[t - 1 := Generating(s.tasks[t - 1].slots[i := effect.slot])],
       fired := if effect.fires then s.fired + {s.event} else s.fired,
       log := if effect.said.Some? then s.log + [effect.said.value] else s.log,
       handed := if effect.handed.Some? then s.handed + [effect.handed.value] else s.handed)
  }

  const FRESH_SLOT := Slot(Idle, 0, "", Complete)

  function FreshSlots(n: nat): (slots: seq<Slot>)
    ensures |slots| == n && forall i :: 0 <= i < n ==> slots[i] == FRESH_SLOT
  {
    seq(n, _ => FRESH_SLOT)
  }

  predicate AllShut(task: TurnPc) {
    task.Generating? && forall i :: 0 <= i < |task.slots| ==> task.slots[i].pc.Shut?
  }

  function EndTask(s: Session, t: nat): Session
    requires 1 <= t <= |s.tasks|
  {
    s.(tasks := s.tasks[t - 1 := Ended])
  }

  function TurnStep(s: Session, e: Event): Session
    requires !OfClient(e) && !OfSlot(e)
  {
    var t := e.turn;
    if !InFlight(s, t) then s
    else
      match e
      case Refuse(_, at, ok) => if s.tasks[t - 1].Preparing? then EndTask(Told(s, t, Error(at), ok), t) else s
      case Abandon(_) => if s.tasks[t - 1].Preparing? then EndTask(s, t) else s
      case Begin(_, scripts, ok) =>
        if !s.tasks[t - 1].Preparing? then s
        else
          var told := Told(s, t, TurnStart(|scripts|), ok).(offered := s.offered[t := scripts]);
          told.(tasks := s.tasks[t - 1 := if ok then Generating(FreshSlots(|scripts|)) else Ended])
      case Finish(_, ok) => if AllShut(s.tasks[t - 1]) then EndTask(Told(s, t, TurnDone, ok), t) else s
      case CloseFails(_) => if AllShut(s.tasks[t - 1]) then EndTask(s, t) else s
  }

  function Next(s: Session, e: Event): Session {
    if OfClient(e) then ClientStep(s, e)
    else if OfSlot(e) then (if HasSlot(s, e.turn, e.slot) then Apply(s, e.turn, e.slot, SlotEffect(s, e)) else s)
    else TurnStep(s, e)
  }

  function Run(events: seq<Event>): Session {
    if events == [] then CONNECTED else Next(Run(events[..|events| - 1]), events[|events| - 1])
  }

  /** A step that sets the stop event: the client asks, the socket goes, or a send fails. */
  predicate Stops(s: Session, e: Event) {
    match e
    case StopAsked => s.loop.Receiving? && Busy(s)
    case Disconnect => !s.loop.Gone? && Busy(s)
    case Sent(t, i, ok) => !ok && HasSlot(s, t, i) && SlotAt(s, t, i).pc.Sending?
    case _ => false
  }

  // --- one turn in flight -----------------------------------------------

  /** The busy gate: every task but the last has ended, and the session holds the event of
      the last one. */
  ghost predicate GateOk(s: Session) {
    && s.event == |s.tasks|
    && (forall k :: 0 <= k < |s.tasks| - 1 ==> s.tasks[k].Ended?)
    && forall v :: v in s.fired ==> 1 <= v <= s.event
  }

  /** What a step may change: it starts a task, or moves one that has not ended. */
  ghost predicate TasksMove(s: Session, s': Session) {
    || (!Busy(s) && s' == Started(s))
    || (s'.event == s.event && |s'.tasks| == |s.tasks|
        && forall k :: 0 <= k < |s.tasks| && s.tasks[k].Ended? ==> s'.tasks[k].Ended?)
  }

  lemma {:induction false} TasksOnlyMove(s: Session, e: Event)
    ensures TasksMove(s, Next(s, e))
  {
  }

  lemma {:induction false} FiredOnlyGrows(s: Session, e: Event)
    ensures s.fired <= Next(s, e).fired <= s.fired + {s.event}
    ensures Next(s, e).fired != s.fired ==> Stops(s, e)
  {
  }

  lemma {:induction false} NextKeepsGate(s: Session, e: Event)
    requires GateOk(s)
    ensures GateOk(Next(s, e))
  {
    TasksOnlyMove(s, e);
    FiredOnlyGrows(s, e);
    assert Stops(s, e) ==> s.tasks != [];
  }

  // --- the frames of a step ---------------------------------------------

  /** A chunk of slot i of turn t is being sent. */
  predicate Speaking(e: Event, t: nat, i: nat) {
    (e.Sent? || e.StreamFails?) && e.turn == t && e.slot == i
  }

  /** A step sends at most one frame: a notice, or a frame of a turn in flight. */
  ghost predicate Sends(s: Session, e: Event, x: Entry) {
    && (x.turn == 0 || (!OfClient(e) && x.turn == e.turn && InFlight(s, x.turn)))
    && (x.frame.Content? ==> Speaking(e, x.turn, x.frame.slot) && HasSlot(s, x.turn, x.frame.slot))
    && (x.frame.MessageDone? ==> e.Close? && HasSlot(s, e.turn, e.slot))
  }

  lemma {:induction false} SlotSends(s: Session, e: Event)
    requires OfSlot(e) && HasSlot(s, e.turn, e.slot)
    ensures var said := SlotEffect(s, e).said; said.Some? ==> Sends(s, e, said.value)
  {
  }

  lemma {:induction false} OneFrameAStep(s: Session, e: Event)
    ensures var s' := Next(s, e);
            s'.log == s.log || exists x :: s'.log == s.log + [x] && Sends(s, e, x)
  {
    var s' := Next(s, e);
    if OfSlot(e) && HasSlot(s, e.turn, e.slot) {
      SlotSends(s, e);
    } else if s'.log != s.log {
      var x := s'.log[|s.log|];
      assert s'.log == s.log + [x];
    }
  }

  ghost predicate InTurnOrder(log: seq<Entry>) {
    forall p, q :: 0 <= p < q < |log| && log[p].turn > 0 && log[q].turn > 0 ==> log[p].turn <= log[q].turn
  }

  ghost predicate TagsOk(s: Session) {
    InTurnOrder(s.log) && forall p :: 0 <= p < |s.log| ==> s.log[p].turn <= |s.tasks|
  }

  lemma {:induction false} NextKeepsTags(s: Session, e: Event)
    requires TagsOk(s) && GateOk(s)
    ensures TagsOk(Next(s, e))
  {
    TasksOnlyMove(s, e);
    OneFrameAStep(s, e);
  }

  // --- the protocol -----------------------------------------------------

  /** The frames of turn t are those of a turn in the state its task is in. */
  ghost predicate StageIs(stage: Stage, task: TurnPc) {
    match task
    case Preparing => stage.Opening?
    case Generating(slots) =>
      && stage.Reading? && |stage.open| == |slots|
      && forall i :: 0 <= i < |slots| ==> stage.open[i] == !slots[i].pc.Shut?
    case Ended => stage.Reading? ==> true !in stage.open
  }

  ghost predicate StageOk(s: Session, t: nat) {
    && StageOf(s.log, t).Some?
    && var stage := StageOf(s.log, t).value;
       if 1 <= t <= |s.tasks| then StageIs(stage, s.tasks[t - 1]) else stage.Opening?
  }

  ghost predicate StagesOk(s: Session) {
    forall t: nat :: t > 0 ==> StageOk(s, t)
  }

  lemma {:induction false} StageGrows(log: seq<Entry>, x: Entry, t: nat)
    ensures StageOf(log + [x], t)
         == if x.turn != t || StageOf(log, t).None? then StageOf(log, t) else Advance(StageOf(log, t).value, x)
  {
    assert (log + [x])[..|log|] == log;
  }

  /** A step of a slot says text while it is open, or closes it, or says nothing. */
  ghost predicate EffectFits(slot: Slot, effect: Effect, t: nat, i: nat) {
    if effect.said.None? then effect.slot.pc.Shut? == slot.pc.Shut?
    else
      && effect.said.value.turn == t && !slot.pc.Shut?
      && (effect.said.value.frame.Content? ==> effect.said.value.frame.slot == i && !effect.slot.pc.Shut?)
      && (!effect.said.value.frame.Content? ==> ClosedSlot(effect.said.value.frame) == Some(i) && effect.slot.pc.Shut?)
  }

  lemma {:induction false} SlotEffectFits(s: Session, e: Event)
    requires OfSlot(e) && HasSlot(s, e.turn, e.slot)
    ensures EffectFits(SlotAt(s, e.turn, e.slot), SlotEffect(s, e), e.turn, e.slot)
  {
  }

  lemma {:induction false} ApplyKeepsStage(s: Session, t: nat, i: nat, effect: Effect)
    requires HasSlot(s, t, i) && StageOk(s, t) && EffectFits(SlotAt(s, t, i), effect, t, i)
    ensures StageOk(Apply(s, t, i, effect), t)
  {
    if effect.said.Some? {
      StageGrows(s.log, effect.said.value, t);
    }
  }

  /** A frame of the turn itself, read against the stage its task leaves. */
  lemma {:induction false} FrameMovesStage(s: Session, s': Session, t: nat, x: Entry)
    requires 1 <= t <= |s.tasks| && |s'.tasks| == |s.tasks| && StageOk(s, t) && s'.log == s.log + [x] && x.turn == t
    requires var next := Advance(StageOf(s.log, t).value, x); next.Some? && StageIs(next.value, s'.tasks[t - 1])
    ensures StageOk(s', t)
  {
    StageGrows(s.log, x, t);
  }

  lemma {:induction false} BeginKeepsStage(s: Session, e: Event)
    requires e.Begin? && InFlight(s, e.turn) && s.tasks[e.turn - 1].Preparing? && StageOk(s, e.turn)
    ensures StageOk(TurnStep(s, e), e.turn)
  {
    FrameMovesStage(s, TurnStep(s, e), e.turn, Entry(e.turn, TurnStart(|e.scripts|), e.ok));
  }

  lemma {:induction false} RefuseKeepsStage(s: Session, e: Event)
    requires (e.Refuse? || e.Abandon?) && InFlight(s, e.turn) && StageOk(s, e.turn)
    ensures StageOk(TurnStep(s, e), e.turn)
  {
    if e.Refuse? && s.tasks[e.turn - 1].Preparing? {
      FrameMovesStage(s, TurnStep(s, e), e.turn, Entry(e.turn, Error(e.at), e.ok));
    }
  }

  lemma {:induction false} FinishKeepsStage(s: Session, e: Event)
    requires (e.Finish? || e.CloseFails?) && InFlight(s, e.turn) && StageOk(s, e.turn)
    ensures StageOk(TurnStep(s, e), e.turn)
  {
    if AllShut(s.tasks[e.turn - 1]) {
      ShutMeansNoneOpen(StageOf(s.log, e.turn).value, s.tasks[e.turn - 1]);
      if e.Finish? {
        FrameMovesStage(s, TurnStep(s, e), e.turn, Entry(e.turn, TurnDone, e.ok));
      }
    }
  }

  lemma {:induction false} ShutMeansNoneOpen(stage: Stage, task: TurnPc)
    requires AllShut(task) && StageIs(stage, task)
    ensures stage.Reading? && true !in stage.open
  {
  }

  /** Other turns are not touched. */
  lemma {:induction false} OthersKeepStage(s: Session, e: Event, t: nat)
    requires t > 0 && StageOk(s, t) && (OfClient(e) || e.turn != t || !InFlight(s, t))
    ensures StageOk(Next(s, e), t)
  {
    var s' := Next(s, e);
    OneFrameAStep(s, e);
    if s'.log != s.log {
      var x :| s'.log == s.log + [x] && Sends(s, e, x);
      StageGrows(s.log, x, t);
    }
    OthersKeepTask(s, e, t);
  }

  lemma {:induction false} OthersKeepTask(s: Session, e: Event, t: nat)
    requires t > 0 && (OfClient(e) || e.turn != t || !InFlight(s, t))
    ensures var s' := Next(s, e);
            if 1 <= t <= |s.tasks| then t <= |s'.tasks| && s'.tasks[t - 1] == s.tasks[t - 1]
            else t <= |s'.tasks| ==> s'.tasks[t - 1] == Preparing
  {
  }

  lemma {:induction false} NextKeepsStages(s: Session, e: Event)
    requires StagesOk(s)
    ensures StagesOk(Next(s, e))
  {
    forall t: nat | t > 0
      ensures StageOk(Next(s, e), t)
    {
      assert StageOk(s, t);
      if OfClient(e) || e.turn != t || !InFlight(s, t) {
        OthersKeepStage(s, e, t);
      } else if !OfSlot(e) {
        if e.Begin? {
          if s.tasks[t - 1].Preparing? {
            BeginKeepsStage(s, e);
          }
        } else if e.Refuse? || e.Abandon? {
          RefuseKeepsStage(s, e);
        } else {
          FinishKeepsStage(s, e);
        }
      } else if HasSlot(s, t, e.slot) {
        SlotEffectFits(s, e);
        ApplyKeepsStage(s, t, e.slot, SlotEffect(s, e));
      }
    }
  }

  // --- what the client has read -----------------------------------------

  function Concat(chunks: seq<string>): string {
    if chunks == [] then "" else Concat(chunks[..|chunks| - 1]) + chunks[|chunks| - 1]
  }

  /** The text of slot i of turn t that an entry brings to the client. */
  function Brings(x: Entry, t: nat, i: nat): string {
    if x.turn == t && x.frame.Content? && x.frame.slot == i && x.delivered then x.frame.delta else ""
  }

  /** The text of slot i of turn t that reached the client. */
  function Heard(log: seq<Entry>, t: nat, i: nat): string {
    if log == [] then "" else Heard(log[..|log| - 1], t, i) + Brings(log[|log| - 1], t, i)
  }

  lemma {:induction false} HeardGrows(log: seq<Entry>, x: Entry, t: nat, i: nat)
    ensures Heard(log + [x], t, i) == Heard(log, t, i) + Brings(x, t, i)
  {
    assert (log + [x])[..|log|] == log;
  }

  lemma {:induction false} ConcatGrows(chunks: seq<string>, k: nat)
    requires k < |chunks|
    ensures Concat(chunks[..k + 1]) == Concat(chunks[..k]) + chunks[k]
  {
    assert chunks[..k + 1][..k] == chunks[..k];
  }

  /** `text` is the first `taken` chunks, and the client heard all of it or all but the
      last chunk; all of it, to the end of the stream, when it counts as complete. */
  ghost predicate Follows(heard: string, script: seq<string>, taken: nat, text: string, finish: Reason) {
    && taken <= |script| && text == Concat(script[..taken])
    && (heard == text || (taken > 0 && heard == Concat(script[..taken - 1])))
    && (finish == Complete ==> taken == |script| && heard == text)
  }

  lemma {:induction false} FollowsIsPrefix(heard: string, script: seq<string>, taken: nat, text: string, finish: Reason)
    requires Follows(heard, script, taken, text, finish)
    ensures heard <= text
  {
    if taken > 0 {
      ConcatGrows(script, taken - 1);
    }
  }

  /** A slot of the turn with event `own`, and what was heard of it. */
  ghost predicate SlotIs(slot: Slot, script: seq<string>, heard: string, own: nat, fired: set<nat>) {
    && (slot.finish == Interrupted ==> own in fired)
    && slot.taken <= |script| && slot.reply == Concat(script[..slot.taken])
    && match slot.pc
       case Idle => heard == slot.reply
       case Streaming(watch) => watch == own && heard == slot.reply
       case Sending(watch, chunk) =>
         watch == own && slot.taken > 0 && chunk == script[slot.taken - 1] && heard == Concat(script[..slot.taken - 1])
       case _ => Follows(heard, script, slot.taken, slot.reply, slot.finish)
  }

  lemma {:induction false} AppendKeepsSlot(slot: Slot, script: seq<string>, heard: string, t: nat, i: nat, fired: set<nat>, e: Event)
    requires SlotIs(slot, script, heard, t, fired) && e.Append?
    ensures var effect := StreamEffect(slot, script, t, i, t, fired, e);
            SlotIs(effect.slot, script, heard + (if effect.said.Some? then Brings(effect.said.value, t, i) else ""), t,
                   if effect.fires then fired + {t} else fired)
  {
    assert heard + "" == heard;
    if slot.pc.Streaming? && slot.taken < |script| {
      ConcatGrows(script, slot.taken);
    }
  }

  lemma {:induction false} SentKeepsSlot(slot: Slot, script: seq<string>, heard: string, t: nat, i: nat, fired: set<nat>, e: Event)
    requires SlotIs(slot, script, heard, t, fired) && e.Sent?
    ensures var effect := StreamEffect(slot, script, t, i, t, fired, e);
            SlotIs(effect.slot, script, heard + (if effect.said.Some? then Brings(effect.said.value, t, i) else ""), t,
                   if effect.fires then fired + {t} else fired)
  {
    assert heard + "" == heard;
    if slot.pc.Sending? {
      ConcatGrows(script, slot.taken - 1);
    }
  }

  lemma {:induction false} FailureKeepsSlot(slot: Slot, script: seq<string>, heard: string, t: nat, i: nat, fired: set<nat>, e: Event)
    requires SlotIs(slot, script, heard, t, fired) && e.StreamFails?
    ensures var effect := StreamEffect(slot, script, t, i, t, fired, e);
            SlotIs(effect.slot, script, heard + (if effect.said.Some? then Brings(effect.said.value, t, i) else ""), t,
                   if effect.fires then fired + {t} else fired)
  {
    assert heard + "" == heard;
    if slot.pc.Sending? {
      ConcatGrows(script, slot.taken - 1);
    }
  }

  lemma {:induction false} EndKeepsSlot(slot: Slot, script: seq<string>, heard: string, t: nat, i: nat, fired: set<nat>, e: Event)
    requires SlotIs(slot, script, heard, t, fired) && !e.Append? && !e.Sent? && !e.StreamFails?
    ensures var effect := StreamEffect(slot, script, t, i, t, fired, e);
            SlotIs(effect.slot, script, heard + (if effect.said.Some? then Brings(effect.said.value, t, i) else ""), t,
                   if effect.fires then fired + {t} else fired)
  {
    assert heard + "" == heard;
  }

  lemma {:induction false} StreamKeepsSlot(slot: Slot, script: seq<string>, heard: string, t: nat, i: nat, fired: set<nat>, e: Event)
    requires SlotIs(slot, script, heard, t, fired)
    ensures var effect := StreamEffect(slot, script, t, i, t, fired, e);
            SlotIs(effect.slot, script, heard + (if effect.said.Some? then Brings(effect.said.value, t, i) else ""), t,
                   if effect.fires then fired + {t} else fired)
  {
    if e.Append? {
      AppendKeepsSlot(slot, script, heard, t, i, fired, e);
    } else if e.Sent? {
      SentKeepsSlot(slot, script, heard, t, i, fired, e);
    } else if e.StreamFails? {
      FailureKeepsSlot(slot, script, heard, t, i, fired, e);
    } else {
      EndKeepsSlot(slot, script, heard, t, i, fired, e);
    }
  }

  lemma {:induction false} ClosingKeepsSlot(slot: Slot, script: seq<string>, heard: string, t: nat, i: nat, fired: set<nat>, e: Event)
    requires SlotIs(slot, script, heard, t, fired)
    ensures var effect := ClosingEffect(slot, t, i, e);
            && SlotIs(effect.slot, script, heard, t, fired) && !effect.fires
            && (effect.said.Some? ==> Brings(effect.said.value, t, i) == "")
  {
  }

  ghost predicate SlotOk(s: Session, t: nat, i: nat)
    requires HasSlot(s, t, i)
  {
    SlotIs(SlotAt(s, t, i), Script(s, t, i), Heard(s.log, t, i), t, s.fired)
  }

  /** A generating turn has one slot for each provider. */
  predicate Offers(s: Session, t: nat) {
    1 <= t <= |s.tasks| && s.tasks[t - 1].Generating? ==> t in s.offered && |s.offered[t]| == |s.tasks[t - 1].slots|
  }

  ghost predicate SlotsOk(s: Session) {
    && (forall t: nat :: Offers(s, t))
    && forall t: nat, i: nat :: HasSlot(s, t, i) ==> SlotOk(s, t, i)
  }

  lemma {:induction false} NothingHeard(log: seq<Entry>, t: nat, i: nat)
    requires forall e :: e in log ==> e.turn != t
    ensures Heard(log, t, i) == ""
  {
    if log != [] {
      NothingHeard(log[..|log| - 1], t, i);
    }
  }

  /** Only the sends of a slot change what is heard of it. */
  lemma {:induction false} OneStepHeard(s: Session, e: Event, t: nat, i: nat)
    requires t > 0 && !(Speaking(e, t, i) && HasSlot(s, t, i))
    ensures Heard(Next(s, e).log, t, i) == Heard(s.log, t, i)
  {
    var s' := Next(s, e);
    OneFrameAStep(s, e);
    if s'.log != s.log {
      var x :| s'.log == s.log + [x] && Sends(s, e, x);
      HeardGrows(s.log, x, t, i);
      assert Heard(s.log, t, i) + "" == Heard(s.log, t, i);
    }
  }

  lemma {:induction false} AppliedSlot(s: Session, t: nat, i: nat, effect: Effect)
    requires HasSlot(s, t, i) && t == s.event
    requires SlotIs(effect.slot, Script(s, t, i), Heard(s.log, t, i) + (if effect.said.Some? then Brings(effect.said.value, t, i) else ""), t,
                    if effect.fires then s.fired + {t} else s.fired)
    ensures var s' := Apply(s, t, i, effect); HasSlot(s', t, i) && SlotOk(s', t, i)
  {
    var s' := Apply(s, t, i, effect);
    assert Script(s', t, i) == Script(s, t, i) && SlotAt(s', t, i) == effect.slot;
    assert Heard(s.log, t, i) + "" == Heard(s.log, t, i);
    if effect.said.Some? {
      HeardGrows(s.log, effect.said.value, t, i);
    }
  }

  lemma {:induction false} OwnStreamStepKeepsSlot(s: Session, e: Event)
    requires OfSlot(e) && !e.Record? && !e.Close?
    requires HasSlot(s, e.turn, e.slot) && s.event == e.turn && SlotOk(s, e.turn, e.slot)
    ensures var s' := Apply(s, e.turn, e.slot, SlotEffect(s, e)); HasSlot(s', e.turn, e.slot) && SlotOk(s', e.turn, e.slot)
  {
    var t, i := e.turn, e.slot;
    StreamKeepsSlot(SlotAt(s, t, i), Script(s, t, i), Heard(s.log, t, i), t, i, s.fired, e);
    AppliedSlot(s, t, i, SlotEffect(s, e));
  }

  lemma {:induction false} OwnClosingStepKeepsSlot(s: Session, e: Event)
    requires e.Record? || e.Close?
    requires HasSlot(s, e.turn, e.slot) && s.event == e.turn && SlotOk(s, e.turn, e.slot)
    ensures var s' := Apply(s, e.turn, e.slot, SlotEffect(s, e)); HasSlot(s', e.turn, e.slot) && SlotOk(s', e.turn, e.slot)
  {
    var t, i := e.turn, e.slot;
    var heard := Heard(s.log, t, i);
    ClosingKeepsSlot(SlotAt(s, t, i), Script(s, t, i), heard, t, i, s.fired, e);
    assert heard + "" == heard;
    AppliedSlot(s, t, i, SlotEffect(s, e));
  }

  /** The other slots, of this turn and of others, stay as they are. */
  lemma {:induction false} OthersKeepSlot(s: Session, e: Event, t: nat, i: nat)
    requires HasSlot(Next(s, e), t, i) && HasSlot(s, t, i) && !(OfSlot(e) && e.turn == t && e.slot == i)
    ensures SlotAt(Next(s, e), t, i) == SlotAt(s, t, i)
    ensures Script(Next(s, e), t, i) == Script(s, t, i)
  {
    if OfSlot(e) {
      if HasSlot(s, e.turn, e.slot) {
        ApplyKeepsTheRest(s, e.turn, e.slot, SlotEffect(s, e), t, i);
      }
    } else if !OfClient(e) {
      TurnKeepsSlot(s, e, t, i);
    }
  }

  lemma {:induction false} TurnKeepsSlot(s: Session, e: Event, t: nat, i: nat)
    requires !OfSlot(e) && !OfClient(e) && HasSlot(TurnStep(s, e), t, i) && HasSlot(s, t, i)
    ensures SlotAt(TurnStep(s, e), t, i) == SlotAt(s, t, i)
    ensures Script(TurnStep(s, e), t, i) == Script(s, t, i)
  {
  }

  lemma {:induction false} SlotsArrive(s: Session, e: Event, t: nat, i: nat)
    requires HasSlot(Next(s, e), t, i) && !HasSlot(s, t, i)
    ensures e.Begin? && e.turn == t && InFlight(s, t) && s.tasks[t - 1].Preparing? && SlotAt(Next(s, e), t, i) == FRESH_SLOT
  {
  }

  lemma {:induction false} NextKeepsSlot(s: Session, e: Event, t: nat, i: nat)
    requires GateOk(s) && StagesOk(s) && SlotsOk(s) && HasSlot(Next(s, e), t, i)
    ensures SlotOk(Next(s, e), t, i)
  {
    var s' := Next(s, e);
    FiredOnlyGrows(s, e);
    if HasSlot(s, t, i) {
      assert SlotOk(s, t, i);
      if OfSlot(e) && e.turn == t && e.slot == i {
        if e.Record? || e.Close? {
          OwnClosingStepKeepsSlot(s, e);
        } else {
          OwnStreamStepKeepsSlot(s, e);
        }
      } else {
        OthersKeepSlot(s, e, t, i);
        OneStepHeard(s, e, t, i);
      }
    } else {
      SlotsArrive(s, e, t, i);
      OneStepHeard(s, e, t, i);
      assert StageOk(s, t);
      StageMeans(s.log, t);
      NothingHeard(s.log, t, i);
      assert Script(s', t, i)[..0] == [];
    }
  }

  lemma {:induction false} SlotKeepsOffers(s: Session, e: Event, t: nat)
    requires OfSlot(e) && Offers(s, t)
    ensures Offers(Next(s, e), t)
  {
    if HasSlot(s, e.turn, e.slot) {
      var s' := Apply(s, e.turn, e.slot, SlotEffect(s, e));
      assert s'.offered == s.offered && |s'.tasks| == |s.tasks|;
    }
  }

  lemma {:induction false} TurnKeepsOffers(s: Session, e: Event, t: nat)
    requires !OfSlot(e) && !OfClient(e) && Offers(s, t)
    ensures Offers(Next(s, e), t)
  {
  }

  lemma {:induction false} NextKeepsOffers(s: Session, e: Event, t: nat)
    requires Offers(s, t)
    ensures Offers(Next(s, e), t)
  {
    if OfSlot(e) {
      SlotKeepsOffers(s, e, t);
    } else if !OfClient(e) {
      TurnKeepsOffers(s, e, t);
    }
  }

  lemma {:induction false} NextKeepsSlots(s: Session, e: Event)
    requires GateOk(s) && StagesOk(s) && SlotsOk(s)
    ensures SlotsOk(Next(s, e))
  {
    var s' := Next(s, e);
    forall t: nat
      ensures Offers(s', t)
    {
      assert Offers(s, t);
      NextKeepsOffers(s, e, t);
    }
    forall t: nat, i: nat | HasSlot(s', t, i)
      ensures SlotOk(s', t, i)
    {
      NextKeepsSlot(s, e, t, i);
    }
  }

  // --- replies ----------------------------------------------------------

  predicate Hands(r: HandedReply, t: nat, i: nat, finish: Reason, named: bool) {
    r.turn == t && r.slot == i && r.finish == finish && !r.storing.Unflushed? == named
  }

  ghost predicate IsHanded(s: Session, t: nat, i: nat, finish: Reason, named: bool) {
    exists k :: 0 <= k < |s.handed| && Hands(s.handed[k], t, i, finish, named)
  }

  predicate Dones(x: Entry, t: nat, i: nat, finish: Reason, named: bool) {
    x.turn == t && x.frame == MessageDone(i, finish, named)
  }

  ghost predicate IsDone(log: seq<Entry>, t: nat, i: nat, finish: Reason, named: bool) {
    exists q :: 0 <= q < |log| && Dones(log[q], t, i, finish, named)
  }

  /** The slot is back from storing its reply and has not sent message_done yet. */
  predicate Closing(s: Session, t: nat, i: nat, finish: Reason, named: bool) {
    HasSlot(s, t, i) && SlotAt(s, t, i).pc == Recorded(named) && SlotAt(s, t, i).finish == finish
  }

  ghost predicate Accounts(s: Session, r: HandedReply, taken: nat) {
    Follows(Heard(s.log, r.turn, r.slot), Script(s, r.turn, r.slot), taken, r.text, r.finish)
  }

  /** The slot of the reply has closed, or is about to. */
  predicate PastStreaming(s: Session, t: nat, i: nat) {
    1 <= t <= |s.tasks| && !s.tasks[t - 1].Preparing? && t in s.offered
    && (HasSlot(s, t, i) ==> SlotAt(s, t, i).pc.Recorded? || SlotAt(s, t, i).pc.Shut?)
    && (s.tasks[t - 1].Generating? ==> HasSlot(s, t, i))
  }

  ghost predicate ReplyOk(s: Session, r: HandedReply) {
    PastStreaming(s, r.turn, r.slot) && !Blank(r.text) && exists taken: nat :: Accounts(s, r, taken)
  }

  ghost predicate RepliesOk(s: Session) {
    && (forall k :: 0 <= k < |s.handed| ==> ReplyOk(s, s.handed[k]))
    && forall j, k :: 0 <= j < k < |s.handed| ==> s.handed[j].turn != s.handed[k].turn || s.handed[j].slot != s.handed[k].slot
  }

  ghost predicate DoneOk(s: Session, t: nat, i: nat, finish: Reason, named: bool) {
    && (IsDone(s.log, t, i, finish, named) ==> IsHanded(s, t, i, finish, named))
    && (IsHanded(s, t, i, finish, named) ==> IsDone(s.log, t, i, finish, named) || Closing(s, t, i, finish, named))
    && (Closing(s, t, i, finish, named) ==> IsHanded(s, t, i, finish, named))
  }

  ghost predicate DonesOk(s: Session) {
    forall t: nat, i: nat, finish, named :: t > 0 ==> DoneOk(s, t, i, finish, named)
  }

  /** A slot that has closed, or is about to, does not go back. */
  lemma {:induction false} PastEffect(slot: Slot, script: seq<string>, t: nat, i: nat, event: nat, fired: set<nat>, e: Event)
    requires OfSlot(e) && (slot.pc.Recorded? || slot.pc.Shut?)
    ensures var effect := if e.Record? || e.Close? then ClosingEffect(slot, t, i, e) else StreamEffect(slot, script, t, i, event, fired, e);
            && (effect.slot.pc.Recorded? || effect.slot.pc.Shut?)
            && (effect.said.None? || !effect.said.value.frame.Content?)
  {
  }

  lemma {:induction false} SlotStaysPast(s: Session, e: Event, t: nat, i: nat)
    requires OfSlot(e) && HasSlot(s, e.turn, e.slot) && PastStreaming(s, t, i)
    ensures var s' := Apply(s, e.turn, e.slot, SlotEffect(s, e)); PastStreaming(s', t, i) && Script(s', t, i) == Script(s, t, i)
    ensures e.turn == t && e.slot == i ==> SlotEffect(s, e).said.None? || !SlotEffect(s, e).said.value.frame.Content?
  {
    if e.turn == t && e.slot == i {
      PastEffect(SlotAt(s, t, i), Script(s, t, i), t, i, s.event, s.fired, e);
    }
    ApplyKeepsTheRest(s, e.turn, e.slot, SlotEffect(s, e), t, i);
  }

  lemma {:induction false} ApplyKeepsTheRest(s: Session, t: nat, i: nat, effect: Effect, u: nat, j: nat)
    requires HasSlot(s, t, i)
    ensures var s' := Apply(s, t, i, effect);
            && s'.offered == s.offered && |s'.tasks| == |s.tasks|
            && (1 <= u <= |s.tasks| ==> s'.tasks[u - 1].Preparing? == s.tasks[u - 1].Preparing? && s'.tasks[u - 1].Generating? == s.tasks[u - 1].Generating?)
            && HasSlot(s', u, j) == HasSlot(s, u, j)
            && (HasSlot(s, u, j) ==> SlotAt(s', u, j) == if t == u && i == j then effect.slot else SlotAt(s, u, j))
  {
  }

  lemma {:induction false} OthersStayPast(s: Session, e: Event, t: nat, i: nat)
    requires !OfSlot(e) && PastStreaming(s, t, i)
    ensures PastStreaming(Next(s, e), t, i) && Script(Next(s, e), t, i) == Script(s, t, i)
  {
  }

  lemma {:induction false} PastIsNotHeard(s: Session, e: Event, t: nat, i: nat)
    requires OfSlot(e) && HasSlot(s, e.turn, e.slot)
    requires e.turn == t && e.slot == i ==> SlotEffect(s, e).said.None? || !SlotEffect(s, e).said.value.frame.Content?
    ensures Heard(Apply(s, e.turn, e.slot, SlotEffect(s, e)).log, t, i) == Heard(s.log, t, i)
  {
    var said := SlotEffect(s, e).said;
    if said.Some? {
      SlotEffectFits(s, e);
      HeardGrows(s.log, said.value, t, i);
      assert Heard(s.log, t, i) + "" == Heard(s.log, t, i);
    }
  }

  lemma {:induction false} PastIsQuiet(s: Session, e: Event, t: nat, i: nat)
    requires PastStreaming(s, t, i)
    ensures PastStreaming(Next(s, e), t, i) && Script(Next(s, e), t, i) == Script(s, t, i)
    ensures Heard(Next(s, e).log, t, i) == Heard(s.log, t, i)
  {
    if OfSlot(e) && HasSlot(s, e.turn, e.slot) {
      SlotStaysPast(s, e, t, i);
      PastIsNotHeard(s, e, t, i);
    } else {
      if !OfSlot(e) {
        OthersStayPast(s, e, t, i);
      }
      OneStepHeard(s, e, t, i);
    }
  }

  lemma {:induction false} NextKeepsReply(s: Session, e: Event, r: HandedReply)
    requires ReplyOk(s, r)
    ensures ReplyOk(Next(s, e), r)
  {
    PastIsQuiet(s, e, r.turn, r.slot);
    var taken: nat :| Accounts(s, r, taken);
    assert Accounts(Next(s, e), r, taken);
  }

  /** What _record_reply is handed: the reply of a slot that has left its loop. */
  lemma {:induction false} HandsOver(s: Session, e: Event)
    requires Next(s, e).handed != s.handed
    ensures e.Record? && HasSlot(s, e.turn, e.slot) && SlotAt(s, e.turn, e.slot).pc.Finishing? && !Blank(SlotAt(s, e.turn, e.slot).reply)
    ensures Next(s, e).handed
         == s.handed + [HandedReply(e.turn, e.slot, SlotAt(s, e.turn, e.slot).reply, SlotAt(s, e.turn, e.slot).finish, e.storing)]
    ensures Next(s, e).log == s.log
  {
  }

  lemma {:induction false} NewReplyIsOk(s: Session, e: Event)
    requires GateOk(s) && SlotsOk(s) && Next(s, e).handed != s.handed
    ensures var s' := Next(s, e); ReplyOk(s', s'.handed[|s.handed|])
  {
    var s' := Next(s, e);
    HandsOver(s, e);
    var slot, r := SlotAt(s, e.turn, e.slot), s'.handed[|s.handed|];
    assert SlotOk(s, e.turn, e.slot) && Offers(s, e.turn);
    assert Script(s', e.turn, e.slot) == Script(s, e.turn, e.slot);
    assert Accounts(s', r, slot.taken);
  }

  lemma {:induction false} NextKeepsReplies(s: Session, e: Event)
    requires GateOk(s) && SlotsOk(s) && RepliesOk(s)
    ensures RepliesOk(Next(s, e))
  {
    var s' := Next(s, e);
    if s'.handed != s.handed {
      HandsOver(s, e);
      NewReplyIsOk(s, e);
    }
    forall k | 0 <= k < |s'.handed|
      ensures ReplyOk(s', s'.handed[k])
    {
      if k < |s.handed| {
        assert s'.handed[k] == s.handed[k];
        NextKeepsReply(s, e, s.handed[k]);
      }
    }
    forall j, k | 0 <= j < k < |s'.handed|
      ensures s'.handed[j].turn != s'.handed[k].turn || s'.handed[j].slot != s'.handed[k].slot
    {
      if k == |s.handed| {
        assert ReplyOk(s, s.handed[j]);
      }
    }
  }

  lemma {:induction false} DoneAppend(log: seq<Entry>, x: Entry, t: nat, i: nat, finish: Reason, named: bool)
    ensures IsDone(log + [x], t, i, finish, named) <==> IsDone(log, t, i, finish, named) || Dones(x, t, i, finish, named)
  {
    var log' := log + [x];
    if IsDone(log, t, i, finish, named) {
      var q :| 0 <= q < |log| && Dones(log[q], t, i, finish, named);
      assert Dones(log'[q], t, i, finish, named);
    }
    if Dones(x, t, i, finish, named) {
      assert Dones(log'[|log|], t, i, finish, named);
    }
  }

  lemma {:induction false} HandAppend(s: Session, s': Session, r: HandedReply, t: nat, i: nat, finish: Reason, named: bool)
    requires s'.handed == s.handed + [r]
    ensures IsHanded(s', t, i, finish, named) <==> IsHanded(s, t, i, finish, named) || Hands(r, t, i, finish, named)
  {
    if IsHanded(s, t, i, finish, named) {
      var k :| 0 <= k < |s.handed| && Hands(s.handed[k], t, i, finish, named);
      assert Hands(s'.handed[k], t, i, finish, named);
    }
    if Hands(r, t, i, finish, named) {
      assert Hands(s'.handed[|s.handed|], t, i, finish, named);
    }
  }

  /** Storing opens the gap between the reply and message_done. */
  lemma {:induction false} RecordKeepsDone(s: Session, e: Event, t: nat, i: nat, finish: Reason, named: bool)
    requires e.Record? && t > 0 && DoneOk(s, t, i, finish, named)
    ensures DoneOk(Next(s, e), t, i, finish, named)
  {
    var s' := Next(s, e);
    if s'.handed != s.handed {
      HandsOver(s, e);
      HandAppend(s, s', s'.handed[|s.handed|], t, i, finish, named);
      assert Closing(s', t, i, finish, named) <==> Closing(s, t, i, finish, named) || Hands(s'.handed[|s.handed|], t, i, finish, named);
    } else if HasSlot(s, e.turn, e.slot) {
      RecordIsIdle(s, e);
    }
  }

  lemma {:induction false} RecordIsIdle(s: Session, e: Event)
    requires e.Record? && HasSlot(s, e.turn, e.slot) && Next(s, e).handed == s.handed
    ensures Next(s, e) == s
  {
    var slots := s.tasks[e.turn - 1].slots;
    assert slots[e.slot := slots[e.slot]] == slots && s.tasks[e.turn - 1 := s.tasks[e.turn - 1]] == s.tasks;
  }

  /** message_done closes it. */
  lemma {:induction false} CloseKeepsDone(s: Session, e: Event, t: nat, i: nat, finish: Reason, named: bool)
    requires e.Close? && HasSlot(s, e.turn, e.slot) && t > 0 && DoneOk(s, t, i, finish, named)
    ensures DoneOk(Next(s, e), t, i, finish, named)
  {
    var s', effect := Next(s, e), SlotEffect(s, e);
    assert s'.handed == s.handed;
    assert IsHanded(s', t, i, finish, named) <==> IsHanded(s, t, i, finish, named);
    if effect.said.Some? {
      DoneAppend(s.log, effect.said.value, t, i, finish, named);
    }
    if e.turn != t || e.slot != i {
      assert Closing(s', t, i, finish, named) <==> Closing(s, t, i, finish, named);
    }
  }

  /** No other step touches either. */
  lemma {:induction false} StreamKeepsClosing(s: Session, e: Event, t: nat, i: nat, finish: Reason, named: bool)
    requires OfSlot(e) && !e.Record? && !e.Close? && HasSlot(s, e.turn, e.slot)
    ensures var s' := Apply(s, e.turn, e.slot, SlotEffect(s, e));
            s'.handed == s.handed && (Closing(s', t, i, finish, named) <==> Closing(s, t, i, finish, named))
  {
    var effect, slot := SlotEffect(s, e), SlotAt(s, e.turn, e.slot);
    assert effect.handed.None? && (!effect.slot.pc.Recorded? || effect.slot == slot);
  }

  lemma {:induction false} OthersKeepClosing(s: Session, e: Event, t: nat, i: nat, finish: Reason, named: bool)
    requires t > 0 && !e.Record? && !(e.Close? && HasSlot(s, e.turn, e.slot))
    ensures Next(s, e).handed == s.handed
    ensures Closing(Next(s, e), t, i, finish, named) <==> Closing(s, t, i, finish, named)
  {
    if OfSlot(e) && HasSlot(s, e.turn, e.slot) {
      StreamKeepsClosing(s, e, t, i, finish, named);
    }
  }

  lemma {:induction false} NextKeepsDone(s: Session, e: Event, t: nat, i: nat, finish: Reason, named: bool)
    requires t > 0 && DoneOk(s, t, i, finish, named)
    ensures DoneOk(Next(s, e), t, i, finish, named)
  {
    if e.Record? {
      RecordKeepsDone(s, e, t, i, finish, named);
    } else if e.Close? && HasSlot(s, e.turn, e.slot) {
      CloseKeepsDone(s, e, t, i, finish, named);
    } else {
      var s' := Next(s, e);
      OthersKeepClosing(s, e, t, i, finish, named);
      OneFrameAStep(s, e);
      if s'.log != s.log {
        var x :| s'.log == s.log + [x] && Sends(s, e, x);
        DoneAppend(s.log, x, t, i, finish, named);
      }
      assert IsHanded(s', t, i, finish, named) <==> IsHanded(s, t, i, finish, named);
    }
  }

  lemma {:induction false} NextKeepsDones(s: Session, e: Event)
    requires DonesOk(s)
    ensures DonesOk(Next(s, e))
  {
    forall t: nat, i: nat, finish, named | t > 0
      ensures DoneOk(Next(s, e), t, i, finish, named)
    {
      NextKeepsDone(s, e, t, i, finish, named);
    }
  }

  // --- every run --------------------------------------------------------

  ghost predicate Valid(s: Session) {
    GateOk(s) && TagsOk(s) && StagesOk(s) && SlotsOk(s) && RepliesOk(s) && DonesOk(s)
  }

  lemma {:induction false} NextIsValid(s: Session, e: Event)
    requires Valid(s)
    ensures Valid(Next(s, e))
  {
    NextKeepsGate(s, e);
    NextKeepsTags(s, e);
    NextKeepsStages(s, e);
    NextKeepsSlots(s, e);
    NextKeepsReplies(s, e);
    NextKeepsDones(s, e);
  }

  lemma {:induction false} ConnectedIsValid()
    ensures Valid(CONNECTED)
  {
    assert forall t: nat :: t > 0 ==> StageOk(CONNECTED, t);
  }

  lemma {:induction false} RunIsValid(events: seq<Event>)
    ensures Valid(Run(events))
  {
    if events == [] {
      ConnectedIsValid();
    } else {
      RunIsValid(events[..|events| - 1]);
      NextIsValid(Run(events[..|events| - 1]), events[|events| - 1]);
    }
  }

  /** One turn per socket: of all the tasks a session ever created, only the last can still
      be running, although the steps of any task that has not ended may come at any time. */
  lemma {:induction false} OneTurnInFlight(events: seq<Event>, t: nat, u: nat)
    requires InFlight(Run(events), t) && InFlight(Run(events), u)
    ensures t == u == |Run(events).tasks|
  {
    RunIsValid(events);
    OnlyTheLast(Run(events), t);
    OnlyTheLast(Run(events), u);
  }

  lemma {:induction false} OnlyTheLast(s: Session, t: nat)
    requires GateOk(s) && InFlight(s, t)
    ensures t == s.event == |s.tasks|
  {
  }

  /** Whatever the interleaving, the frames of a turn follow the protocol. */
  lemma {:induction false} EveryRunFollowsTheProtocol(events: seq<Event>, p: nat)
    requires p < |Run(events).log| && Run(events).log[p].turn > 0
    ensures WellPlaced(Run(events).log, Run(events).log[p].turn, p)
  {
    var s := Run(events);
    RunIsValid(events);
    assert StageOk(s, s.log[p].turn);
    ProtocolMeans(s.log, s.log[p].turn, p);
  }

  /** Once a turn is over, each of its slots has closed. */
  lemma {:induction false} EverySlotIsClosed(events: seq<Event>, t: nat, n: nat, q: nat, i: nat)
    requires var s := Run(events); t > 0 && !InFlight(s, t) && q < |s.log| && Opens(s.log[q], t, n) && i < n
    ensures IsClosed(Run(events).log, t, i)
  {
    var s := Run(events);
    RunIsValid(events);
    assert StageOk(s, t);
    ShutStageMeansClosed(s.log, t, n, q, i);
  }

  lemma {:induction false} ShutStageMeansClosed(log: seq<Entry>, t: nat, n: nat, q: nat, i: nat)
    requires StageOf(log, t).Some? && (StageOf(log, t).value.Reading? ==> true !in StageOf(log, t).value.open)
    requires q < |log| && Opens(log[q], t, n) && i < n
    ensures IsClosed(log, t, i)
  {
    StageMeans(log, t);
    var stage := StageOf(log, t).value;
    assert log[q] in log;
    if stage.Reading? {
      assert Opens(log[q], t, |stage.open|);
      assert stage.open[i] in stage.open;
    } else {
      OverMeansClosed(log, t, n, q, i);
    }
  }

  /** A turn that opened and is over said turn_done. */
  lemma {:induction false} OverMeansClosed(log: seq<Entry>, t: nat, n: nat, q: nat, i: nat)
    requires StageOf(log, t) == Some(Over) && q < |log| && Opens(log[q], t, n) && i < n
    ensures IsClosed(log, t, i)
  {
    var m := |log| - 1;
    var before := StageOf(log[..m], t);
    if before == Some(Over) {
      if q < m {
        OverMeansClosed(log[..m], t, n, q, i);
        var c :| 0 <= c < m && Closes(log[..m][c], t, i);
        assert Closes(log[c], t, i);
      }
    } else {
      StageMeans(log[..m], t);
      if before.value.Reading? {
        var open := before.value.open;
        assert q < m && Opens(log[..m][q], t, |open|);
        assert open[i] in open;
        var c :| 0 <= c < m && Closes(log[..m][c], t, i);
        assert Closes(log[c], t, i);
      }
    }
  }

  /** One turn per socket: when a later turn says its first word, every slot of an earlier
      turn has closed, and the earlier turn never speaks again. */
  lemma {:induction false} TurnsDoNotOverlap(events: seq<Event>, t: nat, u: nat, p: nat)
    requires var s := Run(events); 0 < t < u && p < |s.log| && s.log[p].turn == u
    ensures var log := Run(events).log;
            && (forall q :: p <= q < |log| ==> log[q].turn != t)
            && forall q, n: nat, i: nat :: 0 <= q < |log| && Opens(log[q], t, n) && i < n ==> IsClosed(log[..p], t, i)
  {
    var s := Run(events);
    EarlierIsSilent(events, t, u, p);
    forall q, n: nat, i: nat | 0 <= q < |s.log| && Opens(s.log[q], t, n) && i < n
      ensures IsClosed(s.log[..p], t, i)
    {
      EverySlotIsClosed(events, t, n, q, i);
      ClosedEarlier(s.log, t, i, p);
    }
  }

  lemma {:induction false} ClosedEarlier(log: seq<Entry>, t: nat, i: nat, p: nat)
    requires p <= |log| && IsClosed(log, t, i) && forall q :: p <= q < |log| ==> log[q].turn != t
    ensures IsClosed(log[..p], t, i)
  {
    var c :| 0 <= c < |log| && Closes(log[c], t, i);
    assert c < p && Closes(log[..p][c], t, i);
  }

  /** After the first word of a later turn nothing of this one comes. */
  lemma {:induction false} EarlierIsSilent(events: seq<Event>, t: nat, u: nat, p: nat)
    requires var s := Run(events); 0 < t < u && p < |s.log| && s.log[p].turn == u
    ensures var s := Run(events); t < |s.tasks| && !InFlight(s, t) && forall q :: p <= q < |s.log| ==> s.log[q].turn != t
  {
    var s := Run(events);
    RunIsValid(events);
    assert s.log[p] in s.log && t < |s.tasks|;
  }

  // --- stopping ---------------------------------------------------------

  /** Step n of the run sets a stop event while turn t is in flight. */
  predicate StopsTurn(events: seq<Event>, n: nat, t: nat)
    requires n < |events|
  {
    InFlight(Run(events[..n]), t) && Stops(Run(events[..n]), events[n])
  }

  lemma {:induction false} FiredMeansStopped(events: seq<Event>, t: nat)
    requires t in Run(events).fired
    ensures exists n: nat :: n < |events| && StopsTurn(events, n, t)
  {
    var last := |events| - 1;
    var s := Run(events[..last]);
    RunIsValid(events[..last]);
    FiredOnlyGrows(s, events[last]);
    if t in s.fired {
      FiredMeansStopped(events[..last], t);
      var n: nat :| n < last && StopsTurn(events[..last], n, t);
      assert events[..last][..n] == events[..n];
      assert StopsTurn(events, n, t);
    } else {
      StopsTheLast(s, events[last]);
      assert StopsTurn(events, last, t);
    }
  }

  lemma {:induction false} StopsTheLast(s: Session, e: Event)
    requires GateOk(s) && Stops(s, e)
    ensures InFlight(s, s.event)
  {
    if e.Sent? {
      OnlyTheLast(s, e.turn);
    }
  }

  lemma {:induction false} InterruptionsAreFired(events: seq<Event>)
    ensures forall x :: x in Run(events).log && x.frame.MessageDone? && x.frame.finish == Interrupted ==> x.turn in Run(events).fired
  {
    if events != [] {
      var last := |events| - 1;
      var s, s', e := Run(events[..last]), Run(events), events[last];
      InterruptionsAreFired(events[..last]);
      RunIsValid(events[..last]);
      FiredOnlyGrows(s, e);
      OneFrameAStep(s, e);
      if s'.log != s.log {
        var x :| s'.log == s.log + [x] && Sends(s, e, x);
        if x.frame.MessageDone? {
          assert SlotOk(s, e.turn, e.slot);
          assert s'.log[|s.log|] == x;
          assert SlotEffect(s, e).said == Some(x);
          MessageDoneTells(s, e);
        }
      }
    }
  }

  lemma {:induction false} MessageDoneTells(s: Session, e: Event)
    requires e.Close? && HasSlot(s, e.turn, e.slot) && SlotEffect(s, e).said.Some? && SlotEffect(s, e).said.value.frame.MessageDone?
    ensures SlotEffect(s, e).said.value.turn == e.turn && SlotEffect(s, e).said.value.frame.finish == SlotAt(s, e.turn, e.slot).finish
  {
  }

  /** A stop is local to its turn: a slot reported as interrupted belongs to a turn that was
      stopped, or could not be sent to, while it was in flight. */
  lemma {:induction false} StopIsTurnLocal(events: seq<Event>, q: nat)
    requires q < |Run(events).log| && Run(events).log[q].frame.MessageDone? && Run(events).log[q].frame.finish == Interrupted
    ensures exists n: nat :: n < |events| && StopsTurn(events, n, Run(events).log[q].turn)
  {
    var x := Run(events).log[q];
    InterruptionsAreFired(events);
    assert x in Run(events).log;
    FiredMeansStopped(events, x.turn);
  }

  /** A stop is heard: after it every streaming slot of the turn in flight can end at once
      as interrupted; and a new turn starts unstopped. */
  lemma {:induction false} StopReachesEverySlot(events: seq<Event>, e: Event, t: nat, i: nat)
    requires var s := Run(events); Stops(s, e) && HasSlot(Next(s, e), t, i) && SlotAt(Next(s, e), t, i).pc.Streaming?
    ensures var s' := Next(Run(events), e);
            SlotEffect(s', StopSeen(t, i)) == Done(SlotAt(s', t, i), Interrupted)
  {
    var s := Run(events);
    RunIsValid(events);
    NextIsValid(s, e);
    assert SlotOk(Next(s, e), t, i);
    StoppedSlotCanEnd(s, e, t, i);
  }

  lemma {:induction false} StoppedSlotCanEnd(s: Session, e: Event, t: nat, i: nat)
    requires GateOk(s) && GateOk(Next(s, e)) && Stops(s, e)
    requires HasSlot(Next(s, e), t, i) && SlotAt(Next(s, e), t, i).pc == Streaming(t)
    ensures SlotEffect(Next(s, e), StopSeen(t, i)) == Done(SlotAt(Next(s, e), t, i), Interrupted)
  {
    StopsTheLast(s, e);
    OnlyTheLast(Next(s, e), t);
    StopsFires(s, e);
  }

  lemma {:induction false} StopsFires(s: Session, e: Event)
    requires Stops(s, e)
    ensures s.event in Next(s, e).fired && Next(s, e).event == s.event
  {
  }

  lemma {:induction false} NewTurnIsUnstopped(events: seq<Event>, e: Event)
    requires |Next(Run(events), e).tasks| > |Run(events).tasks|
    ensures Next(Run(events), e).event !in Next(Run(events), e).fired
  {
    RunIsValid(events);
    TasksOnlyMove(Run(events), e);
  }

  // --- the account ------------------------------------------------------

  /** Reply accounting: a reply handed over for storage is not blank and is the provider's
      chunks from the first on; the client received all of it or all but the last chunk; and
      one that counts as complete is the whole stream, and was received in full. */
  lemma {:induction false} RepliesAreAccountedFor(events: seq<Event>, k: nat)
    requires k < |Run(events).handed|
    ensures var s := Run(events);
            var r := s.handed[k];
            var script, heard := Script(s, r.turn, r.slot), Heard(s.log, r.turn, r.slot);
            && !Blank(r.text) && heard <= r.text
            && (exists taken: nat :: taken <= |script| && r.text == Concat(script[..taken])
                  && (heard == r.text || (taken > 0 && heard == Concat(script[..taken - 1]))))
            && (r.finish == Complete ==> heard == r.text == Concat(script))
  {
    var s := Run(events);
    var r := s.handed[k];
    RunIsValid(events);
    assert ReplyOk(s, r);
    var script, heard := Script(s, r.turn, r.slot), Heard(s.log, r.turn, r.slot);
    var taken: nat :| Accounts(s, r, taken);
    assert script[..|script|] == script;
    FollowsIsPrefix(heard, script, taken, r.text, r.finish);
    assert taken <= |script| && r.text == Concat(script[..taken]);
  }

  lemma {:induction false} RunThenStep(events: seq<Event>, e: Event)
    ensures Run(events + [e]) == Next(Run(events), e)
  {
    assert (events + [e])[..|events|] == events;
  }

  /** A session whose first turn has sent turn_start for one slot. */
  function OneSlot(slot: Slot, chunk: string, log: seq<Entry>): Session {
    Session(Receiving, [Generating([slot])], 1, {}, map[1 := [[chunk]]], [Entry(1, TurnStart(1), true)] + log, [])
  }

  lemma {:induction false} OneSlotMoves(slot: Slot, chunk: string, log: seq<Entry>, e: Event)
    requires OfSlot(e) && !e.Record? && !e.Close? && e.turn == 1 && e.slot == 0
    ensures var effect := StreamEffect(slot, [chunk], 1, 0, 1, {}, e);
            !effect.fires ==>
              Next(OneSlot(slot, chunk, log), e) == OneSlot(effect.slot, chunk, log + if effect.said.Some? then [effect.said.value] else [])
  {
    var s := OneSlot(slot, chunk, log);
    var effect := SlotEffect(s, e);
    assert SlotAt(s, 1, 0) == slot && Script(s, 1, 0) == [chunk];
    assert [slot][0 := effect.slot] == [effect.slot];
    assert s.tasks[0 := Generating([effect.slot])] == [Generating([effect.slot])];
    if effect.said.Some? {
      assert s.log + [effect.said.value] == [Entry(1, TurnStart(1), true)] + (log + [effect.said.value]);
    } else {
      assert log + [] == log;
    }
  }

  /** A timeout in the middle of a send: the reply is stored as failed, with a chunk that
      the client never got. */
  lemma {:induction false} FailedReplyCanBeAheadOfTheClient(chunk: string)
    requires !Blank(chunk)
    ensures exists events :: Run(events).handed == [HandedReply(1, 0, chunk, Failed, Stored)] && Heard(Run(events).log, 1, 0) == ""
  {
    var events := StreamsThenFails(chunk);
    RunThenStep(events, Record(1, 0, Stored));
    FailedSlotHands(chunk);
    assert Run(events + [Record(1, 0, Stored)]).handed == [HandedReply(1, 0, chunk, Failed, Stored)];
  }

  lemma {:induction false} StreamsThenFails(chunk: string) returns (events: seq<Event>)
    ensures Run(events) == OneSlot(Slot(Finishing, 1, chunk, Failed), chunk, [Entry(1, Content(0, chunk), false)])
  {
    events := StreamsAChunk(chunk);
    events := OneMore(events, Slot(Sending(1, chunk), 1, chunk, Complete), chunk, [], StreamFails(1, 0, false));
    assert [] + [Entry(1, Content(0, chunk), false)] == [Entry(1, Content(0, chunk), false)];
  }

  lemma {:induction false} StreamsAChunk(chunk: string) returns (events: seq<Event>)
    ensures Run(events) == OneSlot(Slot(Sending(1, chunk), 1, chunk, Complete), chunk, [])
  {
    events := [UserMessage(true), Begin(1, [[chunk]], true)];
    OpensOneSlot(chunk);
    events := OneMoreQuiet(events, FRESH_SLOT, Slot(Streaming(1), 0, "", Complete), chunk, OpenStream(1, 0));
    assert "" + chunk == chunk;
    events := OneMoreQuiet(events, Slot(Streaming(1), 0, "", Complete), Slot(Sending(1, chunk), 1, chunk, Complete), chunk, Append(1, 0));
  }

  lemma {:induction false} OneMoreQuiet(events: seq<Event>, slot: Slot, slot': Slot, chunk: string, e: Event) returns (events': seq<Event>)
    requires Run(events) == OneSlot(slot, chunk, []) && OfSlot(e) && !e.Record? && !e.Close? && !e.Sent? && e.turn == 1 && e.slot == 0
    requires StreamEffect(slot, [chunk], 1, 0, 1, {}, e) == Still(slot')
    ensures Run(events') == OneSlot(slot', chunk, [])
  {
    events' := OneMore(events, slot, chunk, [], e);
  }

  lemma {:induction false} OneMore(events: seq<Event>, slot: Slot, chunk: string, log: seq<Entry>, e: Event) returns (events': seq<Event>)
    requires Run(events) == OneSlot(slot, chunk, log) && OfSlot(e) && !e.Record? && !e.Close? && !e.Sent? && e.turn == 1 && e.slot == 0
    ensures var effect := StreamEffect(slot, [chunk], 1, 0, 1, {}, e);
            Run(events') == OneSlot(effect.slot, chunk, log + if effect.said.Some? then [effect.said.value] else [])
  {
    events' := events + [e];
    RunThenStep(events, e);
    OneSlotMoves(slot, chunk, log, e);
  }

  lemma {:induction false} OpensOneSlot(chunk: string)
    ensures Run([UserMessage(true), Begin(1, [[chunk]], true)]) == OneSlot(FRESH_SLOT, chunk, [])
  {
    RunThenStep([], UserMessage(true));
    RunThenStep([UserMessage(true)], Begin(1, [[chunk]], true));
    assert [] + [UserMessage(true)] == [UserMessage(true)];
    assert [UserMessage(true)] + [Begin(1, [[chunk]], true)] == [UserMessage(true), Begin(1, [[chunk]], true)];
    assert FreshSlots(1) == [FRESH_SLOT];
  }

  lemma {:induction false} FailedSlotHands(chunk: string)
    requires !Blank(chunk)
    ensures var s := OneSlot(Slot(Finishing, 1, chunk, Failed), chunk, [Entry(1, Content(0, chunk), false)]);
            && Next(s, Record(1, 0, Stored)).handed == [HandedReply(1, 0, chunk, Failed, Stored)]
            && Next(s, Record(1, 0, Stored)).log == s.log && Heard(s.log, 1, 0) == ""
  {
    var s := OneSlot(Slot(Finishing, 1, chunk, Failed), chunk, [Entry(1, Content(0, chunk), false)]);
    RecordingHands(s, 1, 0, Stored);
    UnsentIsNotHeard(chunk);
  }

  lemma {:induction false} RecordingHands(s: Session, t: nat, i: nat, storing: Storing)
    requires HasSlot(s, t, i) && SlotAt(s, t, i).pc.Finishing? && !Blank(SlotAt(s, t, i).reply)
    ensures var s', slot := Next(s, Record(t, i, storing)), SlotAt(s, t, i);
            s'.log == s.log && s'.handed == s.handed + [HandedReply(t, i, slot.reply, slot.finish, storing)]
  {
  }

  lemma {:induction false} UnsentIsNotHeard(chunk: string)
    ensures Heard([Entry(1, TurnStart(1), true)] + [Entry(1, Content(0, chunk), false)], 1, 0) == ""
  {
    var start, last := Entry(1, TurnStart(1), true), Entry(1, Content(0, chunk), false);
    HeardGrows([], start, 1, 0);
    HeardGrows([start], last, 1, 0);
    assert [] + [start] == [start];
  }

  /** Once a turn is over, a slot handed a reply over exactly when it closed with
      message_done, which carries a message id exactly when the insert was flushed, whatever
      became of the commit; and it handed over at most one. */
  lemma {:induction false} OneReplyPerMessageDone(events: seq<Event>, t: nat, i: nat, finish: Reason, named: bool)
    requires t > 0 && !InFlight(Run(events), t)
    ensures IsHanded(Run(events), t, i, finish, named) <==> IsDone(Run(events).log, t, i, finish, named)
    ensures forall j, k :: 0 <= j < k < |Run(events).handed| ==>
      Run(events).handed[j].turn != Run(events).handed[k].turn || Run(events).handed[j].slot != Run(events).handed[k].slot
  {
    RunIsValid(events);
    assert DoneOk(Run(events), t, i, finish, named);
  }

  // --- the session object -----------------------------------------------

  class ChatSession {
    var loop: LoopPc
    var tasks: seq<TurnPc>
    var stopEvent: nat
    var fired: set<nat>
    var offered: map<nat, seq<seq<string>>>
    var log: seq<Entry>
    var handed: seq<HandedReply>

    ghost function View(): Session
      reads this
    {
      Session(loop, tasks, stopEvent, fired, offered, log, handed)
    }

    constructor ()
      ensures View() == CONNECTED && Valid(View())
    {
      loop, tasks, stopEvent := Receiving, [], 0;
      fired, offered, log, handed := {}, map[], [], [];
      new;
      ConnectedIsValid();
    }

    predicate IsBusy()
      reads this
      ensures IsBusy() == Busy(View())
    {
      tasks != [] && !tasks[|tasks| - 1].Ended?
    }

    method Send(turn: nat, frame: Frame, ok: bool)
      modifies this`log
      ensures View() == Told(old(View()), turn, frame, ok)
    {
      log := log + [Entry(turn, frame, ok)];
    }

    method Start()
      modifies this`stopEvent, this`tasks
      ensures View() == Started(old(View()))
    {
      stopEvent := stopEvent + 1;
      tasks := tasks + [Preparing];
    }

    method Stop()
      modifies this`fired
      ensures View() == Stopped(old(View()))
    {
      if IsBusy() {
        fired := fired + {stopEvent};
      }
    }

    /** One pass of the receive loop. */
    method Receive(e: Event)
      requires OfClient(e)
      modifies this
      ensures View() == ClientStep(old(View()), e)
    {
      if loop.Gone? {
        return;
      }
      if e.Disconnect? {
        Stop();
        loop := Gone;
      } else if loop.AwaitingTurn? {
        if e.Resume? {
          Send(0, Notice("stopped"), e.ok);
          loop := Receiving;
        }
      } else {
        match e {
          case Ping(ok) => Send(0, Notice("pong"), ok);
          case Malformed(ok) => Send(0, Notice("invalid_payload"), ok);
          case StopAsked =>
            Stop();
            loop := AwaitingTurn;
          case UserMessage(ok) =>
            if IsBusy() {
              Send(0, Notice("busy"), ok);
            } else {
              Start();
            }
          case _ =>
        }
      }
    }

    method SetSlot(t: nat, i: nat, slot: Slot)
      requires HasSlot(View(), t, i)
      modifies this`tasks
      ensures View() == Apply(old(View()), t, i, Still(slot))
    {
      tasks := tasks[t - 1 := Generating(tasks[t - 1].slots[i := slot])];
    }

    /** The streaming loop: append a chunk, wait for its send, and on a failed send set the
        session's event and leave. */
    method Relay(e: Event)
      requires OfSlot(e) && HasSlot(View(), e.turn, e.slot) && (e.Append? || e.Sent?)
      modifies this
      ensures View() == Apply(old(View()), e.turn, e.slot, SlotEffect(old(View()), e))
    {
      var t, i := e.turn, e.slot;
      var slot := tasks[t - 1].slots[i];
      if e.Append? {
        var script := if t in offered && i < |offered[t]| then offered[t][i] else [];
        if slot.pc.Streaming? && slot.taken < |script| {
          var chunk := script[slot.taken];
          slot := slot.(pc := Sending(slot.pc.watch, chunk), taken := slot.taken + 1, reply := slot.reply + chunk);
        }
      } else if slot.pc.Sending? {
        Send(t, Content(i, slot.pc.chunk), e.ok);
        if e.ok {
          slot := slot.(pc := Streaming(slot.pc.watch));
        } else {
          fired := fired + {stopEvent};
          slot := slot.(pc := Finishing, finish := Interrupted);
        }
      }
      SetSlot(t, i, slot);
    }

    /** Opening a stream, and the ends of the streaming loop that are not exceptions. */
    method OpenOrEnd(e: Event)
      requires OfSlot(e) && HasSlot(View(), e.turn, e.slot) && (e.OpenStream? || e.StopSeen? || e.StreamEnd?)
      modifies this
      ensures View() == Apply(old(View()), e.turn, e.slot, SlotEffect(old(View()), e))
    {
      var t, i := e.turn, e.slot;
      var slot := tasks[t - 1].slots[i];
      if e.OpenStream? {
        if slot.pc.Idle? {
          slot := slot.(pc := Streaming(stopEvent));
        }
      } else {
        var script := if t in offered && i < |offered[t]| then offered[t][i] else [];
        if slot.pc.Streaming? && (if e.StopSeen? then slot.pc.watch in fired else slot.taken >= |script|) {
          slot := slot.(pc := Finishing, finish := if stopEvent in fired then Interrupted else Complete);
        }
      }
      SetSlot(t, i, slot);
    }

    /** An exception, wherever the loop stands. */
    method Fail(e: Event)
      requires e.StreamFails? && HasSlot(View(), e.turn, e.slot)
      modifies this
      ensures View() == Apply(old(View()), e.turn, e.slot, SlotEffect(old(View()), e))
    {
      var t, i := e.turn, e.slot;
      var slot := tasks[t - 1].slots[i];
      if slot.pc.Sending? {
        Send(t, Content(i, slot.pc.chunk), e.reached);
        slot := slot.(pc := Finishing, finish := Failed);
      } else if slot.pc.Idle? || slot.pc.Streaming? {
        slot := slot.(pc := Finishing, finish := Failed);
      }
      SetSlot(t, i, slot);
    }

    /** The rest of _generate_slot: store the reply unless it is blank, and close. */
    method CloseSlot(e: Event)
      requires (e.Record? || e.Close?) && HasSlot(View(), e.turn, e.slot)
      modifies this
      ensures View() == Apply(old(View()), e.turn, e.slot, SlotEffect(old(View()), e))
    {
      var t, i := e.turn, e.slot;
      var slot := tasks[t - 1].slots[i];
      if e.Record? {
        if slot.pc.Finishing? && !Blank(slot.reply) {
          handed := handed + [HandedReply(t, i, slot.reply, slot.finish, e.storing)];
          slot := slot.(pc := Recorded(!e.storing.Unflushed?));
        }
      } else if slot.pc.Finishing? && Blank(slot.reply) {
        Send(t, Error(Some(i)), e.ok);
        slot := slot.(pc := Shut);
      } else if slot.pc.Recorded? {
        Send(t, MessageDone(i, slot.finish, slot.pc.named), e.ok);
        slot := slot.(pc := Shut);
      }
      SetSlot(t, i, slot);
    }

    /** run_turn around its slots. */
    method AdvanceTurn(e: Event)
      requires !OfClient(e) && !OfSlot(e)
      modifies this
      ensures View() == TurnStep(old(View()), e)
    {
      var t := e.turn;
      if t == 0 || t > |tasks| || tasks[t - 1].Ended? {
        return;
      }
      var task := tasks[t - 1];
      match e {
        case Refuse(_, at, ok) =>
          if task.Preparing? {
            Send(t, Error(at), ok);
            tasks := tasks[t - 1 := Ended];
          }
        case Abandon(_) =>
          if task.Preparing? {
            tasks := tasks[t - 1 := Ended];
          }
        case Begin(_, scripts, ok) =>
          if task.Preparing? {
            offered := offered[t := scripts];
            Send(t, TurnStart(|scripts|), ok);
            tasks := tasks[t - 1 := if ok then Generating(FreshSlots(|scripts|)) else Ended];
          }
        case Finish(_, ok) =>
          if AllShut(task) {
            Send(t, TurnDone, ok);
            tasks := tasks[t - 1 := Ended];
          }
        case CloseFails(_) =>
          if AllShut(task) {
            tasks := tasks[t - 1 := Ended];
          }
      }
    }

    /** Let one event happen; the session's invariant survives it. */
    method Handle(e: Event)
      requires Valid(View())
      modifies this
      ensures View() == Next(old(View()), e) && Valid(View())
    {
      NextIsValid(View(), e);
      if OfClient(e) {
        Receive(e);
      } else if !OfSlot(e) {
        AdvanceTurn(e);
      } else if 1 <= e.turn <= |tasks| && tasks[e.turn - 1].Generating? && e.slot < |tasks[e.turn - 1].slots| {
        if e.Append? || e.Sent? {
          Relay(e);
        } else if e.Record? || e.Close? {
          CloseSlot(e);
        } else if e.StreamFails? {
          Fail(e);
        } else {
          OpenOrEnd(e);
        }
      }
    }
  }
}

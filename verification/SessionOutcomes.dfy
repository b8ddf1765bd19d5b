/** What a session says and does outside its slots, by what it was asked: every answer has
    its question, and every question its answer. */
module SessionOutcomes {
  import opened Wrappers
  import opened ChatSession

  // --- answers ----------------------------------------------------------

  /** A frame that no slot sends. */
  predicate OutsideSlots(frame: Frame) {
    frame.Notice? || frame.TurnStart? || frame.TurnDone?
  }

  predicate IsAnswer(s: Session, e: Event, code: string, ok: bool) {
    || (code == "pong" && e == Ping(ok) && s.loop.Receiving?)
    || (code == "invalid_payload" && e == Malformed(ok) && s.loop.Receiving?)
    || (code == "busy" && e == UserMessage(ok) && s.loop.Receiving? && InFlight(s, |s.tasks|))
    || (code == "stopped" && e == Resume(ok) && s.loop.AwaitingTurn?)
  }

  /** The event, met in this state, makes the server send this frame: pong for a ping, and so
      on; turn_start when a turn that is being prepared begins, with a slot for each provider;
      turn_done when the last slot of a turn has closed. */
  predicate Asks(s: Session, e: Event, x: Entry) {
    match x.frame
    case Notice(code) =>
      x.turn == 0 && IsAnswer(s, e, code, x.delivered)
    case TurnStart(n) =>
      && e.Begin? && e.turn == x.turn && e.ok == x.delivered && |e.scripts| == n
      && 1 <= x.turn <= |s.tasks| && s.tasks[x.turn - 1].Preparing?
    case TurnDone => e == Finish(x.turn, x.delivered) && 1 <= x.turn <= |s.tasks| && AllShut(s.tasks[x.turn - 1])
    case _ => false
  }

  predicate AskedAt(events: seq<Event>, x: Entry, n: nat)
    requires n < |events|
  {
    Asks(Run(events[..n]), events[n], x)
  }

  ghost predicate Asked(events: seq<Event>, x: Entry) {
    exists n: nat :: n < |events| && AskedAt(events, x, n)
  }

  lemma {:induction false} AskedGrows(events: seq<Event>, x: Entry)
    requires events != []
    ensures Asked(events, x) <==> Asked(events[..|events| - 1], x) || Asks(Run(events[..|events| - 1]), events[|events| - 1], x)
  {
    var last := |events| - 1;
    if Asked(events, x) {
      var n: nat :| n < |events| && AskedAt(events, x, n);
      if n < last {
        assert events[..last][..n] == events[..n];
        assert AskedAt(events[..last], x, n);
      }
    }
    if Asked(events[..last], x) {
      var n: nat :| n < last && AskedAt(events[..last], x, n);
      assert events[..last][..n] == events[..n];
      assert AskedAt(events, x, n);
    }
    assert Asks(Run(events[..last]), events[last], x) ==> AskedAt(events, x, last);
  }

  /** The frames of one step. */
  lemma {:induction false} ClientAnswers(s: Session, e: Event, x: Entry)
    requires OfClient(e) && OutsideSlots(x.frame)
    ensures Asks(s, e, x) <==> Next(s, e).log == s.log + [x]
    ensures Next(s, e).log == s.log || exists y :: Next(s, e).log == s.log + [y]
  {
    var s' := Next(s, e);
    if s'.log != s.log {
      var y := s'.log[|s.log|];
      assert s'.log == s.log + [y];
      SameLast(s.log, x, y);
    } else {
      NotLonger(s.log, x);
    }
  }

  lemma {:induction false} TurnAnswers(s: Session, e: Event, x: Entry)
    requires !OfClient(e) && !OfSlot(e) && OutsideSlots(x.frame)
    ensures Asks(s, e, x) <==> Next(s, e).log == s.log + [x]
    ensures Next(s, e).log == s.log || exists y :: Next(s, e).log == s.log + [y]
  {
    var s' := Next(s, e);
    if s'.log != s.log {
      var y := s'.log[|s.log|];
      assert s'.log == s.log + [y];
      SameLast(s.log, x, y);
    } else {
      NotLonger(s.log, x);
    }
  }

  lemma {:induction false} SlotAnswers(s: Session, e: Event, x: Entry)
    requires OfSlot(e) && OutsideSlots(x.frame)
    ensures !Asks(s, e, x) && Next(s, e).log != s.log + [x]
    ensures Next(s, e).log == s.log || exists y :: Next(s, e).log == s.log + [y]
  {
    NotLonger(s.log, x);
    if HasSlot(s, e.turn, e.slot) {
      var said := SlotEffect(s, e).said;
      SlotEffectFits(s, e);
      if said.Some? {
        SameLast(s.log, x, said.value);
      }
    }
  }

  lemma {:induction false} SameLast(log: seq<Entry>, x: Entry, y: Entry)
    ensures log + [x] == log + [y] <==> x == y
  {
    assert (log + [x])[|log|] == x && (log + [y])[|log|] == y;
  }

  lemma {:induction false} NotLonger(log: seq<Entry>, x: Entry)
    ensures log != log + [x]
  {
    assert |log + [x]| == |log| + 1;
  }

  lemma {:induction false} StepAnswers(s: Session, e: Event, x: Entry)
    requires OutsideSlots(x.frame)
    ensures x in Next(s, e).log <==> x in s.log || Asks(s, e, x)
  {
    if OfClient(e) {
      ClientAnswers(s, e, x);
    } else if OfSlot(e) {
      SlotAnswers(s, e, x);
    } else {
      TurnAnswers(s, e, x);
    }
    var s' := Next(s, e);
    if s'.log != s.log {
      var y :| s'.log == s.log + [y];
      SameLast(s.log, x, y);
      assert x in s'.log <==> x in s.log || x == y;
    } else {
      NotLonger(s.log, x);
    }
  }

  /** Over every run, a notice, a turn_start or a turn_done was sent exactly when it was asked
      for. */
  lemma {:induction false} EveryAnswerIsAsked(events: seq<Event>, x: Entry)
    requires OutsideSlots(x.frame)
    ensures x in Run(events).log <==> Asked(events, x)
  {
    if events != [] {
      var n := |events| - 1;
      EveryAnswerIsAsked(events[..n], x);
      AskedGrows(events, x);
      StepAnswers(Run(events[..n]), events[n], x);
    }
  }

  /** A stop is answered once the turn is over or the grace has passed, and the loop goes on. */
  lemma {:induction false} StopIsAnswered(s: Session, ok: bool)
    requires s.loop.Receiving?
    ensures var s' := Next(Next(s, StopAsked), Resume(ok));
            s'.loop.Receiving? && s'.log == s.log + [Entry(0, Notice("stopped"), ok)] && s'.tasks == s.tasks
  {
  }

  // --- tasks ------------------------------------------------------------

  /** A message that comes while the loop receives and no turn is in flight. */
  predicate StartsTurn(s: Session, e: Event) {
    e.UserMessage? && s.loop.Receiving? && forall t :: 1 <= t <= |s.tasks| ==> !InFlight(s, t)
  }

  function TurnsStarted(events: seq<Event>): nat {
    if events == [] then 0
    else TurnsStarted(events[..|events| - 1]) + if StartsTurn(Run(events[..|events| - 1]), events[|events| - 1]) then 1 else 0
  }

  /** What ends a turn: a refusal or a failure while it is prepared, a turn_start that does not
      reach the client, or the word after its last slot. */
  predicate EndsTurn(s: Session, e: Event, t: nat) {
    && 1 <= t <= |s.tasks| && !OfClient(e) && !OfSlot(e) && e.turn == t
    && match e
       case Refuse(_, _, _) => s.tasks[t - 1].Preparing?
       case Abandon(_) => s.tasks[t - 1].Preparing?
       case Begin(_, _, ok) => s.tasks[t - 1].Preparing? && !ok
       case Finish(_, _) => AllShut(s.tasks[t - 1])
       case CloseFails(_) => AllShut(s.tasks[t - 1])
  }

  predicate EndsAt(events: seq<Event>, t: nat, n: nat)
    requires n < |events|
  {
    EndsTurn(Run(events[..n]), events[n], t)
  }

  ghost predicate WasEnded(events: seq<Event>, t: nat) {
    exists n: nat :: n < |events| && EndsAt(events, t, n)
  }

  lemma {:induction false} EndedGrows(events: seq<Event>, t: nat)
    requires events != []
    ensures WasEnded(events, t) <==> WasEnded(events[..|events| - 1], t) || EndsTurn(Run(events[..|events| - 1]), events[|events| - 1], t)
  {
    var last := |events| - 1;
    if WasEnded(events, t) {
      var n: nat :| n < |events| && EndsAt(events, t, n);
      if n < last {
        assert events[..last][..n] == events[..n];
        assert EndsAt(events[..last], t, n);
      }
    }
    if WasEnded(events[..last], t) {
      var n: nat :| n < last && EndsAt(events[..last], t, n);
      assert events[..last][..n] == events[..n];
      assert EndsAt(events, t, n);
    }
    assert EndsTurn(Run(events[..last]), events[last], t) ==> EndsAt(events, t, last);
  }

  predicate IsOver(s: Session, t: nat) {
    1 <= t <= |s.tasks| && s.tasks[t - 1].Ended?
  }

  lemma {:induction false} StepEnds(s: Session, e: Event, t: nat)
    ensures IsOver(Next(s, e), t) <==> IsOver(s, t) || EndsTurn(s, e, t)
  {
  }

  lemma {:induction false} StepStarts(s: Session, e: Event)
    requires GateOk(s)
    ensures |Next(s, e).tasks| == |s.tasks| + if StartsTurn(s, e) then 1 else 0
  {
    if s.tasks != [] {
      assert !Busy(s) <==> !InFlight(s, |s.tasks|);
    }
  }

  /** Over every run there are as many turns as messages that came while none was in flight,
      and a turn is over exactly when something has ended it. */
  lemma {:induction false} TurnsStartAndEndExactly(events: seq<Event>, t: nat)
    ensures |Run(events).tasks| == TurnsStarted(events)
    ensures 1 <= t <= |Run(events).tasks| ==> (!InFlight(Run(events), t) <==> WasEnded(events, t))
    ensures t > |Run(events).tasks| || t == 0 ==> !WasEnded(events, t)
  {
    if events != [] {
      var n := |events| - 1;
      TurnsStartAndEndExactly(events[..n], t);
      RunIsValid(events[..n]);
      EndedGrows(events, t);
      StepEnds(Run(events[..n]), events[n], t);
      StepStarts(Run(events[..n]), events[n]);
    }
  }
}

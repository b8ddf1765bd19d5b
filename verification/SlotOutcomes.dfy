/** How every slot of a turn ends, by what it met: why its stream ended, and whether it had a
    reply to hand over. */
module SlotOutcomes {
  import opened Wrappers
  import opened ChatSession
  import opened ReplyReach

  // --- the stop event ---------------------------------------------------

  ghost predicate WasStopped(events: seq<Event>, t: nat) {
    exists n: nat :: n < |events| && StopsTurn(events, n, t)
  }

  /** Over every run the stop event of a turn is set if and only if, while that turn was in
      flight, the client asked to stop, the socket went, or a send failed. */
  lemma {:induction false} FiredExactly(events: seq<Event>, t: nat)
    ensures t in Run(events).fired <==> WasStopped(events, t)
  {
    if t in Run(events).fired {
      FiredMeansStopped(events, t);
    }
    if WasStopped(events, t) {
      var n: nat :| n < |events| && StopsTurn(events, n, t);
      StoppedStaysFired(events, t, n);
    }
  }

  lemma {:induction false} StoppedStaysFired(events: seq<Event>, t: nat, n: nat)
    requires n < |events| && StopsTurn(events, n, t)
    ensures t in Run(events).fired
  {
    var last := |events| - 1;
    var s := Run(events[..last]);
    RunIsValid(events[..last]);
    if n == last {
      StopsFires(s, events[last]);
      OnlyTheLast(s, t);
    } else {
      assert events[..last][..n] == events[..n];
      StoppedStaysFired(events[..last], t, n);
      FiredOnlyGrows(s, events[last]);
    }
  }

  // --- why a stream ends ------------------------------------------------

  predicate Open(slot: Slot) {
    slot.pc.Idle? || slot.pc.Streaming? || slot.pc.Sending?
  }

  /** The event ends the stream of slot i of turn t for this reason: failed, by any
      exception; interrupted, by a send that does not get through or an end the turn was
      stopped before; complete, by the end of the provider's stream with no stop. */
  predicate EndsStream(s: Session, e: Event, t: nat, i: nat, finish: Reason) {
    && OfSlot(e) && e.turn == t && e.slot == i && HasSlot(s, t, i)
    && var pc := SlotAt(s, t, i).pc;
       var spent := SlotAt(s, t, i).taken == |Script(s, t, i)|;
       match finish
       case Failed => e.StreamFails? && Open(SlotAt(s, t, i))
       case Interrupted =>
         || (pc.Sending? && e.Sent? && !e.ok)
         || (pc.Streaming? && t in s.fired && (e.StopSeen? || (e.StreamEnd? && spent)))
       case Complete => pc.Streaming? && t !in s.fired && e.StreamEnd? && spent
  }

  predicate StreamEndsAt(events: seq<Event>, t: nat, i: nat, finish: Reason, n: nat)
    requires n < |events|
  {
    EndsStream(Run(events[..n]), events[n], t, i, finish)
  }

  ghost predicate StreamEnded(events: seq<Event>, t: nat, i: nat, finish: Reason) {
    exists n: nat :: n < |events| && StreamEndsAt(events, t, i, finish, n)
  }

  lemma {:induction false} StreamEndedGrows(events: seq<Event>, t: nat, i: nat, finish: Reason)
    requires events != []
    ensures StreamEnded(events, t, i, finish)
       <==> StreamEnded(events[..|events| - 1], t, i, finish) || EndsStream(Run(events[..|events| - 1]), events[|events| - 1], t, i, finish)
  {
    var last := |events| - 1;
    if StreamEnded(events, t, i, finish) {
      var n: nat :| n < |events| && StreamEndsAt(events, t, i, finish, n);
      SameStreamEnd(events, t, i, finish, n);
    }
    if StreamEnded(events[..last], t, i, finish) {
      var n: nat :| n < last && StreamEndsAt(events[..last], t, i, finish, n);
      SameStreamEnd(events, t, i, finish, n);
    }
    assert EndsStream(Run(events[..last]), events[last], t, i, finish) ==> StreamEndsAt(events, t, i, finish, last);
  }

  lemma {:induction false} SameStreamEnd(events: seq<Event>, t: nat, i: nat, finish: Reason, n: nat)
    requires n < |events|
    ensures n < |events| - 1 ==> StreamEndsAt(events, t, i, finish, n) == StreamEndsAt(events[..|events| - 1], t, i, finish, n)
  {
    if n < |events| - 1 {
      assert events[..|events| - 1][..n] == events[..n];
    }
  }

  predicate FinishedAs(slot: Slot, finish: Reason) {
    !Open(slot) && slot.finish == finish
  }

  lemma {:induction false} OwnStreamStepFinishes(s: Session, e: Event, finish: Reason)
    requires OfSlot(e) && HasSlot(s, e.turn, e.slot) && !e.Record? && !e.Close?
    requires s.event == e.turn && SlotOk(s, e.turn, e.slot)
    ensures FinishedAs(SlotEffect(s, e).slot, finish)
       <==> FinishedAs(SlotAt(s, e.turn, e.slot), finish) || EndsStream(s, e, e.turn, e.slot, finish)
  {
  }

  lemma {:induction false} OwnStepFinishes(s: Session, e: Event, finish: Reason)
    requires OfSlot(e) && HasSlot(s, e.turn, e.slot) && s.event == e.turn && SlotOk(s, e.turn, e.slot)
    ensures FinishedAs(SlotEffect(s, e).slot, finish)
       <==> FinishedAs(SlotAt(s, e.turn, e.slot), finish) || EndsStream(s, e, e.turn, e.slot, finish)
  {
    if !e.Record? && !e.Close? {
      OwnStreamStepFinishes(s, e, finish);
    }
  }

  /** The bookkeeping of a slot or of a reply against what has ended its stream. */
  ghost predicate SlotFinishOk(events: seq<Event>, t: nat, i: nat, finish: Reason) {
    && (HasSlot(Run(events), t, i) ==> (FinishedAs(SlotAt(Run(events), t, i), finish) <==> StreamEnded(events, t, i, finish)))
    && (StreamEnded(events, t, i, finish) ==> 1 <= t <= |Run(events).tasks| && !Run(events).tasks[t - 1].Preparing?)
  }

  lemma {:induction false} StepFinishes(s: Session, e: Event, t: nat, i: nat, finish: Reason)
    requires Valid(s) && HasSlot(s, t, i) && HasSlot(Next(s, e), t, i)
    ensures FinishedAs(SlotAt(Next(s, e), t, i), finish) <==> FinishedAs(SlotAt(s, t, i), finish) || EndsStream(s, e, t, i, finish)
  {
    if OfSlot(e) && e.turn == t && e.slot == i {
      OnlyTheLast(s, t);
      assert SlotOk(s, t, i);
      OwnStepFinishes(s, e, finish);
      ApplyKeepsTheRest(s, t, i, SlotEffect(s, e), t, i);
    } else {
      OthersKeepSlot(s, e, t, i);
    }
  }

  lemma {:induction false} StartedStaysStarted(s: Session, e: Event, t: nat)
    requires 1 <= t <= |s.tasks| && !s.tasks[t - 1].Preparing?
    ensures t <= |Next(s, e).tasks| && !Next(s, e).tasks[t - 1].Preparing?
  {
  }

  lemma {:induction false} SlotFinishes(events: seq<Event>, t: nat, i: nat, finish: Reason)
    ensures SlotFinishOk(events, t, i, finish)
  {
    if events != [] {
      var n := |events| - 1;
      var s, e := Run(events[..n]), events[n];
      SlotFinishes(events[..n], t, i, finish);
      RunIsValid(events[..n]);
      StreamEndedGrows(events, t, i, finish);
      if HasSlot(Run(events), t, i) {
        if HasSlot(s, t, i) {
          StepFinishes(s, e, t, i, finish);
        } else {
          SlotsArrive(s, e, t, i);
        }
      }
      if StreamEnded(events, t, i, finish) {
        StartedStaysStarted(s, e, t);
      }
    }
  }

  /** A slot that has ended its stream ends it no other way. */
  lemma {:induction false} PastEndsNoStream(s: Session, e: Event, t: nat, i: nat, finish: Reason)
    requires PastStreaming(s, t, i)
    ensures !EndsStream(s, e, t, i, finish)
  {
  }

  /** Over every run a reply handed over for storage has the finish reason of what ended its
      stream, and nothing else ended it: failed if and only if an exception did, interrupted if
      and only if a lost send or a stop did, complete if and only if it came to its end
      unstopped. */
  lemma {:induction false} FinishReasonsAreTrue(events: seq<Event>, k: nat, finish: Reason)
    requires k < |Run(events).handed|
    ensures var r := Run(events).handed[k]; r.finish == finish <==> StreamEnded(events, r.turn, r.slot, finish)
  {
    var last := |events| - 1;
    var s, s' := Run(events[..last]), Run(events);
    var r := s'.handed[k];
    RunIsValid(events[..last]);
    StreamEndedGrows(events, r.turn, r.slot, finish);
    if k < |s.handed| {
      HandedIsKept(s, events[last], k);
      FinishReasonsAreTrue(events[..last], k, finish);
      assert ReplyOk(s, r);
      PastEndsNoStream(s, events[last], r.turn, r.slot, finish);
    } else {
      HandsOver(s, events[last]);
      SlotFinishes(events[..last], r.turn, r.slot, finish);
    }
  }

  lemma {:induction false} HandedIsKept(s: Session, e: Event, k: nat)
    requires k < |s.handed|
    ensures k < |Next(s, e).handed| && Next(s, e).handed[k] == s.handed[k]
  {
    if Next(s, e).handed != s.handed {
      HandsOver(s, e);
    }
  }

  // --- whether there was a reply ----------------------------------------

  predicate Rejects(x: Entry, t: nat, i: nat) {
    x.turn == t && x.frame == Error(Some(i))
  }

  /** A slot that closes with an error had no reply: all it ever tried to send is blank. */
  ghost predicate RejectionsOk(s: Session) {
    forall q, i: nat :: 0 <= q < |s.log| && s.log[q].turn > 0 && Rejects(s.log[q], s.log[q].turn, i) ==> Blank(Tried(s.log, s.log[q].turn, i))
  }

  /** The step that sends the error. */
  lemma {:induction false} RejectedIsBlank(s: Session, e: Event, x: Entry, i: nat)
    requires Valid(s) && SlotsTried(s) && x.turn > 0 && Rejects(x, x.turn, i) && Next(s, e).log == s.log + [x] && Sends(s, e, x)
    ensures Blank(Tried(s.log, x.turn, i))
  {
    assert Next(s, e).log[|s.log|] == x;
    if OfSlot(e) {
      SlotRejects(s, e, x, i);
      assert SlotTried(SlotAt(s, e.turn, i), Tried(s.log, e.turn, i));
    } else {
      assert StageOk(s, x.turn) && s.tasks[x.turn - 1].Preparing?;
      StageMeans(s.log, x.turn);
      NothingTried(s.log, x.turn, i);
    }
  }

  lemma {:induction false} SlotRejects(s: Session, e: Event, x: Entry, i: nat)
    requires OfSlot(e) && HasSlot(s, e.turn, e.slot) && SlotEffect(s, e).said == Some(x) && Rejects(x, x.turn, i)
    ensures x.turn == e.turn && i == e.slot && SlotAt(s, e.turn, i).pc.Finishing? && Blank(SlotAt(s, e.turn, i).reply)
  {
  }

  /** The protocol has no text of a slot after its closing. */
  lemma {:induction false} NoTextAfterClosing(log: seq<Entry>, t: nat, i: nat, q: nat, p: nat)
    requires StageOf(log, t).Some? && q < p < |log| && Rejects(log[q], t, i)
    ensures Carries(log[p], t, i) == ""
  {
    if log[p].turn == t {
      ProtocolMeans(log, t, p);
      assert Closes(log[q], t, i);
    }
  }

  lemma {:induction false} RejectedIsSilent(s: Session, e: Event, x: Entry, t: nat, i: nat, q: nat)
    requires Valid(Next(s, e)) && t > 0 && q < |s.log| && Rejects(s.log[q], t, i) && Next(s, e).log == s.log + [x]
    ensures Tried(s.log + [x], t, i) == Tried(s.log, t, i)
  {
    TriedGrows(s.log, x, t, i);
    assert StageOk(Next(s, e), t);
    NoTextAfterClosing(s.log + [x], t, i, q, |s.log|);
    assert Tried(s.log, t, i) + "" == Tried(s.log, t, i);
  }

  lemma {:induction false} RunRejects(events: seq<Event>)
    ensures RejectionsOk(Run(events))
  {
    if events != [] {
      var n := |events| - 1;
      var s, s', e := Run(events[..n]), Run(events), events[n];
      RunRejects(events[..n]);
      RunIsValid(events[..n]);
      NextIsValid(s, e);
      RunTries(events[..n]);
      OneFrameAStep(s, e);
      if s'.log != s.log {
        var x :| s'.log == s.log + [x] && Sends(s, e, x);
        forall q, i: nat | 0 <= q < |s'.log| && s'.log[q].turn > 0 && Rejects(s'.log[q], s'.log[q].turn, i)
          ensures Blank(Tried(s'.log, s'.log[q].turn, i))
        {
          if q < |s.log| {
            RejectedIsSilent(s, e, x, s.log[q].turn, i, q);
          } else {
            RejectedIsBlank(s, e, x, i);
            TriedGrows(s.log, x, x.turn, i);
            assert Tried(s.log, x.turn, i) + "" == Tried(s.log, x.turn, i);
          }
        }
      }
    }
  }

  predicate HandsAny(r: HandedReply, t: nat, i: nat) {
    r.turn == t && r.slot == i
  }

  ghost predicate HandedAny(s: Session, t: nat, i: nat) {
    exists k :: 0 <= k < |s.handed| && HandsAny(s.handed[k], t, i)
  }

  lemma {:induction false} DoneHands(events: seq<Event>, t: nat, i: nat, c: nat)
    requires var s := Run(events); t > 0 && !InFlight(s, t) && c < |s.log| && Closes(s.log[c], t, i)
    ensures HandedAny(Run(events), t, i) || Rejects(Run(events).log[c], t, i)
  {
    var s := Run(events);
    if s.log[c].frame.MessageDone? {
      var finish, named := s.log[c].frame.finish, s.log[c].frame.named;
      assert Dones(s.log[c], t, i, finish, named);
      OneReplyPerMessageDone(events, t, i, finish, named);
      var k :| 0 <= k < |s.handed| && Hands(s.handed[k], t, i, finish, named);
      assert HandsAny(s.handed[k], t, i);
    }
  }

  /** Over every run, once a turn is over each slot it opened has handed a reply over if and
      only if the text it sent, or tried to send, is not blank, whatever ended the stream; that
      text is the reply. */
  lemma {:induction false} RepliesAreHandedExactly(events: seq<Event>, t: nat, n: nat, q: nat, i: nat)
    requires var s := Run(events); t > 0 && !InFlight(s, t) && q < |s.log| && Opens(s.log[q], t, n) && i < n
    ensures var s := Run(events);
            && (HandedAny(s, t, i) <==> !Blank(Tried(s.log, t, i)))
            && forall k :: 0 <= k < |s.handed| && HandsAny(s.handed[k], t, i) ==> s.handed[k].text == Tried(s.log, t, i)
  {
    var s := Run(events);
    RunIsValid(events);
    RunTries(events);
    RunRejects(events);
    EverySlotIsClosed(events, t, n, q, i);
    if HandedAny(s, t, i) {
      var k :| 0 <= k < |s.handed| && HandsAny(s.handed[k], t, i);
      assert ReplyOk(s, s.handed[k]);
    } else {
      var c :| 0 <= c < |s.log| && Closes(s.log[c], t, i);
      DoneHands(events, t, i, c);
    }
  }
}

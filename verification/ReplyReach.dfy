/** How much of a stored reply reached the client: all of it exactly when no send of its
    text was lost. */
module ReplyReach {
  import opened Wrappers
  import opened ChatSession

  /** The text of slot i of turn t in an entry, delivered or not. */
  function Carries(x: Entry, t: nat, i: nat): string {
    if x.turn == t && x.frame.Content? && x.frame.slot == i then x.frame.delta else ""
  }

  /** The text of slot i of turn t that the server tried to send. */
  function Tried(log: seq<Entry>, t: nat, i: nat): string {
    if log == [] then "" else Tried(log[..|log| - 1], t, i) + Carries(log[|log| - 1], t, i)
  }

  /** A send that was to bring text of the slot and did not return. */
  predicate IsLost(x: Entry, t: nat, i: nat) {
    !x.delivered && Carries(x, t, i) != ""
  }

  ghost predicate NothingLost(log: seq<Entry>, t: nat, i: nat) {
    forall q :: 0 <= q < |log| ==> !IsLost(log[q], t, i)
  }

  lemma {:induction false} TriedGrows(log: seq<Entry>, x: Entry, t: nat, i: nat)
    ensures Tried(log + [x], t, i) == Tried(log, t, i) + Carries(x, t, i)
  {
    assert (log + [x])[..|log|] == log;
  }

  lemma {:induction false} SameEnd(a: string, b: string, end: string)
    ensures a + end == b + end <==> a == b
  {
    if a + end == b + end {
      assert |a + end| == |b + end|;
      assert a == (a + end)[..|a|] && b == (b + end)[..|b|];
    }
  }

  /** The client heard what was tried exactly when nothing was lost. */
  lemma {:induction false} HeardIsTriedExactly(log: seq<Entry>, t: nat, i: nat)
    ensures |Heard(log, t, i)| <= |Tried(log, t, i)|
    ensures Heard(log, t, i) == Tried(log, t, i) <==> NothingLost(log, t, i)
  {
    if log != [] {
      var n := |log| - 1;
      var before, x := log[..n], log[n];
      HeardIsTriedExactly(before, t, i);
      assert NothingLost(log, t, i) <==> NothingLost(before, t, i) && !IsLost(x, t, i);
      if !IsLost(x, t, i) {
        SameEnd(Heard(before, t, i), Tried(before, t, i), Carries(x, t, i));
      }
    }
  }

  // --- what a slot has tried to send ------------------------------------

  predicate SlotTried(slot: Slot, tried: string) {
    if slot.pc.Sending? then tried + slot.pc.chunk == slot.reply else tried == slot.reply
  }

  function Saying(effect: Effect, t: nat, i: nat): string {
    if effect.said.Some? then Carries(effect.said.value, t, i) else ""
  }

  lemma {:induction false} StreamTries(slot: Slot, script: seq<string>, t: nat, i: nat, event: nat, fired: set<nat>, e: Event, tried: string)
    requires SlotTried(slot, tried)
    ensures var effect := StreamEffect(slot, script, t, i, event, fired, e);
            SlotTried(effect.slot, tried + Saying(effect, t, i))
  {
    assert tried + "" == tried;
  }

  lemma {:induction false} ClosingTries(slot: Slot, t: nat, i: nat, e: Event, tried: string)
    requires SlotTried(slot, tried)
    ensures var effect := ClosingEffect(slot, t, i, e);
            SlotTried(effect.slot, tried + Saying(effect, t, i))
  {
    assert tried + "" == tried;
  }

  ghost predicate SlotsTried(s: Session) {
    forall t: nat, i: nat :: t > 0 && HasSlot(s, t, i) ==> SlotTried(SlotAt(s, t, i), Tried(s.log, t, i))
  }

  ghost predicate RepliesTried(s: Session) {
    forall k :: 0 <= k < |s.handed| ==> Tried(s.log, s.handed[k].turn, s.handed[k].slot) == s.handed[k].text
  }

  lemma {:induction false} NothingTried(log: seq<Entry>, t: nat, i: nat)
    requires forall e :: e in log ==> e.turn != t
    ensures Tried(log, t, i) == ""
  {
    if log != [] {
      NothingTried(log[..|log| - 1], t, i);
    }
  }

  /** Only the sends of a slot are tries of it. */
  lemma {:induction false} OthersDoNotTry(s: Session, e: Event, t: nat, i: nat)
    requires t > 0 && !(Speaking(e, t, i) && HasSlot(s, t, i))
    ensures Tried(Next(s, e).log, t, i) == Tried(s.log, t, i)
  {
    var s' := Next(s, e);
    OneFrameAStep(s, e);
    if s'.log != s.log {
      var x :| s'.log == s.log + [x] && Sends(s, e, x);
      TriedGrows(s.log, x, t, i);
      assert Tried(s.log, t, i) + "" == Tried(s.log, t, i);
    }
  }

  lemma {:induction false} OwnStepTries(s: Session, e: Event)
    requires OfSlot(e) && e.turn > 0 && HasSlot(s, e.turn, e.slot)
    requires SlotTried(SlotAt(s, e.turn, e.slot), Tried(s.log, e.turn, e.slot))
    ensures HasSlot(Next(s, e), e.turn, e.slot)
    ensures SlotTried(SlotAt(Next(s, e), e.turn, e.slot), Tried(Next(s, e).log, e.turn, e.slot))
  {
    EffectTries(s, e, Tried(s.log, e.turn, e.slot));
    AppliedTries(s, e.turn, e.slot, SlotEffect(s, e));
  }

  lemma {:induction false} AppliedTries(s: Session, t: nat, i: nat, effect: Effect)
    requires HasSlot(s, t, i) && SlotTried(effect.slot, Tried(s.log, t, i) + Saying(effect, t, i))
    ensures var s' := Apply(s, t, i, effect);
            HasSlot(s', t, i) && SlotTried(SlotAt(s', t, i), Tried(s'.log, t, i))
  {
    ApplyKeepsTheRest(s, t, i, effect, t, i);
    assert Tried(s.log, t, i) + "" == Tried(s.log, t, i);
    if effect.said.Some? {
      TriedGrows(s.log, effect.said.value, t, i);
    }
  }

  lemma {:induction false} EffectTries(s: Session, e: Event, tried: string)
    requires OfSlot(e) && HasSlot(s, e.turn, e.slot) && SlotTried(SlotAt(s, e.turn, e.slot), tried)
    ensures SlotTried(SlotEffect(s, e).slot, tried + Saying(SlotEffect(s, e), e.turn, e.slot))
  {
    var t, i := e.turn, e.slot;
    if e.Record? || e.Close? {
      ClosingTries(SlotAt(s, t, i), t, i, e, tried);
    } else {
      StreamTries(SlotAt(s, t, i), Script(s, t, i), t, i, s.event, s.fired, e, tried);
    }
  }

  lemma {:induction false} NextKeepsSlotTried(s: Session, e: Event, t: nat, i: nat)
    requires Valid(s) && SlotsTried(s) && t > 0 && HasSlot(Next(s, e), t, i)
    ensures SlotTried(SlotAt(Next(s, e), t, i), Tried(Next(s, e).log, t, i))
  {
    if HasSlot(s, t, i) {
      if OfSlot(e) && e.turn == t && e.slot == i {
        OwnStepTries(s, e);
      } else {
        OthersKeepSlot(s, e, t, i);
        OthersDoNotTry(s, e, t, i);
      }
    } else {
      SlotsArrive(s, e, t, i);
      OthersDoNotTry(s, e, t, i);
      assert StageOk(s, t);
      StageMeans(s.log, t);
      NothingTried(s.log, t, i);
    }
  }

  /** A slot that has handed its reply over says no more of it. */
  lemma {:induction false} PastDoesNotTry(s: Session, e: Event, t: nat, i: nat)
    requires t > 0 && PastStreaming(s, t, i)
    ensures Tried(Next(s, e).log, t, i) == Tried(s.log, t, i)
  {
    if Speaking(e, t, i) && HasSlot(s, t, i) {
      PastEffect(SlotAt(s, t, i), Script(s, t, i), t, i, s.event, s.fired, e);
      assert SlotEffect(s, e).said.None? || !SlotEffect(s, e).said.value.frame.Content?;
      if SlotEffect(s, e).said.Some? {
        TriedGrows(s.log, SlotEffect(s, e).said.value, t, i);
        assert Tried(s.log, t, i) + "" == Tried(s.log, t, i);
      }
    } else {
      OthersDoNotTry(s, e, t, i);
    }
  }

  lemma {:induction false} NextKeepsRepliesTried(s: Session, e: Event)
    requires Valid(s) && SlotsTried(s) && RepliesTried(s)
    ensures RepliesTried(Next(s, e))
  {
    var s' := Next(s, e);
    if s'.handed != s.handed {
      HandsOver(s, e);
    }
    forall k | 0 <= k < |s'.handed|
      ensures Tried(s'.log, s'.handed[k].turn, s'.handed[k].slot) == s'.handed[k].text
    {
      if k < |s.handed| {
        assert s'.handed[k] == s.handed[k] && ReplyOk(s, s.handed[k]);
        PastDoesNotTry(s, e, s.handed[k].turn, s.handed[k].slot);
      }
    }
  }

  lemma {:induction false} RunTries(events: seq<Event>)
    ensures SlotsTried(Run(events)) && RepliesTried(Run(events))
  {
    if events != [] {
      var n := |events| - 1;
      var s := Run(events[..n]);
      RunTries(events[..n]);
      RunIsValid(events[..n]);
      NextKeepsRepliesTried(s, events[n]);
      forall t: nat, i: nat | t > 0 && HasSlot(Run(events), t, i)
        ensures SlotTried(SlotAt(Run(events), t, i), Tried(Run(events).log, t, i))
      {
        NextKeepsSlotTried(s, events[n], t, i);
      }
    }
  }

  /** Over every run, the client has received the whole of a reply handed over for storage,
      a failed one included, if and only if no send of text of that slot was lost. */
  lemma {:induction false} ReplyIsHeardExactly(events: seq<Event>, k: nat)
    requires k < |Run(events).handed|
    ensures var s := Run(events);
            var r := s.handed[k];
            Heard(s.log, r.turn, r.slot) == r.text <==> NothingLost(s.log, r.turn, r.slot)
  {
    var s := Run(events);
    RunTries(events);
    HeardIsTriedExactly(s.log, s.handed[k].turn, s.handed[k].slot);
  }
}

/** The fixed-window limiter (app/core/ratelimit.py) on one Redis key.

    `hit` sends INCR and TTL as one atomic pipeline and, when the key has no TTL, a
    separate EXPIRE. Callers interleave between the two commands, may die there, and
    the key vanishes when its time comes. */
module RateLimit {
  import opened Wrappers

  /** A Redis counter: its value and, once EXPIRE has run, the time it disappears. */
  datatype Key = Key(count: nat, expiry: Option<int>)

  /** One answered INCR: when, in which life of the key, and with what result. */
  datatype Hit = Hit(time: int, life: nat, allowed: bool)

  /** `births` is the list of times at which the key came into being; a life is an index
      into it. `expiring` are the callers that still have to send their EXPIRE, `done`
      those whose hit has returned, with the life they counted in. */
  datatype State = State(now: int, key: Option<Key>, births: seq<int>, hits: seq<Hit>,
                         expiring: map<nat, nat>, done: map<nat, nat>)

  datatype Event = Tick(seconds: nat) | Incr(caller: nat) | Expire(caller: nat) | Die(caller: nat)

  predicate Lapsed(key: Option<Key>, now: int) {
    key.Some? && key.value.expiry.Some? && now >= key.value.expiry.value
  }

  function IncrStep(s: State, caller: nat, limit: nat): State {
    var births := if s.key.None? then s.births + [s.now] else s.births;
    var key := if s.key.None? then Key(1, None) else s.key.value.(count := s.key.value.count + 1);
    var life := if |births| == 0 then 0 else |births| - 1;
    s.(key := Some(key), births := births,
       hits := s.hits + [Hit(s.now, life, key.count <= limit)],
       expiring := if key.expiry.None? then s.expiring[caller := life] else s.expiring,
       done := if key.expiry.None? then s.done - {caller} else s.done[caller := life])
  }

  function ExpireStep(s: State, caller: nat, window: nat): State {
    if caller !in s.expiring then s
    else
      s.(key := if s.key.None? then None else Some(s.key.value.(expiry := Some(s.now + window))),
         expiring := s.expiring - {caller},
         done := s.done[caller := s.expiring[caller]])
  }

  function Next(s: State, e: Event, limit: nat, window: nat): State {
    match e
    case Tick(seconds) =>
      var now := s.now + seconds;
      s.(now := now, key := if Lapsed(s.key, now) then None else s.key)
    case Incr(caller) => if caller in s.expiring then s else IncrStep(s, caller, limit)
    case Expire(caller) => ExpireStep(s, caller, window)
    case Die(caller) => s.(expiring := s.expiring - {caller})
  }

  function RunFrom(s: State, events: seq<Event>, limit: nat, window: nat): State
    decreases |events|
  {
    if events == [] then s else RunFrom(Next(s, events[0], limit, window), events[1..], limit, window)
  }

  function Start(now: int): State {
    State(now, None, [], [], map[], map[])
  }

  // --- counting ---------------------------------------------------------

  function AllowedIn(hits: seq<Hit>, life: nat): nat {
    if hits == [] then 0
    else
      var last := hits[|hits| - 1];
      AllowedIn(hits[..|hits| - 1], life) + if last.allowed && last.life == life then 1 else 0
  }

  function AllowedBetween(hits: seq<Hit>, from: int, to: int): nat {
    if hits == [] then 0
    else
      var last := hits[|hits| - 1];
      AllowedBetween(hits[..|hits| - 1], from, to) + if last.allowed && from <= last.time <= to then 1 else 0
  }

  // --- the invariant ----------------------------------------------------

  /** The life that is running, or has just ended. */
  function Latest(s: State): nat {
    if s.births == [] then 0 else |s.births| - 1
  }

  ghost predicate KeyOk(s: State, limit: nat, window: nat) {
    s.key.Some? ==>
      && s.births != []
      && AllowedIn(s.hits, Latest(s)) == (if s.key.value.count <= limit then s.key.value.count else limit)
      && (s.key.value.expiry.Some? ==> s.now < s.key.value.expiry.value && s.births[Latest(s)] + window <= s.key.value.expiry.value)
  }

  /** Lives do not overlap, and each lasts at least a window. */
  ghost predicate BirthsOk(s: State, window: nat) {
    && (forall i :: 0 <= i < |s.births| - 1 ==> s.births[i] + window <= s.births[i + 1])
    && (s.births != [] ==> s.births[Latest(s)] <= s.now)
    && (s.key.None? && s.births != [] ==> s.births[Latest(s)] + window <= s.now)
  }

  ghost predicate HitsOk(s: State) {
    forall h :: h in s.hits ==>
      && h.life < |s.births|
      && s.births[h.life] <= h.time <= s.now
      && (h.life + 1 < |s.births| ==> h.time < s.births[h.life + 1])
      && (s.key.None? ==> h.time < s.now)
  }

  ghost predicate LimitOk(s: State, limit: nat) {
    forall life :: AllowedIn(s.hits, life) <= limit
  }

  /** A hit that has returned left its key with a TTL, for as long as that key lives. */
  ghost predicate TtlOk(s: State) {
    && (forall c :: c in s.expiring ==> s.expiring[c] < |s.births|)
    && (forall c :: c in s.done ==> s.done[c] < |s.births|)
    && (forall c :: c in s.done && s.done[c] == Latest(s) && s.key.Some? ==> s.key.value.expiry.Some?)
  }

  ghost predicate Inv(s: State, limit: nat, window: nat) {
    KeyOk(s, limit, window) && BirthsOk(s, window) && HitsOk(s) && LimitOk(s, limit) && TtlOk(s)
  }

  lemma {:induction false} NoHitsInFutureLives(hits: seq<Hit>, life: nat)
    requires forall h :: h in hits ==> h.life < life
    ensures AllowedIn(hits, life) == 0
  {
    if hits != [] {
      NoHitsInFutureLives(hits[..|hits| - 1], life);
    }
  }

  lemma {:induction false} AllowedGrows(hits: seq<Hit>, h: Hit, life: nat)
    ensures AllowedIn(hits + [h], life) == AllowedIn(hits, life) + if h.allowed && h.life == life then 1 else 0
  {
    assert (hits + [h])[..|hits|] == hits;
  }

  lemma {:induction false} IncrKeepsLimit(s: State, caller: nat, limit: nat, window: nat)
    requires Inv(s, limit, window)
    ensures var s' := IncrStep(s, caller, limit);
            LimitOk(s', limit) && AllowedIn(s'.hits, Latest(s')) == (if s'.key.value.count <= limit then s'.key.value.count else limit)
  {
    var s' := IncrStep(s, caller, limit);
    var h := s'.hits[|s.hits|];
    NoHitsInFutureLives(s.hits, |s.births|);
    forall life
      ensures AllowedIn(s'.hits, life) <= limit
    {
      assert AllowedIn(s.hits, life) <= limit;
      AllowedGrows(s.hits, h, life);
    }
    AllowedGrows(s.hits, h, Latest(s'));
  }

  lemma {:induction false} IncrKeepsTimes(s: State, caller: nat, limit: nat, window: nat)
    requires window > 0 && BirthsOk(s, window) && HitsOk(s) && (s.key.Some? ==> s.births != [])
    ensures BirthsOk(IncrStep(s, caller, limit), window) && HitsOk(IncrStep(s, caller, limit))
  {
    var s' := IncrStep(s, caller, limit);
    var h := s'.hits[|s.hits|];
    forall x | x in s'.hits
      ensures && x.life < |s'.births| && s'.births[x.life] <= x.time <= s'.now
              && (x.life + 1 < |s'.births| ==> x.time < s'.births[x.life + 1])
              && (s'.key.None? ==> x.time < s'.now)
    {
      if x in s.hits {
        assert s'.births[x.life] == s.births[x.life];
      } else {
        assert x == h;
      }
    }
  }

  lemma {:induction false} IncrKeepsKey(s: State, caller: nat, limit: nat, window: nat)
    requires KeyOk(s, limit, window) && BirthsOk(s, window) && TtlOk(s)
    requires LimitOk(IncrStep(s, caller, limit), limit)
    requires var s' := IncrStep(s, caller, limit);
             AllowedIn(s'.hits, Latest(s')) == (if s'.key.value.count <= limit then s'.key.value.count else limit)
    ensures KeyOk(IncrStep(s, caller, limit), limit, window) && TtlOk(IncrStep(s, caller, limit))
  {
  }

  lemma {:induction false} ExpireKeepsInv(s: State, caller: nat, limit: nat, window: nat)
    requires window > 0 && Inv(s, limit, window)
    ensures Inv(ExpireStep(s, caller, window), limit, window)
  {
    assert forall h :: h in s.hits ==> h.time <= s.now;
  }

  lemma {:induction false} QuietStepKeepsInv(s: State, e: Event, limit: nat, window: nat)
    requires (e.Tick? || e.Die?) && Inv(s, limit, window)
    ensures Inv(Next(s, e, limit, window), limit, window)
  {
  }

  lemma {:induction false} NextKeepsInv(s: State, e: Event, limit: nat, window: nat)
    requires window > 0 && Inv(s, limit, window)
    ensures Inv(Next(s, e, limit, window), limit, window)
  {
    match e
    case Tick(_) => QuietStepKeepsInv(s, e, limit, window);
    case Die(_) => QuietStepKeepsInv(s, e, limit, window);
    case Expire(caller) => ExpireKeepsInv(s, caller, limit, window);
    case Incr(caller) =>
      if caller !in s.expiring {
        IncrKeepsLimit(s, caller, limit, window);
        IncrKeepsTimes(s, caller, limit, window);
        IncrKeepsKey(s, caller, limit, window);
      }
  }

  lemma {:induction false} RunKeepsInv(s: State, events: seq<Event>, limit: nat, window: nat)
    requires window > 0 && Inv(s, limit, window)
    ensures Inv(RunFrom(s, events, limit, window), limit, window)
    decreases |events|
  {
    if events != [] {
      NextKeepsInv(s, events[0], limit, window);
      RunKeepsInv(Next(s, events[0], limit, window), events[1..], limit, window);
    }
  }

  // --- the guarantees ---------------------------------------------------

  /** Between the birth and the end of a key at most `limit` hits are allowed, and a hit
      that has returned leaves the key with a TTL while it lives, whatever callers died
      or doubled the EXPIRE. */
  lemma {:induction false} LimitPerLife(now: int, events: seq<Event>, limit: nat, window: nat, life: nat, caller: nat)
    requires window > 0
    ensures var s := RunFrom(Start(now), events, limit, window);
            && AllowedIn(s.hits, life) <= limit
            && (caller in s.done && s.done[caller] == Latest(s) && s.key.Some? ==> s.key.value.expiry.Some?)
  {
    RunKeepsInv(Start(now), events, limit, window);
  }

  lemma {:induction false} TwoLivesCoverAnInterval(hits: seq<Hit>, from: int, to: int, life: nat)
    requires forall h :: h in hits && from <= h.time <= to ==> h.life == life || h.life == life + 1
    ensures AllowedBetween(hits, from, to) <= AllowedIn(hits, life) + AllowedIn(hits, life + 1)
  {
    if hits != [] {
      TwoLivesCoverAnInterval(hits[..|hits| - 1], from, to, life);
      assert hits[|hits| - 1] in hits;
    }
  }

  lemma {:induction false} BirthsIncrease(s: State, window: nat, i: nat, j: nat)
    requires BirthsOk(s, window) && i <= j < |s.births|
    ensures s.births[i] <= s.births[j]
  {
    if i < j {
      BirthsIncrease(s, window, i, j - 1);
    }
  }

  /** The earliest life that has a hit in the interval. */
  lemma {:induction false} EarliestLife(hits: seq<Hit>, from: int, to: int) returns (h: Hit)
    requires exists x :: x in hits && from <= x.time <= to
    ensures h in hits && from <= h.time <= to
    ensures forall x :: x in hits && from <= x.time <= to ==> h.life <= x.life
  {
    var n := |hits| - 1;
    var before := hits[..n];
    if exists x :: x in before && from <= x.time <= to {
      h := EarliestLife(before, from, to);
      if from <= hits[n].time <= to && hits[n].life < h.life {
        h := hits[n];
      }
    } else {
      h := hits[n];
    }
  }

  lemma {:induction false} NothingBetween(hits: seq<Hit>, from: int, to: int)
    requires forall x :: x in hits ==> !(from <= x.time <= to)
    ensures AllowedBetween(hits, from, to) == 0
  {
    if hits != [] {
      assert hits[|hits| - 1] in hits;
      NothingBetween(hits[..|hits| - 1], from, to);
    }
  }

  lemma {:induction false} LivesAreClose(s: State, window: nat, from: int, to: int, first: Hit, h: Hit)
    requires window > 0 && BirthsOk(s, window) && HitsOk(s) && to - from <= window
    requires first in s.hits && h in s.hits && from <= first.time && h.time <= to && first.life <= h.life
    ensures h.life <= first.life + 1
  {
    if h.life >= first.life + 2 {
      BirthsIncrease(s, window, first.life + 2, h.life);
    }
  }

  lemma {:induction false} IntervalBound(s: State, limit: nat, window: nat, from: int, to: int)
    requires window > 0 && Inv(s, limit, window) && to - from <= window
    ensures AllowedBetween(s.hits, from, to) <= 2 * limit
  {
    if exists x :: x in s.hits && from <= x.time <= to {
      var first := EarliestLife(s.hits, from, to);
      forall h | h in s.hits && from <= h.time <= to
        ensures h.life == first.life || h.life == first.life + 1
      {
        LivesAreClose(s, window, from, to, first, h);
      }
      TwoLivesCoverAnInterval(s.hits, from, to, first.life);
    } else {
      NothingBetween(s.hits, from, to);
    }
  }

  /** Any interval no longer than the window contains at most 2 * limit allowed hits. */
  lemma {:induction false} TwiceTheLimitPerWindow(now: int, events: seq<Event>, limit: nat, window: nat, from: int, to: int)
    requires window > 0 && to - from <= window
    ensures AllowedBetween(RunFrom(Start(now), events, limit, window).hits, from, to) <= 2 * limit
  {
    RunKeepsInv(Start(now), events, limit, window);
    IntervalBound(RunFrom(Start(now), events, limit, window), limit, window, from, to);
  }

  lemma {:induction false} RunsCompose(s: State, a: seq<Event>, b: seq<Event>, limit: nat, window: nat)
    ensures RunFrom(s, a + b, limit, window) == RunFrom(RunFrom(s, a, limit, window), b, limit, window)
    decreases |a|
  {
    if a == [] {
      assert a + b == b;
    } else {
      RunsCompose(Next(s, a[0], limit, window), a[1..], b, limit, window);
      assert (a + b)[1..] == a[1..] + b && (a + b)[0] == a[0];
    }
  }

  function Burst(n: nat): (events: seq<Event>)
    ensures |events| == n && forall i :: 0 <= i < n ==> events[i] == Incr(0)
  {
    seq(n, _ => Incr(0))
  }

  /** Hits on a key that has its TTL, up to the limit. */
  lemma {:induction false} BurstIsAllowed(s: State, n: nat, limit: nat, window: nat)
    requires s.key.Some? && s.key.value.expiry.Some? && s.key.value.count + n <= limit && 0 !in s.expiring
    ensures var s' := RunFrom(s, Burst(n), limit, window);
            && s'.now == s.now && s'.key == Some(Key(s.key.value.count + n, s.key.value.expiry)) && 0 !in s'.expiring
            && forall from, to :: from <= s.now <= to ==> AllowedBetween(s'.hits, from, to) == AllowedBetween(s.hits, from, to) + n
    decreases n
  {
    if n > 0 {
      var s1 := Next(s, Incr(0), limit, window);
      assert s1.hits[..|s.hits|] == s.hits;
      assert Burst(n)[1..] == Burst(n - 1);
      BurstIsAllowed(s1, n - 1, limit, window);
    }
  }

  /** A new key is born, gets its TTL, and is hit up to the limit. */
  function Fill(limit: nat): seq<Event>
    requires limit > 0
  {
    [Incr(0)] + ([Expire(0)] + Burst(limit - 1))
  }

  lemma {:induction false} RunOfOne(s: State, e: Event, rest: seq<Event>, limit: nat, window: nat)
    ensures RunFrom(s, [e] + rest, limit, window) == RunFrom(Next(s, e, limit, window), rest, limit, window)
  {
    assert ([e] + rest)[1..] == rest;
  }

  lemma {:induction false} FillIsAllowed(s: State, limit: nat, window: nat)
    requires limit > 0 && s.key.None? && 0 !in s.expiring
    ensures var s' := RunFrom(s, Fill(limit), limit, window);
            && s'.now == s.now && s'.key == Some(Key(limit, Some(s.now + window))) && 0 !in s'.expiring
            && forall from, to :: from <= s.now <= to ==> AllowedBetween(s'.hits, from, to) == AllowedBetween(s.hits, from, to) + limit
  {
    var s1 := Next(s, Incr(0), limit, window);
    var s2 := Next(s1, Expire(0), limit, window);
    RunOfOne(s, Incr(0), [Expire(0)] + Burst(limit - 1), limit, window);
    RunOfOne(s1, Expire(0), Burst(limit - 1), limit, window);
    assert s1.hits[..|s.hits|] == s.hits;
    assert s2.hits == s1.hits && s2.key == Some(Key(1, Some(s.now + window)));
    BurstIsAllowed(s2, limit - 1, limit, window);
  }

  /** The factor two is reached, for every limit and window: `limit` hits at the birth of a
      key and `limit` just as it lapses lie within one window. */
  lemma {:induction false} TwiceTheLimitIsReached(limit: nat, window: nat)
    requires limit > 0 && window > 0
    ensures exists events :: AllowedBetween(RunFrom(Start(0), events, limit, window).hits, 0, window) == 2 * limit
  {
    var s1 := RunFrom(Start(0), Fill(limit), limit, window);
    FillIsAllowed(Start(0), limit, window);
    var s2 := Next(s1, Tick(window), limit, window);
    assert s2.now == window && s2.key.None? && s2.hits == s1.hits;
    FillIsAllowed(s2, limit, window);
    RunsCompose(Start(0), Fill(limit), [Tick(window)] + Fill(limit), limit, window);
    RunOfOne(s1, Tick(window), Fill(limit), limit, window);
    assert AllowedBetween(RunFrom(Start(0), Fill(limit) + ([Tick(window)] + Fill(limit)), limit, window).hits, 0, window) == 2 * limit;
  }

  // --- exactly the first hits of a life, and a life exactly as long as its TTL ---

  function HitsIn(hits: seq<Hit>, life: nat): nat {
    if hits == [] then 0
    else HitsIn(hits[..|hits| - 1], life) + if hits[|hits| - 1].life == life then 1 else 0
  }

  lemma {:induction false} HitsInGrows(hits: seq<Hit>, h: Hit, life: nat)
    ensures HitsIn(hits + [h], life) == HitsIn(hits, life) + if h.life == life then 1 else 0
  {
    assert (hits + [h])[..|hits|] == hits;
  }

  lemma {:induction false} NoHitsYet(hits: seq<Hit>, life: nat)
    requires forall h :: h in hits ==> h.life < life
    ensures HitsIn(hits, life) == 0
  {
    if hits != [] {
      NoHitsYet(hits[..|hits| - 1], life);
    }
  }

  /** Hit k is among the first `limit` hits of its life. */
  predicate AmongTheFirst(hits: seq<Hit>, k: nat, limit: nat)
    requires k < |hits|
  {
    HitsIn(hits[..k], hits[k].life) < limit
  }

  /** The counter of a key is the number of hits in its life. */
  predicate Counts(s: State) {
    s.key.Some? ==> s.births != [] && HitsIn(s.hits, Latest(s)) == s.key.value.count
  }

  ghost predicate Counted(s: State, limit: nat) {
    && Counts(s)
    && forall k :: 0 <= k < |s.hits| ==> (s.hits[k].allowed <==> AmongTheFirst(s.hits, k, limit))
  }

  /** The hit an INCR adds, and the count it leaves. */
  lemma {:induction false} IncrCounts(s: State, caller: nat, limit: nat)
    requires Counts(s)
    requires HitsIn(s.hits, |s.births|) == 0
    ensures var s' := IncrStep(s, caller, limit);
            && s'.hits == s.hits + [Hit(s.now, Latest(s'), s'.key.value.count <= limit)]
            && s'.births != [] && HitsIn(s.hits, Latest(s')) + 1 == s'.key.value.count
  {
  }

  lemma {:induction false} FirstsStay(hits: seq<Hit>, hits': seq<Hit>, k: nat, limit: nat)
    requires k < |hits| <= |hits'| && hits'[..|hits|] == hits
    ensures hits'[k] == hits[k] && AmongTheFirst(hits', k, limit) == AmongTheFirst(hits, k, limit)
  {
    assert hits'[..|hits|][..k] == hits'[..k];
  }

  lemma {:induction false} IncrKeepsCounted(s: State, caller: nat, limit: nat)
    requires HitsOk(s) && Counted(s, limit)
    ensures Counted(IncrStep(s, caller, limit), limit)
  {
    var s' := IncrStep(s, caller, limit);
    NoHitsYet(s.hits, |s.births|);
    IncrCounts(s, caller, limit);
    HitsInGrows(s.hits, s'.hits[|s.hits|], Latest(s'));
    assert s'.hits[..|s.hits|] == s.hits;
    forall k | 0 <= k < |s'.hits|
      ensures s'.hits[k].allowed <==> AmongTheFirst(s'.hits, k, limit)
    {
      if k < |s.hits| {
        FirstsStay(s.hits, s'.hits, k, limit);
      }
    }
  }

  lemma {:induction false} OthersKeepCounted(s: State, e: Event, limit: nat, window: nat)
    requires Counted(s, limit) && (!e.Incr? || e.caller in s.expiring)
    ensures Counted(Next(s, e, limit, window), limit)
  {
    var s' := Next(s, e, limit, window);
    assert s'.hits == s.hits && s'.births == s.births;
    assert s'.key.Some? ==> s.key.Some? && s'.key.value.count == s.key.value.count;
  }

  lemma {:induction false} NextKeepsCounted(s: State, e: Event, limit: nat, window: nat)
    requires HitsOk(s) && Counted(s, limit)
    ensures Counted(Next(s, e, limit, window), limit)
  {
    if e.Incr? && e.caller !in s.expiring {
      IncrKeepsCounted(s, e.caller, limit);
    } else {
      OthersKeepCounted(s, e, limit, window);
    }
  }

  lemma {:induction false} RunKeepsCounted(s: State, events: seq<Event>, limit: nat, window: nat)
    requires window > 0 && Inv(s, limit, window) && Counted(s, limit)
    ensures Counted(RunFrom(s, events, limit, window), limit)
    decreases |events|
  {
    if events != [] {
      NextKeepsInv(s, events[0], limit, window);
      NextKeepsCounted(s, events[0], limit, window);
      RunKeepsCounted(Next(s, events[0], limit, window), events[1..], limit, window);
    }
  }

  /** Over every run a hit is allowed if and only if it is among the first `limit` hits of its
      life: nobody is turned away early, and nobody let in late. */
  lemma {:induction false} AllowedExactly(now: int, events: seq<Event>, limit: nat, window: nat, k: nat)
    requires window > 0 && k < |RunFrom(Start(now), events, limit, window).hits|
    ensures var hits := RunFrom(Start(now), events, limit, window).hits;
            hits[k].allowed <==> AmongTheFirst(hits, k, limit)
  {
    RunKeepsCounted(Start(now), events, limit, window);
  }

  function Incrs(events: seq<Event>): nat {
    if events == [] then 0 else Incrs(events[1..]) + if events[0].Incr? then 1 else 0
  }

  /** Once a key has its TTL and no EXPIRE is on its way, nothing prolongs or shortens its
      life, however often it is hit and whoever dies: until then it counts every hit, and at
      that moment it is gone. */
  lemma {:induction false} LivesEndOnTime(s: State, events: seq<Event>, limit: nat, window: nat)
    requires s.key.Some? && s.key.value.expiry.Some? && s.now < s.key.value.expiry.value
    requires s.expiring == map[] && s.births != []
    ensures var s', end := RunFrom(s, events, limit, window), s.key.value.expiry;
            && (s'.now < end.value ==> s'.key == Some(Key(s.key.value.count + Incrs(events), end)) && s'.births == s.births)
            && (s'.now >= end.value ==> s'.key.None? || Latest(s') > Latest(s))
    decreases |events|
  {
    if events != [] {
      var s1 := Next(s, events[0], limit, window);
      if s1.key.Some? {
        LivesEndOnTime(s1, events[1..], limit, window);
      } else {
        LivesStayOver(s1, events[1..], limit, window, Latest(s));
      }
    }
  }

  lemma {:induction false} LivesStayOver(s: State, events: seq<Event>, limit: nat, window: nat, life: nat)
    requires s.births != [] && (Latest(s) > life || (s.key.None? && Latest(s) == life))
    ensures var s' := RunFrom(s, events, limit, window);
            s'.births != [] && s'.now >= s.now && (s'.key.None? || Latest(s') > life)
    decreases |events|
  {
    if events != [] {
      LivesStayOver(Next(s, events[0], limit, window), events[1..], limit, window, life);
    }
  }

  // --- the counter in Redis ---------------------------------------------

  class RedisKey {
    var now: int
    var key: Option<Key>
    ghost var births: seq<int>
    ghost var hits: seq<Hit>
    ghost var expiring: map<nat, nat>
    ghost var done: map<nat, nat>

    ghost function View(): State
      reads this
    {
      State(now, key, births, hits, expiring, done)
    }

    constructor (now: int)
      ensures View() == Start(now)
    {
      this.now, key := now, None;
      births, hits, expiring, done := [], [], map[], map[];
    }

    method Advance(seconds: nat, ghost limit: nat, ghost window: nat)
      modifies this
      ensures View() == Next(old(View()), Tick(seconds), limit, window)
    {
      now := now + seconds;
      if Lapsed(key, now) {
        key := None;
      }
    }

    /** The atomic pipeline of `hit`: INCR, then TTL. */
    method IncrAndTtl(ghost caller: nat, limit: nat, ghost window: nat) returns (count: nat, noTtl: bool)
      requires caller !in expiring
      modifies this
      ensures View() == Next(old(View()), Incr(caller), limit, window)
      ensures key == Some(Key(count, if noTtl then None else key.value.expiry)) && (noTtl <==> caller in expiring)
      ensures hits == old(hits) + [Hit(now, Latest(View()), count <= limit)]
    {
      if key.None? {
        births := births + [now];
        key := Some(Key(1, None));
      } else {
        key := Some(key.value.(count := key.value.count + 1));
      }
      count, noTtl := key.value.count, key.value.expiry.None?;
      ghost var life := |births| - 1;
      life := if |births| == 0 then 0 else life;
      hits := hits + [Hit(now, life, count <= limit)];
      if noTtl {
        expiring := expiring[caller := life];
        done := done - {caller};
      } else {
        done := done[caller := life];
      }
    }

    /** The separate EXPIRE: a no-op when the key has lapsed meanwhile. */
    method SetExpiry(ghost caller: nat, window: nat, ghost limit: nat)
      requires caller in expiring
      modifies this
      ensures View() == Next(old(View()), Expire(caller), limit, window)
    {
      if key.Some? {
        key := Some(key.value.(expiry := Some(now + window)));
      }
      done := done[caller := expiring[caller]];
      expiring := expiring - {caller};
    }

    /** `hit`, when nothing comes between its two commands. */
    method HitKey(ghost caller: nat, limit: nat, window: nat) returns (allowed: bool, ttl: int)
      requires window > 0 && caller !in expiring && Inv(View(), limit, window)
      modifies this
      ensures Inv(View(), limit, window)
      ensures key.Some? && key.value.expiry.Some? && ttl == key.value.expiry.value - now > 0
      ensures allowed <==> key.value.count <= limit
      ensures old(key).Some? ==> key.value.count == old(key).value.count + 1
      ensures old(key).None? ==> key.value.count == 1 && ttl == window
    {
      NextKeepsInv(View(), Incr(caller), limit, window);
      var count, noTtl := IncrAndTtl(caller, limit, window);
      if noTtl {
        NextKeepsInv(View(), Expire(caller), limit, window);
        SetExpiry(caller, window, limit);
        ttl := window;
      } else {
        ttl := key.value.expiry.value - now;
      }
      allowed := count <= limit;
    }
  }
}

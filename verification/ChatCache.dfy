/** The cached chat history (ChatCache in app/core/redis.py).

    add_message sends RPUSH, LTRIM and EXPIRE without a transaction, so the commands
    of several clients interleave on the Redis list. */
module ChatCache {
  import opened Wrappers
  import opened ChatMessages

  /** A stored payload; `Garbled` stands for one that does not decode. */
  datatype Raw = Message(role: string, content: string) | Garbled

  // --- Redis list commands ----------------------------------------------

  /** A Redis index counts from the end when negative. */
  function Start(length: nat, index: int): nat {
    if index >= 0 then index else if length + index >= 0 then length + index else 0
  }

  function Stop(length: nat, index: int): int {
    var stop := if index >= 0 then index else length + index;
    if stop >= length then length - 1 else stop
  }

  /** LRANGE, and what LTRIM keeps. */
  function Range<T>(list: seq<T>, start: int, stop: int): seq<T> {
    var from, to := Start(|list|, start), Stop(|list|, stop);
    if from > to || from >= |list| then [] else list[from..to + 1]
  }

  /** The last n elements, all of them if there are fewer. */
  function Last<T>(list: seq<T>, n: nat): seq<T> {
    if |list| <= n then list else list[|list| - n..]
  }

  lemma {:induction false} NegativeRangeIsLast<T>(list: seq<T>, n: nat)
    requires n > 0
    ensures Range(list, 0 - n, -1) == Last(list, n)
  {
  }

  // --- decoding ---------------------------------------------------------

  predicate ValidRole(role: string) {
    role == "system" || role == "user" || role == "assistant" || role == "ai"
  }

  predicate Decodes(raw: Raw) {
    raw.Message? && ValidRole(raw.role)
  }

  function Decoded(raws: seq<Raw>): (messages: seq<ChatMessage>)
    ensures |messages| <= |raws|
    ensures (forall r :: r in raws ==> Decodes(r)) ==> |messages| == |raws|
  {
    if raws == [] then []
    else
      var last := raws[|raws| - 1];
      var before := Decoded(raws[..|raws| - 1]);
      if Decodes(last) then before + [FromText(last.role, last.content)] else before
  }

  /** Nothing that the chat pushes is lost on the way back: messages of the user and of the
      models decode one for one, role and text. */
  lemma {:induction false} PushedMessagesComeBack(raws: seq<Raw>)
    requires forall r :: r in raws ==> r.Message? && (r.role == "user" || r.role == "assistant")
    ensures |Decoded(raws)| == |raws|
    ensures forall i :: 0 <= i < |raws| ==> Decoded(raws)[i] == ChatMessage(raws[i].role, raws[i].content, [])
  {
    if raws != [] {
      PushedMessagesComeBack(raws[..|raws| - 1]);
    }
  }

  // --- the cache --------------------------------------------------------

  class Cache {
    const historyLimit: nat
    var list: seq<Raw>
    /** Every payload pushed since the last clear or expiry. */
    ghost var log: seq<Raw>
    /** Clients that have pushed and not trimmed yet. */
    ghost var untrimmed: nat

    /** The list is the end of the log, missing only what a trim may drop. */
    ghost predicate Valid()
      reads this
    {
      && historyLimit > 0
      && |list| <= |log|
      && list == log[|log| - |list|..]
      && (|list| < |log| ==> |list| >= 2 * historyLimit)
      && |list| <= 2 * historyLimit + untrimmed
    }

    constructor (historyLimit: nat)
      requires historyLimit > 0
      ensures Valid() && log == [] && this.historyLimit == historyLimit
    {
      this.historyLimit := historyLimit;
      list, log, untrimmed := [], [], 0;
    }

    /** First command of add_message. */
    method RPush(raw: Raw)
      requires Valid()
      modifies this
      ensures Valid() && log == old(log) + [raw] && untrimmed == old(untrimmed) + 1
      ensures list == old(list) + [raw]
    {
      list := list + [raw];
      log := log + [raw];
      untrimmed := untrimmed + 1;
    }

    /** Second command of add_message, whatever other clients did in between. */
    method LTrim()
      requires Valid() && untrimmed > 0
      modifies this
      ensures Valid() && log == old(log) && untrimmed == old(untrimmed) - 1
      ensures list == Last(old(list), 2 * historyLimit)
    {
      NegativeRangeIsLast(list, historyLimit * 2);
      list := Range(list, 0 - historyLimit * 2, -1);
      untrimmed := untrimmed - 1;
    }

    /** DEL, or the key reaching its TTL. */
    method Clear()
      requires Valid()
      modifies this
      ensures Valid() && log == [] && list == [] && untrimmed == old(untrimmed)
    {
      list, log := [], [];
    }

    /** get_history: for every limit up to what a trim keeps, the last `limit` messages
        of the whole log, decoded; a missing or zero limit means the default. */
    method GetHistory(limit: Option<nat>) returns (history: seq<ChatMessage>)
      requires Valid()
      ensures var n := if limit.Some? && limit.value > 0 then limit.value else historyLimit;
              n <= 2 * historyLimit ==> history == Decoded(Last(log, n))
      ensures |history| <= 2 * historyLimit + untrimmed
    {
      var n := if limit.Some? && limit.value > 0 then limit.value else historyLimit;
      var raws := Range(list, 0 - n, -1);
      ReadIsTheEndOfTheLog(list, log, historyLimit, n);
      history := DecodeAll(raws);
    }
  }

  /** The loop of get_history: malformed entries are skipped. */
  method DecodeAll(raws: seq<Raw>) returns (history: seq<ChatMessage>)
    ensures history == Decoded(raws)
  {
    history := [];
    for i := 0 to |raws|
      invariant history == Decoded(raws[..i])
    {
      assert raws[..i + 1][..i] == raws[..i];
      if Decodes(raws[i]) {
        history := history + [FromText(raws[i].role, raws[i].content)];
      }
    }
    assert raws[..|raws|] == raws;
  }

  /** A read of `n` messages from a list that is the end of the log. */
  lemma {:induction false} ReadIsTheEndOfTheLog(list: seq<Raw>, log: seq<Raw>, historyLimit: nat, n: nat)
    requires n > 0 && |list| <= |log| && list == log[|log| - |list|..]
    requires |list| < |log| ==> |list| >= 2 * historyLimit
    ensures n <= 2 * historyLimit ==> Range(list, 0 - n, -1) == Last(log, n)
    ensures |Range(list, 0 - n, -1)| <= |list|
  {
    NegativeRangeIsLast(list, n);
    if n <= 2 * historyLimit {
      LastOfSuffix(log, |list|, n);
    }
  }

  lemma {:induction false} LastOfSuffix<T>(log: seq<T>, kept: nat, n: nat)
    requires kept <= |log| && (kept < |log| ==> n <= kept)
    ensures Last(log[|log| - kept..], n) == Last(log, n)
  {
  }

  // --- interleavings as values ------------------------------------------

  datatype Command = Push(raw: Raw) | Trim | Drop

  /** The list and the log after some commands. */
  function Replay(commands: seq<Command>, historyLimit: nat): (seq<Raw>, seq<Raw>)
  {
    if commands == [] then ([], [])
    else
      var (list, log) := Replay(commands[..|commands| - 1], historyLimit);
      match commands[|commands| - 1]
      case Push(raw) => (list + [raw], log + [raw])
      case Trim => (Range(list, 0 - historyLimit * 2, -1), log)
      case Drop => ([], [])
  }

  /** Any interleaving of any number of clients' commands: a read of at most twice the
      history limit sees exactly the end of the unbounded log. */
  lemma {:induction false} CacheRefinesTheLog(commands: seq<Command>, historyLimit: nat, n: nat)
    requires 0 < n <= 2 * historyLimit
    ensures var (list, log) := Replay(commands, historyLimit);
            Range(list, 0 - n, -1) == Last(log, n)
  {
    ListIsTheEndOfTheLog(commands, historyLimit);
    var (list, log) := Replay(commands, historyLimit);
    ReadIsTheEndOfTheLog(list, log, historyLimit, n);
  }

  lemma {:induction false} ListIsTheEndOfTheLog(commands: seq<Command>, historyLimit: nat)
    requires historyLimit > 0
    ensures var (list, log) := Replay(commands, historyLimit);
            |list| <= |log| && list == log[|log| - |list|..] && (|list| < |log| ==> |list| >= 2 * historyLimit)
  {
    if commands != [] {
      ListIsTheEndOfTheLog(commands[..|commands| - 1], historyLimit);
      var (list, log) := Replay(commands[..|commands| - 1], historyLimit);
      NegativeRangeIsLast(list, historyLimit * 2);
    }
  }

  /** The bound is sharp: past twice the limit a trimmed cache misses a message that the
      log still has. */
  lemma {:induction false} LongerReadsMissMessages(historyLimit: nat, pushed: seq<Raw>)
    requires historyLimit > 0 && |pushed| == 2 * historyLimit + 1
    ensures var list := Range(pushed, 0 - historyLimit * 2, -1);
            Range(list, 0 - (2 * historyLimit + 1), -1) != Last(pushed, 2 * historyLimit + 1)
  {
    NegativeRangeIsLast(pushed, historyLimit * 2);
    NegativeRangeIsLast(Range(pushed, 0 - historyLimit * 2, -1), 2 * historyLimit + 1);
  }
}

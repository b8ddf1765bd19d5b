/** The shared database as every handler and worker sees it, one SQL statement or one
    commit at a time.

    A session buffers its writes until it commits: a wallet row it has updated, a
    purchase row it holds (selected FOR UPDATE, or inserted and not yet visible), a
    reply row it has inserted. Other sessions see committed data only and wait for the
    row locks.

    `ledger` and `recorded` are history variables: the wallet movements and the replies
    ever recorded, in commit order. `table` is the messages table's reply rows, keyed by
    their position in `recorded`; rewinds and chat deletions remove rows from it. */
module Ledger {
  import opened Wrappers
  import opened Pricing

  type User = nat

  /** The gateway reference that is unique in the transactions table. */
  datatype Ref = Stripe(session: string) | Order(order: string)

  datatype Row = Row(user: User, credits: int, completed: bool, payment: Option<string>)

  datatype Reply = Reply(turn: nat, slot: nat, user: User, spec: ModelSpec, prompt: int, completion: int, cost: int)

  datatype Reason = Purchase(ref: Ref) | MediaDebit(job: nat) | Refund(job: nat) | ReplyCost(turn: nat, slot: nat)

  datatype Posting = Posting(user: User, delta: int, why: Reason)

  /** A database session: the process it belongs to, and the slot of a chat turn or the part of
      a media job. */
  datatype Sid = Sid(proc: nat, slot: nat)

  /** A purchase row held by a session; `before` is None for an uncommitted INSERT.
      `flushed` says that the UPDATE carrying the payment id has been sent. */
  datatype Hold = Hold(ref: Ref, before: Option<Row>, after: Row, flushed: bool)

  datatype Tx = Tx(write: Option<Posting>, hold: Option<Hold>, reply: Option<Reply>)

  datatype Db = Db(
    wallets: map<User, int>,
    rows: map<Ref, Row>,
    recorded: seq<Reply>,
    table: map<nat, Reply>,
    open: map<Sid, Tx>,
    ledger: seq<Posting>)

  const EMPTY_TX := Tx(None, None, None)

  function TxOf(db: Db, s: Sid): Tx {
    if s in db.open then db.open[s] else EMPTY_TX
  }

  function Put(db: Db, s: Sid, tx: Tx): Db {
    db.(open := db.open[s := tx])
  }

  function Lookup(rows: map<Ref, Row>, ref: Ref): Option<Row> {
    if ref in rows then Some(rows[ref]) else None
  }

  function BalanceIn(wallets: map<User, int>, user: User): int {
    if user in wallets then wallets[user] else 0
  }

  function Balance(db: Db, user: User): int {
    BalanceIn(db.wallets, user)
  }

  /** billing.debit and billing.credit ignore amounts that are not positive. */
  function Granted(amount: int): int {
    if amount > 0 then amount else 0
  }

  // --- locks ------------------------------------------------------------

  predicate LocksWallet(tx: Tx, user: User) {
    tx.write.Some? && tx.write.value.user == user && tx.write.value.delta != 0
  }

  predicate HoldsRow(tx: Tx, ref: Ref) {
    tx.hold.Some? && tx.hold.value.ref == ref
  }

  predicate ClaimsPayment(tx: Tx, payment: Option<string>) {
    tx.hold.Some? && tx.hold.value.flushed && payment.Some? && tx.hold.value.after.payment == payment
  }

  predicate WalletFree(open: map<Sid, Tx>, s: Sid, user: User) {
    forall t :: t in open && t != s ==> !LocksWallet(open[t], user)
  }

  predicate RowFree(open: map<Sid, Tx>, s: Sid, ref: Ref) {
    forall t :: t in open && t != s ==> !HoldsRow(open[t], ref)
  }

  predicate PaymentFree(open: map<Sid, Tx>, s: Sid, payment: Option<string>) {
    forall t :: t in open && t != s ==> !ClaimsPayment(open[t], payment)
  }

  predicate PaymentUnused(rows: map<Ref, Row>, ref: Ref, payment: Option<string>) {
    forall r :: r in rows && r != ref && payment.Some? ==> rows[r].payment != payment
  }

  // --- statements -------------------------------------------------------

  /** Blocked waits for another session's lock; Refused is the statement's own negative
      answer (no such row, balance too low, unique violation). */
  datatype Stmt = Blocked | Refused | Done(db: Db)

  function WithWrite(db: Db, s: Sid, posting: Posting): Db {
    Put(db, s, TxOf(db, s).(write := Some(posting)))
  }

  /** UPDATE wallets SET credits = credits - amount [WHERE credits >= amount]. */
  function DebitStmt(db: Db, s: Sid, user: User, amount: int, overdraft: bool, why: Reason): Stmt {
    if amount <= 0 then Done(WithWrite(db, s, Posting(user, 0, why)))
    else if user !in db.wallets || (!overdraft && db.wallets[user] < amount) then Refused
    else if !WalletFree(db.open, s, user) then Blocked
    else Done(WithWrite(db, s, Posting(user, -amount, why)))
  }

  /** INSERT INTO wallets ... ON CONFLICT DO UPDATE SET credits = credits + amount. */
  function CreditStmt(db: Db, s: Sid, user: User, amount: int, why: Reason): Stmt {
    if amount <= 0 then Done(WithWrite(db, s, Posting(user, 0, why)))
    else if !WalletFree(db.open, s, user) then Blocked
    else Done(WithWrite(db, s, Posting(user, amount, why)))
  }

  /** SELECT ... WHERE <reference> = ref FOR UPDATE. */
  function SelectForUpdate(db: Db, s: Sid, ref: Ref): Stmt {
    if ref !in db.rows then Refused
    else if !RowFree(db.open, s, ref) then Blocked
    else Done(Put(db, s, TxOf(db, s).(hold := Some(Hold(ref, Some(db.rows[ref]), db.rows[ref], false)))))
  }

  /** INSERT INTO transactions; a concurrent uncommitted insert of the same reference
      makes it wait, a committed one makes it fail. */
  function InsertRow(db: Db, s: Sid, ref: Ref, user: User, credits: int): Stmt {
    if ref in db.rows then Refused
    else if !RowFree(db.open, s, ref) then Blocked
    else Done(Put(db, s, TxOf(db, s).(hold := Some(Hold(ref, None, Row(user, credits, false, None), false)))))
  }

  /** billing.credit followed by the assignments that complete the held row. */
  function Settle(db: Db, s: Sid, payment: Option<string>): Stmt
    requires TxOf(db, s).hold.Some?
  {
    var hold := TxOf(db, s).hold.value;
    match CreditStmt(db, s, hold.after.user, hold.after.credits, Purchase(hold.ref))
    case Blocked => Blocked
    case Refused => Refused
    case Done(db') => Done(Put(db', s, TxOf(db', s).(hold := Some(hold.(after := hold.after.(completed := true, payment := payment))))))
  }

  /** The UPDATE of the held row: the payment id must be new in the whole table. */
  function FlushRow(db: Db, s: Sid): Stmt
    requires TxOf(db, s).hold.Some?
  {
    var hold := TxOf(db, s).hold.value;
    if !PaymentUnused(db.rows, hold.ref, hold.after.payment) then Refused
    else if !PaymentFree(db.open, s, hold.after.payment) then Blocked
    else Done(Put(db, s, TxOf(db, s).(hold := Some(hold.(flushed := true)))))
  }

  /** billing.debit with overdraft and the INSERT of the reply, one transaction. */
  function ReplyStmt(db: Db, s: Sid, reply: Reply): Stmt {
    match DebitStmt(db, s, reply.user, reply.cost, true, ReplyCost(reply.turn, reply.slot))
    case Blocked => Blocked
    case Refused => Refused
    case Done(db') => Done(Put(db', s, TxOf(db', s).(reply := Some(reply))))
  }

  function Rollback(db: Db, s: Sid): Db {
    db.(open := db.open - {s})
  }

  function Commit(db: Db, s: Sid): Db {
    var tx := TxOf(db, s);
    Db(
      if tx.write.Some? && tx.write.value.delta != 0
      then db.wallets[tx.write.value.user := Balance(db, tx.write.value.user) + tx.write.value.delta]
      else db.wallets,
      if tx.hold.Some? then db.rows[tx.hold.value.ref := tx.hold.value.after] else db.rows,
      if tx.reply.Some? then db.recorded + [tx.reply.value] else db.recorded,
      if tx.reply.Some? then db.table[|db.recorded| := tx.reply.value] else db.table,
      db.open - {s},
      if tx.write.Some? then db.ledger + [tx.write.value] else db.ledger)
  }

  /** DELETE FROM messages: a rewind, or the deletion of a chat, removes reply rows. */
  function Erase(db: Db, ids: set<nat>): Db {
    db.(table := db.table - ids)
  }

  // --- reading the ledger -----------------------------------------------

  function Sum(ledger: seq<Posting>, user: User): int {
    if ledger == [] then 0
    else
      var last := ledger[|ledger| - 1];
      Sum(ledger[..|ledger| - 1], user) + if last.user == user then last.delta else 0
  }

  datatype Topic = OfRef(ref: Ref) | OfJob(job: nat) | OfSlot(turn: nat, slot: nat) | AnyReply

  predicate About(p: Posting, topic: Topic) {
    match topic
    case OfRef(ref) => p.why == Purchase(ref)
    case OfJob(job) => p.why == MediaDebit(job) || p.why == Refund(job)
    case OfSlot(turn, slot) => p.why == ReplyCost(turn, slot)
    case AnyReply => p.why.ReplyCost?
  }

  /** The postings about one topic, in commit order. */
  function Entries(ledger: seq<Posting>, topic: Topic): seq<Posting> {
    if ledger == [] then []
    else
      var last := ledger[|ledger| - 1];
      Entries(ledger[..|ledger| - 1], topic) + if About(last, topic) then [last] else []
  }

  lemma {:induction false} LedgerGrows(ledger: seq<Posting>, p: Posting)
    ensures forall u :: Sum(ledger + [p], u) == Sum(ledger, u) + if p.user == u then p.delta else 0
    ensures forall t :: Entries(ledger + [p], t) == Entries(ledger, t) + if About(p, t) then [p] else []
  {
    assert (ledger + [p])[..|ledger|] == ledger;
  }

  lemma {:induction false} EntriesGrow(ledger: seq<Posting>, p: Posting, topic: Topic)
    ensures Entries(ledger + [p], topic) == Entries(ledger, topic) + if About(p, topic) then [p] else []
  {
    assert (ledger + [p])[..|ledger|] == ledger;
  }

  function ReplyPosting(r: Reply): Posting {
    Posting(r.user, -Granted(r.cost), ReplyCost(r.turn, r.slot))
  }

  function ReplyPostings(replies: seq<Reply>): seq<Posting> {
    if replies == [] then []
    else ReplyPostings(replies[..|replies| - 1]) + [ReplyPosting(replies[|replies| - 1])]
  }

  // --- the invariant ----------------------------------------------------

  predicate Settled(rows: map<Ref, Row>, ref: Ref) {
    ref in rows && rows[ref].completed
  }

  function PurchasePosting(ref: Ref, row: Row): Posting {
    Posting(row.user, Granted(row.credits), Purchase(ref))
  }

  function PurchasesFor(rows: map<Ref, Row>, ref: Ref): seq<Posting> {
    if Settled(rows, ref) then [PurchasePosting(ref, rows[ref])] else []
  }

  ghost predicate Clash(a: Tx, b: Tx) {
    || (exists u :: LocksWallet(a, u) && LocksWallet(b, u))
    || (exists r :: HoldsRow(a, r) && HoldsRow(b, r))
    || (exists p :: ClaimsPayment(a, p) && ClaimsPayment(b, p))
  }

  /** Locks exclude each other. */
  ghost predicate Exclusive(db: Db) {
    forall s, t :: s in db.open && t in db.open && s != t ==> !Clash(db.open[s], db.open[t])
  }

  /** What a held row may have been turned into. */
  ghost predicate HoldOk(db: Db, hold: Hold) {
    && hold.before == Lookup(db.rows, hold.ref)
    && (hold.before.Some? ==>
          && hold.after.user == hold.before.value.user
          && hold.after.credits == hold.before.value.credits
          && (hold.before.value.completed ==> hold.after == hold.before.value))
    && (hold.after.payment.Some? ==> hold.after.completed)
    && (hold.flushed ==> PaymentUnused(db.rows, hold.ref, hold.after.payment))
  }

  /** The session is about to complete the row it holds. */
  predicate Completing(tx: Tx) {
    && tx.hold.Some?
    && tx.hold.value.after.completed
    && !(tx.hold.value.before.Some? && tx.hold.value.before.value.completed)
  }

  ghost predicate WriteOk(db: Db, s: Sid, tx: Tx) {
    tx.write.Some? ==>
      var p := tx.write.value;
      && (p.delta < 0 ==> p.user in db.wallets)
      && match p.why {
           case Purchase(ref) => Completing(tx) && p == PurchasePosting(tx.hold.value.ref, tx.hold.value.after)
           case MediaDebit(job) => job == s.proc && tx.hold.None? && p.delta <= 0
                                   && (p.delta < 0 ==> Balance(db, p.user) + p.delta >= 0)
           case Refund(job) => job == s.proc && tx.hold.None? && p.delta >= 0
           case ReplyCost(turn, slot) => tx.hold.None? && tx.reply.Some? && p == ReplyPosting(tx.reply.value)
         }
  }

  ghost predicate TxOk(db: Db, s: Sid, tx: Tx) {
    && (tx.hold.Some? ==> HoldOk(db, tx.hold.value))
    && WriteOk(db, s, tx)
    && (Completing(tx) ==> tx.write.Some? && tx.write.value.why == Purchase(tx.hold.value.ref))
    && (tx.reply.Some? ==>
          && tx.write == Some(ReplyPosting(tx.reply.value))
          && tx.reply.value.turn == s.proc && tx.reply.value.slot == s.slot
          && tx.reply.value.cost == Price(tx.reply.value.spec, tx.reply.value.prompt, tx.reply.value.completion))
  }

  ghost predicate SessionsOk(db: Db) {
    forall s :: s in db.open ==> TxOk(db, s, db.open[s])
  }

  /** A purchase has been posted exactly once if its row is completed, and never
      otherwise. */
  ghost predicate PurchasesOnce(db: Db) {
    forall ref :: Entries(db.ledger, OfRef(ref)) == PurchasesFor(db.rows, ref)
  }

  /** A payment id settles at most one order, and only a completed row carries one. */
  ghost predicate PaymentsUnique(db: Db) {
    && (forall r :: r in db.rows && db.rows[r].payment.Some? ==> db.rows[r].completed)
    && forall a, b :: a in db.rows && b in db.rows && a != b && db.rows[a].payment.Some? ==>
         db.rows[a].payment != db.rows[b].payment
  }

  /** Replies ever recorded and reply charges correspond one to one, each at its own
      price. */
  ghost predicate RepliesPaid(db: Db) {
    && Entries(db.ledger, AnyReply) == ReplyPostings(db.recorded)
    && forall i :: 0 <= i < |db.recorded| ==>
         db.recorded[i].cost == Price(db.recorded[i].spec, db.recorded[i].prompt, db.recorded[i].completion)
  }

  ghost predicate Conserved(db: Db, opening: map<User, int>) {
    forall u :: Balance(db, u) == BalanceIn(opening, u) + Sum(db.ledger, u)
  }

  ghost predicate SafeDb(db: Db, opening: map<User, int>) {
    && Exclusive(db)
    && SessionsOk(db)
    && PurchasesOnce(db)
    && PaymentsUnique(db)
    && RepliesPaid(db)
    && Conserved(db, opening)
  }

  // --- every statement keeps it -----------------------------------------

  lemma {:induction false} PutKeepsSafety(db: Db, opening: map<User, int>, s: Sid, tx: Tx)
    requires SafeDb(db, opening)
    requires TxOk(db, s, tx)
    requires forall t :: t in db.open && t != s ==> !Clash(tx, db.open[t])
    ensures SafeDb(Put(db, s, tx), opening)
  {
    var db' := Put(db, s, tx);
    forall t, v | t in db'.open && v in db'.open && t != v
      ensures !Clash(db'.open[t], db'.open[v])
    {
    }
    forall t | t in db'.open
      ensures TxOk(db', t, db'.open[t])
    {
      assert TxOk(db, t, db'.open[t]);
    }
  }

  lemma {:induction false} RollbackKeepsSafety(db: Db, opening: map<User, int>, s: Sid)
    requires SafeDb(db, opening)
    ensures SafeDb(Rollback(db, s), opening)
  {
    var db' := Rollback(db, s);
    forall t | t in db'.open
      ensures TxOk(db', t, db'.open[t])
    {
      assert TxOk(db, t, db.open[t]);
    }
  }

  lemma {:induction false} EraseKeepsSafety(db: Db, opening: map<User, int>, ids: set<nat>)
    requires SafeDb(db, opening)
    ensures SafeDb(Erase(db, ids), opening)
  {
    var db' := Erase(db, ids);
    forall t | t in db'.open
      ensures TxOk(db', t, db'.open[t])
    {
      assert TxOk(db, t, db.open[t]);
    }
  }

  lemma {:induction false} SelectKeepsSafety(db: Db, opening: map<User, int>, s: Sid, ref: Ref)
    requires SafeDb(db, opening) && s !in db.open
    requires SelectForUpdate(db, s, ref).Done?
    ensures SafeDb(SelectForUpdate(db, s, ref).db, opening)
  {
    PutKeepsSafety(db, opening, s, EMPTY_TX.(hold := Some(Hold(ref, Some(db.rows[ref]), db.rows[ref], false))));
  }

  lemma {:induction false} InsertKeepsSafety(db: Db, opening: map<User, int>, s: Sid, ref: Ref, user: User, credits: int)
    requires SafeDb(db, opening) && s !in db.open
    requires InsertRow(db, s, ref, user, credits).Done?
    ensures SafeDb(InsertRow(db, s, ref, user, credits).db, opening)
  {
    PutKeepsSafety(db, opening, s, EMPTY_TX.(hold := Some(Hold(ref, None, Row(user, credits, false, None), false))));
  }

  function SettledTx(tx: Tx, payment: Option<string>): Tx
    requires tx.hold.Some?
  {
    var hold := tx.hold.value;
    var after := hold.after.(completed := true, payment := payment);
    Tx(Some(PurchasePosting(hold.ref, after)), Some(hold.(after := after)), tx.reply)
  }

  lemma {:induction false} SettleEffect(db: Db, s: Sid, payment: Option<string>)
    requires s in db.open && db.open[s].hold.Some?
    requires Settle(db, s, payment).Done?
    ensures Settle(db, s, payment).db == Put(db, s, SettledTx(db.open[s], payment))
  {
    var hold := db.open[s].hold.value;
    var posting := Posting(hold.after.user, Granted(hold.after.credits), Purchase(hold.ref));
    assert CreditStmt(db, s, hold.after.user, hold.after.credits, Purchase(hold.ref)).db == WithWrite(db, s, posting);
  }

  lemma {:induction false} SettleHasTheWallet(db: Db, s: Sid, payment: Option<string>)
    requires s in db.open && db.open[s].hold.Some?
    requires Settle(db, s, payment).Done?
    ensures var tx' := SettledTx(db.open[s], payment);
            LocksWallet(tx', tx'.write.value.user) ==> WalletFree(db.open, s, tx'.write.value.user)
  {
  }

  lemma {:induction false} SettledTxIsOk(db: Db, s: Sid, tx: Tx, payment: Option<string>)
    requires TxOk(db, s, tx) && tx.hold.Some? && tx.reply.None?
    requires !tx.hold.value.after.completed && !tx.hold.value.flushed
    ensures TxOk(db, s, SettledTx(tx, payment))
  {
  }

  lemma {:induction false} SettleKeepsSafety(db: Db, opening: map<User, int>, s: Sid, payment: Option<string>)
    requires SafeDb(db, opening) && s in db.open
    requires db.open[s].hold.Some? && db.open[s].write.None? && db.open[s].reply.None?
    requires !db.open[s].hold.value.after.completed && !db.open[s].hold.value.flushed
    requires Settle(db, s, payment).Done?
    ensures SafeDb(Settle(db, s, payment).db, opening)
  {
    var tx := db.open[s];
    var tx' := SettledTx(tx, payment);
    SettleEffect(db, s, payment);
    SettleHasTheWallet(db, s, payment);
    SettledTxIsOk(db, s, tx, payment);
    forall t | t in db.open && t != s
      ensures !Clash(tx', db.open[t])
    {
      SettleClashesWithNobody(tx, tx', db.open[t]);
    }
    PutKeepsSafety(db, opening, s, tx');
  }

  lemma {:induction false} SettleClashesWithNobody(tx: Tx, tx': Tx, other: Tx)
    requires tx.hold.Some? && tx'.hold.Some? && tx'.hold.value.ref == tx.hold.value.ref && !tx'.hold.value.flushed
    requires tx'.write.Some? && (LocksWallet(tx', tx'.write.value.user) ==> !LocksWallet(other, tx'.write.value.user))
    requires !Clash(tx, other)
    ensures !Clash(tx', other)
  {
    assert forall r :: HoldsRow(tx', r) ==> HoldsRow(tx, r);
  }

  lemma {:induction false} FlushKeepsSafety(db: Db, opening: map<User, int>, s: Sid)
    requires SafeDb(db, opening) && s in db.open && db.open[s].hold.Some?
    requires FlushRow(db, s).Done?
    ensures SafeDb(FlushRow(db, s).db, opening)
  {
    var db' := FlushRow(db, s).db;
    var tx, tx' := db.open[s], db'.open[s];
    assert TxOk(db, s, tx);
    forall t | t in db.open && t != s
      ensures !Clash(tx', db.open[t])
    {
      assert !Clash(tx, db.open[t]);
      assert forall r :: HoldsRow(tx', r) ==> HoldsRow(tx, r);
      assert forall u :: LocksWallet(tx', u) ==> LocksWallet(tx, u);
      assert forall p :: ClaimsPayment(tx', p) ==> p == tx'.hold.value.after.payment;
    }
    PutKeepsSafety(db, opening, s, tx');
  }

  function DebitTx(s: Sid, user: User, amount: int): Tx {
    Tx(Some(Posting(user, 0 - Granted(amount), MediaDebit(s.proc))), None, None)
  }

  function RefundTx(s: Sid, user: User, amount: int): Tx {
    Tx(Some(Posting(user, Granted(amount), Refund(s.proc))), None, None)
  }

  lemma {:induction false} DebitEffect(db: Db, s: Sid, user: User, amount: int)
    requires s !in db.open && DebitStmt(db, s, user, amount, false, MediaDebit(s.proc)).Done?
    ensures DebitStmt(db, s, user, amount, false, MediaDebit(s.proc)).db == Put(db, s, DebitTx(s, user, amount))
    ensures TxOk(db, s, DebitTx(s, user, amount)) && forall t :: t in db.open && t != s ==> !Clash(DebitTx(s, user, amount), db.open[t])
  {
  }

  lemma {:induction false} DebitKeepsSafety(db: Db, opening: map<User, int>, s: Sid, user: User, amount: int)
    requires SafeDb(db, opening) && s !in db.open
    requires DebitStmt(db, s, user, amount, false, MediaDebit(s.proc)).Done?
    ensures SafeDb(Put(db, s, DebitTx(s, user, amount)), opening)
  {
    DebitEffect(db, s, user, amount);
    PutKeepsSafety(db, opening, s, DebitTx(s, user, amount));
  }

  lemma {:induction false} CreditEffect(db: Db, s: Sid, user: User, amount: int)
    requires s !in db.open && CreditStmt(db, s, user, amount, Refund(s.proc)).Done?
    ensures CreditStmt(db, s, user, amount, Refund(s.proc)).db == Put(db, s, RefundTx(s, user, amount))
    ensures TxOk(db, s, RefundTx(s, user, amount)) && forall t :: t in db.open && t != s ==> !Clash(RefundTx(s, user, amount), db.open[t])
  {
  }

  lemma {:induction false} RefundKeepsSafety(db: Db, opening: map<User, int>, s: Sid, user: User, amount: int)
    requires SafeDb(db, opening) && s !in db.open
    requires CreditStmt(db, s, user, amount, Refund(s.proc)).Done?
    ensures SafeDb(Put(db, s, RefundTx(s, user, amount)), opening)
  {
    CreditEffect(db, s, user, amount);
    PutKeepsSafety(db, opening, s, RefundTx(s, user, amount));
  }

  lemma {:induction false} ReplyStmtEffect(db: Db, s: Sid, reply: Reply)
    requires s !in db.open && ReplyStmt(db, s, reply).Done?
    requires reply.turn == s.proc && reply.slot == s.slot
    requires reply.cost == Price(reply.spec, reply.prompt, reply.completion)
    ensures var tx := Tx(Some(ReplyPosting(reply)), None, Some(reply));
            && ReplyStmt(db, s, reply).db == Put(db, s, tx)
            && TxOk(db, s, tx)
            && forall t :: t in db.open && t != s ==> !Clash(tx, db.open[t])
  {
  }

  lemma {:induction false} ReplyKeepsSafety(db: Db, opening: map<User, int>, s: Sid, reply: Reply)
    requires SafeDb(db, opening) && s !in db.open
    requires reply.turn == s.proc && reply.slot == s.slot
    requires reply.cost == Price(reply.spec, reply.prompt, reply.completion)
    requires ReplyStmt(db, s, reply).Done?
    ensures SafeDb(ReplyStmt(db, s, reply).db, opening)
  {
    ReplyStmtEffect(db, s, reply);
    PutKeepsSafety(db, opening, s, Tx(Some(ReplyPosting(reply)), None, Some(reply)));
  }

  // --- the commit -------------------------------------------------------

  /** A payment id that a commit introduces has been checked against the table. */
  ghost predicate PaymentChecked(tx: Tx) {
    tx.hold.Some? && tx.hold.value.after.payment.Some?
    && !(tx.hold.value.before.Some? && tx.hold.value.before.value.payment == tx.hold.value.after.payment)
    ==> tx.hold.value.flushed
  }

  /** What one session commits leaves the row, the balance and the uniqueness that every
      other open session relies on as they were. */
  lemma {:induction false} CommitKeepsOthers(db: Db, s: Sid, t: Sid)
    requires Exclusive(db) && SessionsOk(db)
    requires s in db.open && t in db.open && s != t && PaymentChecked(db.open[s])
    ensures TxOk(Commit(db, s), t, db.open[t])
  {
    var mine, theirs := db.open[s], db.open[t];
    assert TxOk(db, t, theirs) && TxOk(db, s, mine);
    assert !Clash(mine, theirs);
    if theirs.hold.Some? {
      CommitKeepsHold(db, s, theirs);
    }
    CommitKeepsWrite(db, s, t, theirs);
  }

  lemma {:induction false} CommitKeepsHold(db: Db, s: Sid, theirs: Tx)
    requires s in db.open && PaymentChecked(db.open[s]) && !Clash(db.open[s], theirs)
    requires db.open[s].hold.Some? ==> HoldOk(db, db.open[s].hold.value)
    requires theirs.hold.Some? && HoldOk(db, theirs.hold.value)
    ensures HoldOk(Commit(db, s), theirs.hold.value)
  {
    var mine, hold := db.open[s], theirs.hold.value;
    assert HoldsRow(theirs, hold.ref) && !HoldsRow(mine, hold.ref);
    if hold.flushed && mine.hold.Some? && hold.after.payment.Some? {
      assert ClaimsPayment(theirs, hold.after.payment) && !ClaimsPayment(mine, hold.after.payment);
    }
  }

  lemma {:induction false} CommitKeepsWrite(db: Db, s: Sid, t: Sid, theirs: Tx)
    requires s in db.open && !Clash(db.open[s], theirs) && WriteOk(db, t, theirs)
    ensures WriteOk(Commit(db, s), t, theirs)
  {
    if theirs.write.Some? && theirs.write.value.delta != 0 {
      var u := theirs.write.value.user;
      assert LocksWallet(theirs, u) && !LocksWallet(db.open[s], u);
      assert Balance(Commit(db, s), u) == Balance(db, u);
    }
  }

  /** The rows change exactly as the ledger does. */
  lemma {:induction false} CommittedRowMatchesWrite(rows: map<Ref, Row>, tx: Tx, ref: Ref)
    requires tx.hold.Some? ==>
      && tx.hold.value.before == Lookup(rows, tx.hold.value.ref)
      && (Settled(rows, tx.hold.value.ref) ==> tx.hold.value.after == rows[tx.hold.value.ref])
    requires Completing(tx) ==> tx.write == Some(PurchasePosting(tx.hold.value.ref, tx.hold.value.after))
    requires tx.write.Some? && tx.write.value.why.Purchase? ==> Completing(tx)
    ensures PurchasesFor(if tx.hold.Some? then rows[tx.hold.value.ref := tx.hold.value.after] else rows, ref)
         == PurchasesFor(rows, ref) + if tx.write.Some? && About(tx.write.value, OfRef(ref)) then [tx.write.value] else []
  {
    if Completing(tx) {
      assert tx.write.value.why == Purchase(tx.hold.value.ref);
    }
  }

  lemma {:induction false} CommitKeepsPurchases(db: Db, s: Sid)
    requires PurchasesOnce(db) && SessionsOk(db) && s in db.open
    ensures PurchasesOnce(Commit(db, s))
  {
    var tx := db.open[s];
    assert TxOk(db, s, tx);
    if tx.write.Some? {
      LedgerGrows(db.ledger, tx.write.value);
    }
    forall ref
      ensures Entries(Commit(db, s).ledger, OfRef(ref)) == PurchasesFor(Commit(db, s).rows, ref)
    {
      assert Entries(db.ledger, OfRef(ref)) == PurchasesFor(db.rows, ref);
      CommittedRowMatchesWrite(db.rows, tx, ref);
    }
  }

  lemma {:induction false} CommitKeepsReplies(db: Db, s: Sid)
    requires RepliesPaid(db) && SessionsOk(db) && s in db.open
    ensures RepliesPaid(Commit(db, s))
  {
    var db', tx := Commit(db, s), db.open[s];
    assert TxOk(db, s, tx);
    if tx.write.Some? {
      EntriesGrow(db.ledger, tx.write.value, AnyReply);
    }
    if tx.reply.Some? {
      assert db'.recorded[..|db.recorded|] == db.recorded;
    }
  }

  lemma {:induction false} CommitKeepsPayments(db: Db, s: Sid)
    requires PaymentsUnique(db) && SessionsOk(db) && s in db.open && PaymentChecked(db.open[s])
    ensures PaymentsUnique(Commit(db, s))
  {
    assert TxOk(db, s, db.open[s]);
  }

  lemma {:induction false} CommitKeepsSessions(db: Db, s: Sid)
    requires Exclusive(db) && SessionsOk(db) && s in db.open && PaymentChecked(db.open[s])
    ensures SessionsOk(Commit(db, s))
  {
    var db' := Commit(db, s);
    forall t | t in db'.open
      ensures TxOk(db', t, db'.open[t])
    {
      CommitKeepsOthers(db, s, t);
    }
  }

  lemma {:induction false} CommitKeepsExclusion(db: Db, s: Sid)
    requires Exclusive(db)
    ensures Exclusive(Commit(db, s))
  {
    var db' := Commit(db, s);
    assert forall t :: t in db'.open ==> t in db.open && db'.open[t] == db.open[t];
  }

  lemma {:induction false} CommitConserves(db: Db, opening: map<User, int>, s: Sid)
    requires Conserved(db, opening) && s in db.open
    ensures Conserved(Commit(db, s), opening)
  {
    if db.open[s].write.Some? {
      LedgerGrows(db.ledger, db.open[s].write.value);
    }
  }

  lemma {:induction false} CommitKeepsSafety(db: Db, opening: map<User, int>, s: Sid)
    requires SafeDb(db, opening) && s in db.open && PaymentChecked(db.open[s])
    ensures SafeDb(Commit(db, s), opening)
  {
    CommitKeepsExclusion(db, s);
    CommitKeepsSessions(db, s);
    CommitKeepsPurchases(db, s);
    CommitKeepsPayments(db, s);
    CommitKeepsReplies(db, s);
    CommitConserves(db, opening, s);
  }

  // --- what a step of one process leaves to the others ------------------

  /** Rows are never lost, they keep their buyer and their credits, and a completed row never
      changes. */
  ghost predicate RowsGrow(rows: map<Ref, Row>, rows': map<Ref, Row>) {
    forall r :: r in rows ==>
      && r in rows' && rows'[r].user == rows[r].user && rows'[r].credits == rows[r].credits
      && (rows[r].completed ==> rows'[r] == rows[r])
  }

  /** Sessions of other processes, and the postings about their jobs and replies, are
      untouched by a step of `proc`. */
  ghost predicate Frame(db: Db, db': Db, proc: nat) {
    && RowsGrow(db.rows, db'.rows)
    && (forall t: Sid :: t.proc != proc ==> (t in db'.open <==> t in db.open))
    && (forall t: Sid :: t.proc != proc && t in db.open && t in db'.open ==> db'.open[t] == db.open[t])
    && (forall job :: job != proc ==> Entries(db'.ledger, OfJob(job)) == Entries(db.ledger, OfJob(job)))
    && (forall turn, slot :: turn != proc ==> Entries(db'.ledger, OfSlot(turn, slot)) == Entries(db.ledger, OfSlot(turn, slot)))
  }

  ghost predicate JobsUntouched(db: Db, db': Db) {
    forall job :: Entries(db'.ledger, OfJob(job)) == Entries(db.ledger, OfJob(job))
  }

  predicate JobWrite(tx: Tx) {
    tx.write.Some? && (tx.write.value.why.MediaDebit? || tx.write.value.why.Refund?)
  }

  lemma {:induction false} PutFrame(db: Db, s: Sid, tx: Tx)
    ensures Frame(db, Put(db, s, tx), s.proc) && JobsUntouched(db, Put(db, s, tx))
  {
  }

  lemma {:induction false} RollbackFrame(db: Db, s: Sid)
    ensures Frame(db, Rollback(db, s), s.proc) && JobsUntouched(db, Rollback(db, s))
  {
  }

  lemma {:induction false} CommittedRowsGrow(db: Db, s: Sid)
    requires s in db.open && TxOk(db, s, db.open[s])
    ensures RowsGrow(db.rows, Commit(db, s).rows)
  {
  }

  /** A commit posts under its own process only. */
  lemma {:induction false} CommittedEntries(db: Db, s: Sid)
    requires s in db.open && TxOk(db, s, db.open[s])
    ensures forall job :: job != s.proc || !JobWrite(db.open[s]) ==>
      Entries(Commit(db, s).ledger, OfJob(job)) == Entries(db.ledger, OfJob(job))
    ensures forall turn, slot :: turn != s.proc ==>
      Entries(Commit(db, s).ledger, OfSlot(turn, slot)) == Entries(db.ledger, OfSlot(turn, slot))
  {
    if db.open[s].write.Some? {
      LedgerGrows(db.ledger, db.open[s].write.value);
    }
  }

  lemma {:induction false} CommitFrame(db: Db, s: Sid)
    requires s in db.open && TxOk(db, s, db.open[s])
    ensures Frame(db, Commit(db, s), s.proc)
    ensures !JobWrite(db.open[s]) ==> JobsUntouched(db, Commit(db, s))
  {
    CommittedRowsGrow(db, s);
    CommittedEntries(db, s);
  }
}

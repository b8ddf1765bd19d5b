/** The database object whose rows the server updates, with the wallet operations of
    app/services/billing.py and the statements of the handlers. Each method is proved
    against the statement functions of Ledger. */
module Billing {
  import opened Wrappers
  import opened Ledger

  datatype Answer = Waits | Refuses | Proceeds

  /** The method did what the statement says: nothing while waiting or refused. */
  ghost predicate Agrees(stmt: Stmt, answer: Answer, before: Db, after: Db) {
    match stmt
    case Blocked => answer == Waits && after == before
    case Refused => answer == Refuses && after == before
    case Done(db) => answer == Proceeds && after == db
  }

  class Database {
    var wallets: map<User, int>
    var rows: map<Ref, Row>
    var table: map<nat, Reply>
    var nextId: nat
    ghost var recorded: seq<Reply>
    var open: map<Sid, Tx>
    ghost var ledger: seq<Posting>

    ghost function View(): Db
      reads this
    {
      Db(wallets, rows, recorded, table, open, ledger)
    }

    /** Row ids are handed out in order. */
    ghost predicate Valid()
      reads this
    {
      nextId == |recorded|
    }

    constructor (opening: map<User, int>)
      ensures Valid() && View() == Db(opening, map[], [], map[], map[], [])
      ensures SafeDb(View(), opening)
    {
      wallets, rows, table, nextId, open := opening, map[], map[], 0, map[];
      recorded, ledger := [], [];
    }

    method GetBalance(user: User) returns (balance: int)
      ensures balance == Balance(View(), user)
    {
      if user in wallets {
        balance := wallets[user];
      } else {
        balance := 0;
      }
    }

    method Current(s: Sid) returns (tx: Tx)
      ensures tx == TxOf(View(), s)
    {
      tx := if s in open then open[s] else EMPTY_TX;
    }

    /** billing.debit */
    method Debit(s: Sid, user: User, amount: int, allowOverdraft: bool, why: Reason) returns (answer: Answer)
      modifies this`open
      ensures Agrees(DebitStmt(old(View()), s, user, amount, allowOverdraft, why), answer, old(View()), View())
    {
      var tx := Current(s);
      if amount <= 0 {
        open := open[s := tx.(write := Some(Posting(user, 0, why)))];
        return Proceeds;
      }
      if user !in wallets {
        return Refuses;
      }
      if !allowOverdraft && wallets[user] < amount {
        return Refuses;
      }
      if !WalletFree(open, s, user) {
        return Waits;
      }
      open := open[s := tx.(write := Some(Posting(user, -amount, why)))];
      return Proceeds;
    }

    /** billing.credit */
    method Credit(s: Sid, user: User, amount: int, why: Reason) returns (answer: Answer)
      modifies this`open
      ensures Agrees(CreditStmt(old(View()), s, user, amount, why), answer, old(View()), View())
    {
      var tx := Current(s);
      if amount > 0 && !WalletFree(open, s, user) {
        return Waits;
      }
      open := open[s := tx.(write := Some(Posting(user, if amount > 0 then amount else 0, why)))];
      return Proceeds;
    }

    /** billing.refund */
    method Refund(s: Sid, user: User, amount: int) returns (answer: Answer)
      modifies this`open
      ensures Agrees(CreditStmt(old(View()), s, user, amount, Reason.Refund(s.proc)), answer, old(View()), View())
    {
      answer := Credit(s, user, amount, Reason.Refund(s.proc));
    }

    method LockRow(s: Sid, ref: Ref) returns (answer: Answer)
      modifies this`open
      ensures Agrees(SelectForUpdate(old(View()), s, ref), answer, old(View()), View())
    {
      if ref !in rows {
        return Refuses;
      }
      if !RowFree(open, s, ref) {
        return Waits;
      }
      var tx := Current(s);
      open := open[s := tx.(hold := Some(Hold(ref, Some(rows[ref]), rows[ref], false)))];
      return Proceeds;
    }

    method Insert(s: Sid, ref: Ref, user: User, credits: int) returns (answer: Answer)
      modifies this`open
      ensures Agrees(InsertRow(old(View()), s, ref, user, credits), answer, old(View()), View())
    {
      if ref in rows {
        return Refuses;
      }
      if !RowFree(open, s, ref) {
        return Waits;
      }
      var tx := Current(s);
      open := open[s := tx.(hold := Some(Hold(ref, None, Row(user, credits, false, None), false)))];
      return Proceeds;
    }

    method Flush(s: Sid) returns (answer: Answer)
      requires TxOf(View(), s).hold.Some?
      modifies this`open
      ensures Agrees(FlushRow(old(View()), s), answer, old(View()), View())
    {
      var tx := Current(s);
      var hold := tx.hold.value;
      if !PaymentUnused(rows, hold.ref, hold.after.payment) {
        return Refuses;
      }
      if !PaymentFree(open, s, hold.after.payment) {
        return Waits;
      }
      open := open[s := tx.(hold := Some(hold.(flushed := true)))];
      return Proceeds;
    }

    /** Credit the buyer of the held row and mark the row completed. */
    method SettleHeld(s: Sid, payment: Option<string>) returns (answer: Answer)
      requires TxOf(View(), s).hold.Some?
      modifies this`open
      ensures Agrees(Settle(old(View()), s, payment), answer, old(View()), View())
    {
      var hold := open[s].hold.value;
      answer := Credit(s, hold.after.user, hold.after.credits, Purchase(hold.ref));
      if answer == Proceeds {
        open := open[s := open[s].(hold := Some(hold.(after := hold.after.(completed := true, payment := payment))))];
      }
    }

    /** The transaction of _record_reply up to its commit. */
    method ChargeReply(s: Sid, reply: Reply) returns (answer: Answer)
      modifies this`open
      ensures Agrees(ReplyStmt(old(View()), s, reply), answer, old(View()), View())
    {
      answer := Debit(s, reply.user, reply.cost, true, ReplyCost(reply.turn, reply.slot));
      if answer == Proceeds {
        open := open[s := open[s].(reply := Some(reply))];
      }
    }

    method CommitSession(s: Sid)
      requires Valid()
      modifies this
      ensures Valid() && View() == Commit(old(View()), s)
    {
      var tx := Current(s);
      if tx.write.Some? {
        var posting := tx.write.value;
        if posting.delta != 0 {
          var balance := GetBalance(posting.user);
          wallets := wallets[posting.user := balance + posting.delta];
        }
        ledger := ledger + [posting];
      }
      if tx.hold.Some? {
        rows := rows[tx.hold.value.ref := tx.hold.value.after];
      }
      if tx.reply.Some? {
        table := table[nextId := tx.reply.value];
        nextId := nextId + 1;
        recorded := recorded + [tx.reply.value];
      }
      open := open - {s};
    }

    method EraseReplies(ids: set<nat>)
      modifies this`table
      ensures View() == Erase(old(View()), ids)
    {
      table := table - ids;
    }

    method RollbackSession(s: Sid)
      modifies this`open
      ensures View() == Rollback(old(View()), s)
    {
      open := open - {s};
    }
  }
}

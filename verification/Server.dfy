/** The server: one database object and the processes that run on it. */
module Server {
  import opened Ledger
  import opened Billing
  import opened Payments
  import opened MediaJobs
  import opened ChatBilling
  import opened Economy
  import opened Handlers

  class Server {
    const db: Database
    const maxAttempts: nat
    ghost const opening: map<User, int>
    var procs: seq<Proc>

    ghost function State(): World
      reads this, db
    {
      World(db.View(), procs)
    }

    ghost predicate Valid()
      reads this, db
    {
      maxAttempts > 0 && db.Valid() && Inv(State(), opening, maxAttempts)
    }

    constructor (opening: map<User, int>, maxAttempts: nat)
      requires maxAttempts > 0
      ensures Valid() && State() == Start(opening) && fresh(db)
      ensures this.opening == opening && this.maxAttempts == maxAttempts
    {
      this.db := new Database(opening);
      this.maxAttempts := maxAttempts;
      this.opening := opening;
      this.procs := [];
    }

    method RunProcess(p: nat, proc: Proc, je: JobEvent, ev: TurnEvent) returns (proc': Proc)
      requires db.Valid()
      modifies db
      ensures db.Valid() && (db.View(), proc') == StepProc(old(db.View()), p, proc, je, ev, maxAttempts)
    {
      match proc
      case Buying(c) =>
        var c' := InsertCheckoutRow(db, Sid(p, 0), c);
        proc' := Buying(c');
      case Delivering(d) =>
        var d' := HandleCheckoutCompleted(db, Sid(p, 0), d);
        proc' := Delivering(d');
      case Verifying(v) =>
        var v' := VerifyRazorpayPayment(db, Sid(p, 0), v);
        proc' := Verifying(v');
      case Making(j) =>
        var j' := RunMediaJob(db, p, j, je, maxAttempts);
        proc' := Making(j');
      case Chatting(t) =>
        var t' := RunChatTurn(db, p, t, ev);
        proc' := Chatting(t');
    }

    /** Let one event happen; the server's invariant survives it. */
    method Handle(e: Event)
      requires Valid()
      modifies this, db
      ensures State() == Next(old(State()), e, maxAttempts)
      ensures Valid()
    {
      NextIsSafe(State(), opening, e, maxAttempts);
      match e
      case Spawn(proc) =>
        if Initial(proc) {
          procs := procs + [proc];
        }
      case Step(p, je, ev) =>
        if p < |procs| {
          var proc := RunProcess(p, procs[p], je, ev);
          procs := procs[p := proc];
        }
      case Crash(p) =>
        if p < |procs| && Interrupted(procs[p]) {
          db.RollbackSession(Sid(p, 0));
          procs := procs[p := Dropped(procs[p])];
        }
      case Delete(p) =>
        if p < |procs| && procs[p].Making? {
          procs := procs[p := Making(DeleteVideo(procs[p].job))];
        }
      case EraseRows(ids) => db.EraseReplies(ids);
    }
  }
}

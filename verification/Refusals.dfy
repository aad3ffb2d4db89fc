/** The other half of linearizability: a request that is answered with an error was refusable
    at one moment between its arrival and its answer, and exactly when it has changed
    something all the same. */
module Refusals {
  import opened Records
  import opened Transactions
  import opened Services
  import opened Statuses
  import opened Protocol
  import opened Invariants
  import opened Runs
  import opened Refinement

  /** What a request would be answered with, apart from its content, if it ran at this instant
      as a whole. */
  function Verdict(db: Db, cmd: Command): Result<()> {
    if cmd.Create? || Edits(cmd) then
      match Atomic(db, cmd)
      case Ok(_) => Ok(())
      case Err(error) => Err(error)
    else if !Gate(cmd) then Err(Forbidden)
    else if !Live(db, cmd.key) then Err(NotFound)
    else if cmd.Delete? && db.rows[cmd.key].record.status != Draft then Err(Locked)
    else Ok(())
  }

  /** Moment `k` of the run lies after the request arrived, or is the moment it arrives. */
  predicate Arrived(s: State, es: seq<Event>, k: nat, r: nat) {
    k < |es| && r in Run(s, es[..k + 1]).requests
  }

  predicate ReadAt(s: State, es: seq<Event>, k: nat, r: nat, key: Key, item: Record) {
    Arrived(s, es, k, r) && Live(Run(s, es[..k]).db, key) && Run(s, es[..k]).db.rows[key].record == item
  }

  /** At moment `k` the whole request would have been refused, for the same reason unless the
      reason given is a conflict. */
  predicate RefusedAt(s: State, es: seq<Event>, k: nat, r: nat, cmd: Command, error: Error) {
    && Arrived(s, es, k, r)
    && Verdict(Run(s, es[..k]).db, cmd).Err?
    && (error != Conflict ==> Verdict(Run(s, es[..k]).db, cmd) == Err(error))
  }

  ghost predicate Explained(s: State, es: seq<Event>, r: nat, phase: Phase) {
    && (phase.Loading? || phase.Loaded? ==> exists k: nat :: ReadAt(s, es, k, r, phase.cmd.key, phase.item))
    && (phase.Done? && phase.outcome.Err? && phase.outcome.error != Unavailable ==>
          || (exists k: nat :: RefusedAt(s, es, k, r, phase.cmd, phase.outcome.error))
          || (phase.outcome.error == NotFound && Executed(Linearize(s, es), r)))
  }

  lemma Prefixes(es: seq<Event>, k: nat)
    requires es != [] && k < |es| - 1
    ensures es[..|es| - 1][..k] == es[..k] && es[..|es| - 1][..k + 1] == es[..k + 1]
  {
  }

  lemma ExplainedLonger(s: State, es: seq<Event>, r: nat, phase: Phase)
    requires es != [] && Explained(s, es[..|es| - 1], r, phase)
    ensures Explained(s, es, r, phase)
  {
    hide Verdict, Step, Run, OpsOf;
    var init, cmd := es[..|es| - 1], phase.cmd;
    if phase.Loading? || phase.Loaded? {
      var k: nat :| ReadAt(s, init, k, r, cmd.key, phase.item);
      Prefixes(es, k);
      assert ReadAt(s, es, k, r, cmd.key, phase.item);
    }
    if phase.Done? && phase.outcome.Err? && phase.outcome.error != Unavailable {
      if k: nat :| RefusedAt(s, init, k, r, cmd, phase.outcome.error) {
        Prefixes(es, k);
        assert RefusedAt(s, es, k, r, cmd, phase.outcome.error);
      } else {
        ExecutedConcat(Linearize(s, init), OpsOf(Run(s, init), es[|es| - 1]), r);
      }
    }
  }

  lemma ArrivalExplained(s: State, es: seq<Event>, r: nat, cmd: Command)
    requires es != [] && es[|es| - 1] == Begin(r, cmd) && r !in Run(s, es[..|es| - 1]).requests
    ensures Explained(s, es, r, Start(Run(s, es[..|es| - 1]).db, cmd))
  {
    var k := |es| - 1;
    assert es[..k + 1] == es;
    var db, phase := Run(s, es[..k]).db, Start(Run(s, es[..k]).db, cmd);
    if phase.Loading? {
      assert ReadAt(s, es, k, r, cmd.key, phase.item);
    } else if phase.Done? {
      assert RefusedAt(s, es, k, r, cmd, phase.outcome.error);
    }
  }

  /** A refusal on an early read is the refusal of the whole request at the moment of the read. */
  lemma JudgementExplained(s: State, es: seq<Event>, r: nat, phase: Phase)
    requires phase.Loaded? && Gate(phase.cmd) && Explained(s, es, r, phase)
    ensures Explained(s, es, r, Judge(phase.cmd, phase.item, phase.log))
  {
    hide Decide, Gate;
    var k: nat :| ReadAt(s, es, k, r, phase.cmd.key, phase.item);
    var next := Judge(phase.cmd, phase.item, phase.log);
    if next.Done? && next.outcome.Err? {
      assert Verdict(Run(s, es[..k]).db, phase.cmd) == Err(next.outcome.error);
      assert RefusedAt(s, es, k, r, phase.cmd, next.outcome.error);
    }
  }

  lemma CommitRefused(db: Db, cmd: Command, before: Record, item: Record)
    requires Edits(cmd) && Commit(db, cmd, before, item).Err?
    ensures Commit(db, cmd, before, item) == Err(Conflict) && Atomic(db, cmd).Err?
  {
  }

  /** A transaction that is refused is the refusal of the whole request at this moment. */
  lemma TransactionRefused(db: Db, phase: Phase)
    requires PhaseOk(db, phase) && (phase.Checked? || phase.Drafting? || phase.Deleting?)
    requires var next := Advance(db, phase).1; next.Done?
    ensures Advance(db, phase).1.outcome.Err?
    ensures var error := Advance(db, phase).1.outcome.error;
            && Verdict(db, phase.cmd).Err?
            && (error != Conflict ==> Verdict(db, phase.cmd) == Err(error))
  {
    hide Decide, LogOf, Commit;
    if phase.Checked? {
      CommitRefused(db, phase.cmd, phase.before, phase.item);
    }
  }

  lemma StepExplained(s: State, es: seq<Event>, r: nat)
    requires es != [] && es[|es| - 1] == Next(r) && r in Run(s, es[..|es| - 1]).requests
    requires Inv(Run(s, es[..|es| - 1]))
    requires Explained(s, es, r, Run(s, es[..|es| - 1]).requests[r])
    requires Past(Run(s, es[..|es| - 1]).requests[r]) ==> Executed(Linearize(s, es), r)
    ensures Explained(s, es, r, Run(s, es).requests[r])
  {
    hide Verdict, Executed, Linearize, Decide, Commit, CreateVersion, SoftDelete, LogOf;
    var k := |es| - 1;
    var mid := Run(s, es[..k]);
    var phase := mid.requests[r];
    assert es[..k + 1] == es && Run(s, es) == Step(mid, Next(r));
    assert PhaseOk(mid.db, phase);
    if phase.Loading? {
      var j: nat :| ReadAt(s, es, j, r, phase.cmd.key, phase.item);
      assert ReadAt(s, es, j, r, phase.cmd.key, Run(s, es).requests[r].item);
    } else if phase.Loaded? {
      JudgementExplained(s, es, r, phase);
    } else if phase.Checked? || phase.Drafting? || phase.Deleting? {
      if Advance(mid.db, phase).1.Done? {
        TransactionRefused(mid.db, phase);
        assert RefusedAt(s, es, k, r, phase.cmd, Run(s, es).requests[r].outcome.error);
      }
    }
  }

  ghost predicate AllExplained(s: State, es: seq<Event>) {
    forall r :: r in Run(s, es).requests ==> Explained(s, es, r, Run(s, es).requests[r])
  }

  lemma OneExplained(s: State, es: seq<Event>, r: nat)
    requires s.requests == map[] && es != [] && AllExplained(s, es[..|es| - 1]) && r in Run(s, es).requests
    requires Inv(Run(s, es[..|es| - 1]))
    ensures Explained(s, es, r, Run(s, es).requests[r])
  {
    hide Explained, Inv, Past, Advance, Start;
    var init, e := es[..|es| - 1], es[|es| - 1];
    var mid := Run(s, init);
    assert Run(s, es) == Step(mid, e);
    if r in mid.requests {
      ExplainedLonger(s, es, r, mid.requests[r]);
      if e == Next(r) {
        CommitsOnce(s, init);
        ExecutedConcat(Linearize(s, init), OpsOf(mid, e), r);
        StepExplained(s, es, r);
      } else if e == Abort(r) {
        AbortExplained(s, es, r, mid.requests[r].cmd);
      }
    } else {
      ArrivalExplained(s, es, r, e.cmd);
    }
  }

  lemma AbortExplained(s: State, es: seq<Event>, r: nat, cmd: Command)
    ensures Explained(s, es, r, Done(cmd, Err(Unavailable)))
  {
  }

  lemma {:induction false} RunExplained(s: State, es: seq<Event>)
    requires s.requests == map[] && Inv(s)
    ensures AllExplained(s, es)
  {
    hide Explained;
    if es != [] {
      RunExplained(s, es[..|es| - 1]);
      RunOk(s, es[..|es| - 1]);
      forall r | r in Run(s, es).requests ensures Explained(s, es, r, Run(s, es).requests[r]) {
        OneExplained(s, es, r);
      }
    }
  }

  // What an answered error says about the tables.

  /** The request has an entry in the history: it committed a transaction or removed a row. */
  predicate Changed(ops: seq<Op>, r: nat) {
    exists i :: 0 <= i < |ops| && ops[i].r == r
  }

  /** The request wrote a record that is deleted. */
  predicate Gone(ops: seq<Op>, r: nat, db: Db) {
    exists i :: 0 <= i < |ops| && ops[i].Exec? && ops[i].r == r && Marked(db, ops[i].key)
  }

  /** The record of the request was live when the request arrived. */
  ghost predicate MetLive(s: State, es: seq<Event>, r: nat) {
    es != [] &&
    (var init, e := es[..|es| - 1], es[|es| - 1];
     if r in Run(s, init).requests then MetLive(s, init, r)
     else e.Begin? && e.r == r && !e.cmd.Create? && Live(Run(s, init).db, e.cmd.key))
  }

  /** A request that a last "not found" does not take back: it was accepted before. */
  predicate Admissible(cmd: Command, met: bool) {
    cmd.Create? || (Edits(cmd) && met)
  }

  /** What the phase of a request tells: whether its record was live as it arrived, whether it
      has changed the tables, and whether the record it wrote is deleted. */
  predicate Account(phase: Phase, met: bool, changed: bool, gone: bool) {
    && (!phase.Done? && Edits(phase.cmd) ==> met)
    && (phase.Done? && phase.outcome.Err? && phase.outcome.error != Unavailable ==>
          && (changed <==> phase.outcome.error == NotFound && Admissible(phase.cmd, met))
          && (changed ==> gone))
  }

  ghost predicate Accounted(s: State, es: seq<Event>, r: nat, phase: Phase) {
    var ops := Linearize(s, es);
    Account(phase, MetLive(s, es, r), Changed(ops, r), Gone(ops, r, Run(s, es).db))
  }

  lemma ChangedConcat(a: seq<Op>, b: seq<Op>, r: nat)
    ensures Changed(a + b, r) <==> Changed(a, r) || Changed(b, r)
  {
    if Changed(a, r) {
      var i :| 0 <= i < |a| && a[i].r == r;
      assert (a + b)[i] == a[i];
    }
    if Changed(b, r) {
      var i :| 0 <= i < |b| && b[i].r == r;
      assert (a + b)[|a| + i] == b[i];
    }
  }

  /** While it is under way, a request has changed something exactly if its phase says so. */
  lemma ChangedUnderWay(s: State, es: seq<Event>, r: nat)
    requires s.requests == map[]
    ensures r !in Run(s, es).requests ==> !Changed(Linearize(s, es), r)
    ensures r in Run(s, es).requests && !Run(s, es).requests[r].Done? ==>
              (Changed(Linearize(s, es), r) <==> Past(Run(s, es).requests[r]) || Run(s, es).requests[r].Deleted?)
  {
    CommitsOnce(s, es);
    var ops := Linearize(s, es);
    if Changed(ops, r) {
      var i :| 0 <= i < |ops| && ops[i].r == r;
      assert About(ops[i], Run(s, es).requests);
    }
    if Executed(ops, r) {
      assert Changed(ops, r);
    }
    if Removes(ops, r) {
      assert Changed(ops, r);
    }
  }

  /** A step changes something for `r` if it commits an entry of `r`. */
  lemma ChangedNow(s: State, es: seq<Event>, r: nat)
    requires es != []
    ensures var added := OpsOf(Run(s, es[..|es| - 1]), es[|es| - 1]);
            Changed(Linearize(s, es), r) <==>
            Changed(Linearize(s, es[..|es| - 1]), r) || (es[|es| - 1] == Next(r) && added != [])
  {
    hide Commit, SoftDelete, CreateVersion, Run;
    var added := OpsOf(Run(s, es[..|es| - 1]), es[|es| - 1]);
    ChangedConcat(Linearize(s, es[..|es| - 1]), added, r);
    if added != [] {
      assert added[0].r == es[|es| - 1].r;
      if es[|es| - 1] == Next(r) {
        assert Changed(added, r);
      }
    }
  }

  lemma GoneStays(s: State, es: seq<Event>, r: nat)
    requires es != [] && Inv(Run(s, es[..|es| - 1]))
    requires Gone(Linearize(s, es[..|es| - 1]), r, Run(s, es[..|es| - 1]).db)
    ensures Gone(Linearize(s, es), r, Run(s, es).db)
  {
    hide OpsOf, Inv;
    var mid, ops := Run(s, es[..|es| - 1]), Linearize(s, es[..|es| - 1]);
    var i :| 0 <= i < |ops| && ops[i].Exec? && ops[i].r == r && Marked(mid.db, ops[i].key);
    StepOk(mid, es[|es| - 1]);
    assert LaterAt(mid.db, Run(s, es).db, ops[i].key);
    assert Linearize(s, es)[i] == ops[i];
  }

  /** Someone else's step, a failure, or an arrival. */
  lemma OtherAccounted(s: State, es: seq<Event>, r: nat)
    requires s.requests == map[] && es != [] && es[|es| - 1] != Next(r) && r in Run(s, es).requests
    requires Inv(Run(s, es[..|es| - 1]))
    requires var mid := Run(s, es[..|es| - 1]);
             r in mid.requests ==> Accounted(s, es[..|es| - 1], r, mid.requests[r])
    ensures Accounted(s, es, r, Run(s, es).requests[r])
  {
    hide Advance, Linearize, Changed, Gone, Inv;
    var init, e := es[..|es| - 1], es[|es| - 1];
    var mid := Run(s, init);
    ChangedNow(s, es, r);
    ChangedUnderWay(s, init, r);
    if Gone(Linearize(s, init), r, mid.db) {
      GoneStays(s, es, r);
    }
  }

  /** The request that has committed and finds its row deleted wrote that row. */
  lemma WrittenGone(s: State, es: seq<Event>, r: nat)
    requires s.requests == map[] && r in Run(s, es).requests && Run(s, es).requests[r].Written?
    requires Marked(Run(s, es).db, Run(s, es).requests[r].key)
    ensures Gone(Linearize(s, es), r, Run(s, es).db)
  {
    CommitsOnce(s, es);
    var ops := Linearize(s, es);
    var i :| 0 <= i < |ops| && ops[i].Exec? && ops[i].r == r;
    assert About(ops[i], Run(s, es).requests);
  }

  /** Whether a request commits an entry when it goes on. */
  predicate WillCommit(db: Db, phase: Phase) {
    match phase
    case Checked(cmd, before, item) => Commit(db, cmd, before, item).Ok?
    case Drafting(cmd, item) => CreateVersion(db, item, cmd.who).Ok?
    case Deleting(cmd, _) => SoftDelete(db, cmd.key).Ok?
    case Deleted(_, _) => true
    case _ => false
  }

  lemma AdvanceAccount(db: Db, phase: Phase, met: bool, changed: bool, gone: bool, gone': bool)
    requires PhaseOk(db, phase) && Account(phase, met, changed, gone)
    requires !phase.Done? ==> (changed <==> Past(phase) || phase.Deleted?)
    requires gone ==> gone'
    requires phase.Written? && Marked(db, phase.key) ==> gone'
    ensures Account(Advance(db, phase).1, met, changed || WillCommit(db, phase), gone')
  {
    hide Decide, LogOf, CodeTaken;
    if phase.Loaded? && Edits(phase.cmd) {
      DecideErrors(phase.cmd, phase.item);
    }
  }

  lemma DecideErrors(cmd: Command, cur: Record)
    requires Edits(cmd)
    ensures Decide(cmd, cur).Err? ==> Decide(cmd, cur).error != NotFound
  {
  }

  lemma CommitsEntry(s: State, r: nat)
    requires r in s.requests
    ensures OpsOf(s, Next(r)) != [] <==> WillCommit(s.db, s.requests[r])
  {
  }

  /** The request's own step. */
  lemma OwnAccounted(s: State, es: seq<Event>, r: nat)
    requires s.requests == map[] && es != [] && es[|es| - 1] == Next(r) && r in Run(s, es[..|es| - 1]).requests
    requires Inv(Run(s, es[..|es| - 1]))
    requires Accounted(s, es[..|es| - 1], r, Run(s, es[..|es| - 1]).requests[r])
    ensures Accounted(s, es, r, Run(s, es).requests[r])
  {
    hide Changed, Gone, Account, Advance, Past, PhaseOk, WillCommit, OpsOf, Linearize;
    var init := es[..|es| - 1];
    var mid, ops := Run(s, init), Linearize(s, init);
    var phase := mid.requests[r];
    assert PhaseOk(mid.db, phase) && Run(s, es) == Step(mid, Next(r));
    ChangedUnderWay(s, init, r);
    ChangedNow(s, es, r);
    CommitsEntry(mid, r);
    var gone' := Gone(Linearize(s, es), r, Run(s, es).db);
    if phase.Written? && Marked(mid.db, phase.key) {
      WrittenGone(s, init, r);
    }
    if Gone(ops, r, mid.db) {
      GoneStays(s, es, r);
    }
    AdvanceAccount(mid.db, phase, MetLive(s, init, r), Changed(ops, r), Gone(ops, r, mid.db), gone');
  }

  lemma {:induction false} RunAccounted(s: State, es: seq<Event>, r: nat)
    requires s.requests == map[] && Inv(s) && r in Run(s, es).requests
    ensures Accounted(s, es, r, Run(s, es).requests[r])
  {
    hide Advance, Inv, Accounted;
    var init := es[..|es| - 1];
    RunOk(s, init);
    if r in Run(s, init).requests {
      RunAccounted(s, init, r);
    }
    if es[|es| - 1] == Next(r) {
      assert r in Run(s, init).requests;
      OwnAccounted(s, es, r);
    } else {
      OtherAccounted(s, es, r);
    }
  }

  /** A request of any kind that is answered with an error, other than an infrastructure
      failure, has changed nothing - unless, and exactly when, it is a create that is answered
      "not found", or an edit that is answered "not found" although its record was live when it
      arrived. Then it has committed, and the record it wrote is deleted. In particular a delete
      that is answered "locked" or "not found" has removed nothing. */
  lemma ErrorChangedNothingExactlyWhen(s: State, es: seq<Event>, r: nat)
    requires s.requests == map[] && Inv(s)
    requires r in Run(s, es).requests && Run(s, es).requests[r].Done? && Run(s, es).requests[r].outcome.Err?
    requires Run(s, es).requests[r].outcome.error != Unavailable
    ensures var cmd, error := Run(s, es).requests[r].cmd, Run(s, es).requests[r].outcome.error;
            Changed(Linearize(s, es), r) <==> error == NotFound && (cmd.Create? || (Edits(cmd) && MetLive(s, es, r)))
    ensures Changed(Linearize(s, es), r) ==> Gone(Linearize(s, es), r, Run(s, es).db)
  {
    hide Changed, Gone, MetLive;
    RunAccounted(s, es, r);
  }

  /** At the final Get itself: a request that has committed is answered "not found" if and only
      if its row is marked deleted at that moment. */
  lemma {:induction false} FinalGetMissesExactlyWhen(s: State, es: seq<Event>, r: nat)
    requires Inv(s) && r in Run(s, es).requests && Run(s, es).requests[r].Written?
    ensures var end := Run(s, es);
            Step(end, Next(r)).requests[r] == Done(end.requests[r].cmd, Err(NotFound)) <==>
            Marked(end.db, end.requests[r].key)
  {
    RunOk(s, es);
    var end := Run(s, es);
    assert PhaseOk(end.db, end.requests[r]);
  }

  /** What a conflict means among honest requests: an edit that is ready to commit is answered
      with a conflict, and changes nothing, if and only if since the version it was sent another
      revision of its record was committed, or the record was deleted. */
  lemma ConflictExactlyWhenOvertaken(s: State, es: seq<Event>, r: nat)
    requires Inv(s) && AllKnown(s) && Honest(s, es)
    requires r in Run(s, es).requests && Run(s, es).requests[r].Checked?
    ensures var end := Run(s, es);
            var cmd, after := end.requests[r].cmd, Step(end, Next(r));
            var overtaken := Marked(end.db, cmd.key) || cmd.expected < |LogOf(end.db.revisions, cmd.key)|;
            && (after.requests[r] == Done(cmd, Err(Conflict)) <==> overtaken)
            && (overtaken ==> after == State(end.db, end.requests[r := Done(cmd, Err(Conflict))]))
  {
    hide Decide, LogOf;
    RunKnown(s, es);
    var end := Run(s, es);
    var phase := end.requests[r];
    assert PhaseOk(end.db, phase) && Known(phase);
    SeenNow(end.db, phase.cmd.key);
    if !Live(end.db, phase.cmd.key) || end.db.rows[phase.cmd.key].record.version != phase.cmd.expected {
      ConflictChangesNothing(end, r);
    }
  }

  /** Refusals are linearizable: a request of any kind that is answered with an error, other
      than an infrastructure failure, would have been refused as a whole at some moment after it
      arrived, for the very reason it was given (a conflict may hide another reason). The one
      exception is a create or an edit that did commit, wrote a record that is deleted by the
      end, and was answered "not found". */
  lemma RefusalsLinearizable(s: State, es: seq<Event>, r: nat)
    requires s.requests == map[] && Inv(s)
    requires r in Run(s, es).requests && Run(s, es).requests[r].Done? && Run(s, es).requests[r].outcome.Err?
    requires Run(s, es).requests[r].outcome.error != Unavailable
    ensures var cmd, error := Run(s, es).requests[r].cmd, Run(s, es).requests[r].outcome.error;
            || (exists k: nat :: RefusedAt(s, es, k, r, cmd, error))
            || (error == NotFound && (cmd.Create? || (Edits(cmd) && MetLive(s, es, r)))
                && Gone(Linearize(s, es), r, Run(s, es).db))
  {
    hide Linearize, Gone, MetLive, RefusedAt;
    RunExplained(s, es);
    assert Explained(s, es, r, Run(s, es).requests[r]);
    ErrorChangedNothingExactlyWhen(s, es, r);
    if Executed(Linearize(s, es), r) {
      ExecutedChanged(Linearize(s, es), r);
    }
  }

  lemma ExecutedChanged(ops: seq<Op>, r: nat)
    requires Executed(ops, r)
    ensures Changed(ops, r)
  {
    var i :| 0 <= i < |ops| && ops[i].Exec? && ops[i].r == r;
    assert ops[i].r == r;
  }
}

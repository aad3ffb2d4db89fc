/** The audit table against the requests: who wrote each row, that every success has its row,
    and that every removal is accounted for. Rows are attributed by watching the table grow. */
module Bookkeeping {
  import opened Records
  import opened Transactions
  import opened Services
  import opened Statuses
  import opened Protocol
  import opened Invariants
  import opened Runs
  import opened Refinement

  /** The requests that wrote the audit rows a run added, row by row. */
  function Authors(s: State, es: seq<Event>): seq<nat> {
    if es == [] then []
    else
      var init, e := es[..|es| - 1], es[|es| - 1];
      Authors(s, init) + (if |Run(s, es).db.audits| > |Run(s, init).db.audits| then [e.r] else [])
  }

  function CountOf(authors: seq<nat>, r: nat): nat {
    if authors == [] then 0
    else CountOf(authors[..|authors| - 1], r) + (if authors[|authors| - 1] == r then 1 else 0)
  }

  lemma CountOfAppend(authors: seq<nat>, last: nat, r: nat)
    ensures CountOf(authors + [last], r) == CountOf(authors, r) + (if last == r then 1 else 0)
  {
    assert (authors + [last])[..|authors|] == authors;
  }

  /** The audit row tells this request: who asked for what, about which record, from which state
      to which. */
  predicate Tells(audit: Audit, cmd: Command) {
    && audit.actor == (if cmd.who.actor == "" then "system" else cmd.who.actor)
    && audit.requestId == (if cmd.who.requestId == "" then "untracked" else cmd.who.requestId)
    && match cmd
       case Create(kind, _, _, _) =>
         && audit.action == CreateAction && audit.key.kind == kind
         && audit.before == Blank && audit.after == In(Draft)
       case Update(key, _, _, _) =>
         audit.action == UpdateAction && audit.key == key && audit.before == In(Draft) && audit.after == In(Draft)
       case Transition(key, _, target, reason, _) =>
         && audit.action == TransitionAction && audit.key == key && audit.before.In? && audit.after == In(target)
         && audit.detail == reason
       case Delete(key, _) =>
         && audit.action == DeleteAction && audit.key == key
         && audit.before == In(Draft) && audit.after == Gone
         && audit.detail == (if key.kind == Certificate then "soft deleted 证书记录" else "soft deleted 放行授权")
       case Fetch(_, _) => false
  }

  /** How many audit rows a request in this phase has written. */
  predicate Owes(phase: Phase, n: nat) {
    && n <= 1
    && (phase.cmd.Fetch? ==> n == 0)
    && (phase.cmd.Delete? ==> (n == 1 <==> phase.Done? && phase.outcome.Ok?))
    && (phase.cmd.Create? || Edits(phase.cmd) ==>
          && (!phase.Done? ==> (n == 1 <==> Past(phase)))
          && (phase.Done? && phase.outcome.Ok? ==> n == 1))
  }

  lemma DecisionStatuses(cmd: Command, cur: Record)
    requires Edits(cmd) && Decide(cmd, cur).Ok?
    ensures Decide(cmd, cur).value.status == if cmd.Update? then Draft else cmd.target
    ensures cmd.Update? ==> cur.status == Draft
  {
  }

  /** An audit table that has grown by one row, which tells the request. */
  predicate GrownByOne(audits: seq<Audit>, audits': seq<Audit>, cmd: Command) {
    |audits'| == |audits| + 1 && audits <= audits' && Tells(audits'[|audits|], cmd)
  }

  lemma CreateTells(db: Db, cmd: Command, item: Record)
    requires cmd.Create? && item.Kind() == cmd.kind && item.status == Draft && CreateVersion(db, item, cmd.who).Ok?
    ensures GrownByOne(db.audits, CreateVersion(db, item, cmd.who).value.audits, cmd)
  {
    hide CodeTaken;
  }

  lemma CommitTells(db: Db, cmd: Command, before: Record, item: Record)
    requires Edits(cmd) && Decide(cmd, before) == Ok(item) && Commit(db, cmd, before, item).Ok?
    ensures GrownByOne(db.audits, Commit(db, cmd, before, item).value.audits, cmd)
  {
    hide Decide;
    DecisionStatuses(cmd, before);
  }

  lemma RemovalTells(db: Db, cmd: Command, before: Record)
    requires cmd.Delete? && before.status == Draft
    ensures GrownByOne(db.audits, NoteRemoval(db, cmd, before.status).audits, cmd)
  {
  }

  /** One step of a request writes no audit row, or one that tells it; and it is then past its
      transaction, or a delete that has succeeded. */
  lemma AdvanceWrites(db: Db, phase: Phase)
    requires PhaseOk(db, phase)
    ensures var (db', next) := Advance(db, phase);
            var writes := if phase.cmd.Delete? then phase.Deleted? else !Past(phase) && Past(next) && !phase.Done?;
            if writes then GrownByOne(db.audits, db'.audits, phase.cmd) else db'.audits == db.audits
  {
    hide LogOf, Decide, CreateVersion, Commit, NoteRemoval, GrownByOne;
    match phase
    case Drafting(cmd, item) =>
      if CreateVersion(db, item, cmd.who).Ok? {
        CreateTells(db, cmd, item);
      }
    case Checked(cmd, before, item) =>
      if Commit(db, cmd, before, item).Ok? {
        CommitTells(db, cmd, before, item);
      }
    case Deleted(cmd, before) => RemovalTells(db, cmd, before);
    case _ =>
  }

  lemma AdvanceOwes(db: Db, phase: Phase, n: nat)
    requires Owes(phase, n)
    ensures var next := Advance(db, phase).1;
            var writes := if phase.cmd.Delete? then phase.Deleted? else !Past(phase) && Past(next) && !phase.Done?;
            next.cmd == phase.cmd && Owes(next, if writes then n + 1 else n)
  {
    hide LogOf, Decide, CreateVersion, Commit, SoftDelete;
  }

  /** The books of a run: every row added tells its author, and every request has written what
      its phase says. */
  ghost predicate Booked(s: State, es: seq<Event>) {
    var start, end, authors := s.db.audits, Run(s, es), Authors(s, es);
    && start <= end.db.audits
    && |end.db.audits| == |start| + |authors|
    && (forall i :: 0 <= i < |authors| ==>
          authors[i] in end.requests && Tells(end.db.audits[|start| + i], end.requests[authors[i]].cmd))
    && (forall r :: r in end.requests ==> Owes(end.requests[r], CountOf(authors, r)))
    && (forall r :: r !in end.requests ==> CountOf(authors, r) == 0)
  }

  lemma StepOwes(s: State, e: Event, r: nat, n: nat)
    requires Inv(s) && r in Step(s, e).requests
    requires if r in s.requests then Owes(s.requests[r], n) else n == 0
    ensures var added := |Step(s, e).db.audits| - |s.db.audits|;
            && added >= 0
            && Owes(Step(s, e).requests[r], if r == e.r then n + added else n)
            && (r in s.requests ==> Step(s, e).requests[r].cmd == s.requests[r].cmd)
  {
    hide Advance, Past;
    StepTells(s, e);
    if e.Next? && r == e.r {
      AdvanceWrites(s.db, s.requests[r]);
      AdvanceOwes(s.db, s.requests[r], n);
    } else if e.Begin? && r == e.r && r !in s.requests {
      StartOwes(s.db, e.cmd);
    } else if e.Abort? && r == e.r && !s.requests[r].Done? {
      AbortOwes(s.requests[r], n);
    }
  }

  lemma StartOwes(db: Db, cmd: Command)
    ensures Owes(Start(db, cmd), 0)
  {
  }

  lemma AbortOwes(phase: Phase, n: nat)
    requires Owes(phase, n) && !phase.Done?
    ensures Owes(Done(phase.cmd, Err(Unavailable)), n)
  {
  }

  lemma StepTells(s: State, e: Event)
    requires Inv(s)
    ensures s.db.audits <= Step(s, e).db.audits && |Step(s, e).db.audits| <= |s.db.audits| + 1
    ensures |Step(s, e).db.audits| > |s.db.audits| ==>
              e.r in s.requests && Tells(Step(s, e).db.audits[|s.db.audits|], s.requests[e.r].cmd)
  {
    hide Advance, Past, Tells;
    if e.Next? && e.r in s.requests {
      AdvanceWrites(s.db, s.requests[e.r]);
    }
  }

  lemma StepBooked(s: State, es: seq<Event>)
    requires es != [] && Booked(s, es[..|es| - 1]) && Inv(Run(s, es[..|es| - 1]))
    ensures Booked(s, es)
  {
    hide Step, Owes, Tells, CountOf, Inv;
    var init, e := es[..|es| - 1], es[|es| - 1];
    var mid, end := Run(s, init), Run(s, es);
    var before, authors := Authors(s, init), Authors(s, es);
    assert end == Step(mid, e);
    StepTells(mid, e);
    forall r
      ensures CountOf(authors, r) == CountOf(before, r) + (if r == e.r then |end.db.audits| - |mid.db.audits| else 0)
    {
      if |end.db.audits| > |mid.db.audits| {
        assert authors == before + [e.r];
        CountOfAppend(before, e.r, r);
      } else {
        assert authors == before + [] == before;
      }
    }
    KeepsRequests(mid, e);
    forall r | r in end.requests ensures Owes(end.requests[r], CountOf(authors, r)) {
      StepOwes(mid, e, r, CountOf(before, r));
    }
    forall i | 0 <= i < |authors|
      ensures authors[i] in end.requests
              && Tells(end.db.audits[|s.db.audits| + i], end.requests[authors[i]].cmd)
    {
      var r := authors[i];
      assert r in mid.requests;
      StepOwes(mid, e, r, CountOf(before, r));
    }
  }

  lemma KeepsRequests(s: State, e: Event)
    ensures s.requests.Keys <= Step(s, e).requests.Keys
  {
  }

  lemma {:induction false} RunBooked(s: State, es: seq<Event>)
    requires s.requests == map[] && Inv(s)
    ensures Booked(s, es)
  {
    if es != [] {
      RunBooked(s, es[..|es| - 1]);
      RunOk(s, es[..|es| - 1]);
      StepBooked(s, es);
    }
  }

  lemma {:induction false} AuthorFound(authors: seq<nat>, r: nat) returns (i: nat)
    requires CountOf(authors, r) > 0
    ensures i < |authors| && authors[i] == r
  {
    if authors[|authors| - 1] == r {
      i := |authors| - 1;
    } else {
      i := AuthorFound(authors[..|authors| - 1], r);
    }
  }

  /** Every delete that is answered with success has written exactly one audit row, and no other
      delete has written any: by its caller, about its record, from draft to deleted. */
  lemma DeleteIsAudited(s: State, es: seq<Event>, r: nat)
    requires s.requests == map[] && Inv(s)
    requires r in Run(s, es).requests && Run(s, es).requests[r].cmd.Delete?
    ensures var phase, authors, audits := Run(s, es).requests[r], Authors(s, es), Run(s, es).db.audits;
            && |audits| == |s.db.audits| + |authors|
            && CountOf(authors, r) == (if phase.Done? && phase.outcome.Ok? then 1 else 0)
            && (phase.Done? && phase.outcome.Ok? ==>
                  exists i: nat :: i < |authors| && authors[i] == r
                    && audits[|s.db.audits| + i] ==
                       Audit(if phase.cmd.who.actor == "" then "system" else phase.cmd.who.actor,
                             if phase.cmd.who.requestId == "" then "untracked" else phase.cmd.who.requestId,
                             DeleteAction, phase.cmd.key, In(Draft), Gone,
                             if phase.cmd.key.kind == Certificate then "soft deleted 证书记录"
                             else "soft deleted 放行授权"))
  {
    hide Run, CountOf, Inv;
    RunBooked(s, es);
    var phase, authors, audits := Run(s, es).requests[r], Authors(s, es), Run(s, es).db.audits;
    if phase.Done? && phase.outcome.Ok? {
      var i := AuthorFound(authors, r);
      var audit := audits[|s.db.audits| + i];
      assert Tells(audit, phase.cmd);
      assert audit == Audit(audit.actor, audit.requestId, audit.action, audit.key, audit.before, audit.after,
                            audit.detail);
    }
  }

  /** The audit table grows only at its end, every row that a run adds tells the request that
      wrote it, no request writes two, and every create, edit and delete that is answered with
      success has written its own. */
  lemma EverySuccessIsAudited(s: State, es: seq<Event>, r: nat)
    requires s.requests == map[] && Inv(s) && r in Run(s, es).requests
    ensures s.db.audits <= Run(s, es).db.audits && |Run(s, es).db.audits| == |s.db.audits| + |Authors(s, es)|
    ensures forall i :: 0 <= i < |Authors(s, es)| && Authors(s, es)[i] == r ==>
              Tells(Run(s, es).db.audits[|s.db.audits| + i], Run(s, es).requests[r].cmd)
    ensures CountOf(Authors(s, es), r) <= 1
    ensures var phase := Run(s, es).requests[r];
            phase.Done? && phase.outcome.Ok? && !phase.cmd.Fetch? ==> CountOf(Authors(s, es), r) == 1
  {
    hide Run, CountOf, Inv, Tells, Authors;
    RunBooked(s, es);
    assert Owes(Run(s, es).requests[r], CountOf(Authors(s, es), r));
  }

  // Removals.

  /** The event takes a live row out of sight. */
  ghost predicate RemovesRow(s: State, e: Event) {
    exists key :: Live(s.db, key) && Marked(Step(s, e).db, key)
  }

  ghost function Removals(s: State, es: seq<Event>): nat {
    if es == [] then 0
    else Removals(s, es[..|es| - 1]) + (if RemovesRow(Run(s, es[..|es| - 1]), es[|es| - 1]) then 1 else 0)
  }

  function DeleteAudits(audits: seq<Audit>): nat {
    if audits == [] then 0
    else DeleteAudits(audits[..|audits| - 1]) + (if audits[|audits| - 1].action == DeleteAction then 1 else 0)
  }

  lemma DeleteAuditsAppend(audits: seq<Audit>, last: Audit)
    ensures DeleteAudits(audits + [last]) == DeleteAudits(audits) + (if last.action == DeleteAction then 1 else 0)
  {
    assert (audits + [last])[..|audits|] == audits;
  }

  /** The deletes between their row and their audit. */
  function Awaiting(s: State): set<nat> {
    set r | r in s.requests && s.requests[r].Deleted?
  }

  /** A failure between the row and the audit. */
  predicate LosesAudit(s: State, e: Event) {
    e.Abort? && e.r in s.requests && s.requests[e.r].Deleted?
  }

  function LostAudits(s: State, es: seq<Event>): nat {
    if es == [] then 0
    else LostAudits(s, es[..|es| - 1]) + (if LosesAudit(Run(s, es[..|es| - 1]), es[|es| - 1]) then 1 else 0)
  }

  /** Only the statement of a delete removes a row, and then its request awaits its audit. */
  lemma RemovalIsDelete(s: State, e: Event)
    requires Inv(s)
    ensures RemovesRow(s, e) <==>
              e.Next? && e.r in s.requests && s.requests[e.r].Deleting? && Step(s, e).requests[e.r].Deleted?
  {
    hide Decide, LogOf, CodeTaken;
    if e.Next? && e.r in s.requests {
      var phase := s.requests[e.r];
      assert PhaseOk(s.db, phase);
      if phase.Deleting? {
        if Live(s.db, phase.cmd.key) {
          assert Marked(Step(s, e).db, phase.cmd.key);
        }
      } else if phase.Drafting? {
        assert ShapedAt(s.db, NextKey(s.db, phase.item.Kind()));
      }
    }
  }

  /** A delete audit is written exactly by a delete that awaits it. */
  lemma DeleteAuditStep(s: State, e: Event)
    requires Inv(s)
    ensures DeleteAudits(Step(s, e).db.audits) ==
            DeleteAudits(s.db.audits) + (if e.Next? && e.r in s.requests && s.requests[e.r].Deleted? then 1 else 0)
  {
    hide LogOf, CodeTaken, DeleteAudits, Decide;
    if e.Next? && e.r in s.requests {
      assert PhaseOk(s.db, s.requests[e.r]);
      StepTells(s, e);
      var before, after := s.db.audits, Step(s, e).db.audits;
      if |after| > |before| {
        assert after == before + [after[|before|]];
        DeleteAuditsAppend(before, after[|before|]);
      } else {
        assert after == before;
      }
    }
  }

  lemma StepOthers(s: State, e: Event, r: nat)
    requires r != e.r
    ensures r in Step(s, e).requests <==> r in s.requests
    ensures r in s.requests ==> Step(s, e).requests[r] == s.requests[r]
  {
    hide Advance, Start;
  }

  lemma OneElementDiffers(a: set<nat>, b: set<nat>, r: nat)
    requires forall q :: q != r ==> (q in a <==> q in b)
    ensures |b| + (if r in a then 1 else 0) == |a| + (if r in b then 1 else 0)
  {
    assert a - {r} == b - {r};
    assert a == if r in a then (a - {r}) + {r} else a - {r};
    assert b == if r in b then (b - {r}) + {r} else b - {r};
  }

  lemma AwaitingStep(s: State, e: Event)
    ensures |Awaiting(Step(s, e))| + (if e.r in Awaiting(s) then 1 else 0)
         == |Awaiting(s)| + (if e.r in Awaiting(Step(s, e)) then 1 else 0)
  {
    hide Step;
    forall q | q != e.r ensures q in Awaiting(s) <==> q in Awaiting(Step(s, e)) {
      StepOthers(s, e, q);
    }
    OneElementDiffers(Awaiting(s), Awaiting(Step(s, e)), e.r);
  }

  lemma AdvanceAwaits(db: Db, phase: Phase)
    ensures Advance(db, phase).1.Deleted? ==> phase.Deleting?
  {
  }

  lemma AwaitingPhase(s: State, e: Event)
    requires Inv(s)
    ensures e.r in Awaiting(Step(s, e)) <==> RemovesRow(s, e) || (e.r in Awaiting(s) && e.Begin?)
  {
    hide Advance, Start, RemovesRow, Inv;
    RemovalIsDelete(s, e);
    if e.Next? && e.r in s.requests {
      AdvanceAwaits(s.db, s.requests[e.r]);
    } else if e.Begin? {
      StartAwaits(s.db, e.cmd);
    }
  }

  lemma StartAwaits(db: Db, cmd: Command)
    ensures !Start(db, cmd).Deleted?
  {
  }

  /** Accounting: at every point of every run, the rows removed are the delete audits written,
      the deletes between their row and their audit, and those whose audit failed. */
  lemma {:induction false} RemovalsAccountedFor(s: State, es: seq<Event>)
    requires s.requests == map[] && Inv(s)
    ensures DeleteAudits(s.db.audits) + Removals(s, es)
         == DeleteAudits(Run(s, es).db.audits) + |Awaiting(Run(s, es))| + LostAudits(s, es)
  {
    hide DeleteAudits, RemovesRow, Step, Inv;
    if es == [] {
      assert Awaiting(s) == {};
    } else {
      var init, e := es[..|es| - 1], es[|es| - 1];
      var mid := Run(s, init);
      RemovalsAccountedFor(s, init);
      RunOk(s, init);
      DeleteAuditStep(mid, e);
      AwaitingStep(mid, e);
      AwaitingPhase(mid, e);
      RemovalIsDelete(mid, e);
    }
  }
}

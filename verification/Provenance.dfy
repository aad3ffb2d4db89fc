/** Where revisions come from: no update is lost, versions count commits, at most one delete
    succeeds, and every decision was taken by someone allowed to take it. None of this needs
    the hypothesis on client versions. */
module Provenance {
  import opened Records
  import opened Transactions
  import opened Services
  import opened Statuses
  import opened Access
  import opened Protocol
  import opened Invariants
  import opened Runs
  import opened Refinement

  /** The committed creates and edits of one record, in commit order. */
  function CommitsOf(ops: seq<Op>, key: Key): seq<Command> {
    if ops == [] then []
    else
      var rest, last := CommitsOf(ops[..|ops| - 1], key), ops[|ops| - 1];
      if last.Exec? && last.key == key then rest + [last.cmd] else rest
  }

  function DeletesOf(ops: seq<Op>, key: Key): nat {
    if ops == [] then 0
    else
      DeletesOf(ops[..|ops| - 1], key)
      + (if ops[|ops| - 1].Remove? && ops[|ops| - 1].key == key then 1 else 0)
  }

  /** A decision of the review, as against a step an operator may take. */
  predicate IsDecision(kind: Kind, target: Status) {
    match kind
    case Certificate => target == Valid || target == Revoked
    case Authorization => target == Approved || target == Restricted || target == Revoked || target == Draft
  }

  /** The caller's role allows the request. */
  predicate Sanctioned(kind: Kind, cmd: Command) {
    && Rank(cmd.who.role) >= Rank(Operator)
    && (cmd.Transition? && IsDecision(kind, cmd.target) ==> cmd.who.role in {Reviewer, Admin})
  }

  /** A revision is the one that a committed command wrote, in slot `at` of its log. */
  predicate WrittenBy(r: Revision, cmd: Command, key: Key, at: nat) {
    && r.version == at + 1
    && r.actor == cmd.who.actor && r.requestId == cmd.who.requestId
    && Sanctioned(key.kind, cmd)
    && match cmd
       case Create(kind, _, fields, _) =>
         at == 0 && kind == key.kind && r.action == CreateAction && r.status == Draft && r.evidence == fields.evidence
       case Update(k, expected, fields, _) =>
         && k == key && 0 < at == expected && r.action == UpdateAction && r.status == Draft
         && r.evidence == fields.evidence
       case Transition(k, expected, target, reason, _) =>
         k == key && 0 < at == expected && r.action == TransitionAction && r.status == target && r.reason == reason
       case _ => false
  }

  /** The log grew from `log0` by exactly the revisions of these commands. */
  predicate GrownBy(log0: seq<Revision>, log1: seq<Revision>, cmds: seq<Command>, key: Key) {
    && log0 <= log1
    && |log1| == |log0| + |cmds|
    && forall i {:trigger cmds[i]} :: 0 <= i < |cmds| ==> WrittenBy(log1[|log0| + i], cmds[i], key, |log0| + i)
  }

  lemma DecideSanctioned(cmd: Command, cur: Record)
    requires Edits(cmd) && Gate(cmd) && Decide(cmd, cur).Ok?
    ensures Sanctioned(cur.Kind(), cmd)
    ensures cmd.Update? ==> Decide(cmd, cur).value.status == Draft && Decide(cmd, cur).value.fields == cmd.fields
    ensures cmd.Transition? ==> Decide(cmd, cur).value.status == cmd.target
  {
  }

  lemma CreateWrites(db: Db, cmd: Command, item: Record, key: Key)
    requires cmd.Create? && item.Kind() == cmd.kind && Shaped(db) && PhaseOk(db, Drafting(cmd, item))
    requires CreateVersion(db, item, cmd.who).Ok?
    ensures var log, log' := LogOf(db.revisions, key), LogOf(CreateVersion(db, item, cmd.who).value.revisions, key);
            if key == NextKey(db, item.Kind()) then
              |log'| == |log| + 1 && log <= log' && WrittenBy(log'[|log|], cmd, key, |log|)
            else log' == log
  {
    var slot := NextKey(db, item.Kind());
    assert ShapedAt(db, slot);
    LogOfAppend(db.revisions, NewRevision(slot, item, cmd.who, CreateAction, CreateReason(item.Kind())), key);
  }

  lemma EditWrites(db: Db, cmd: Command, before: Record, item: Record, key: Key)
    requires Edits(cmd) && Shaped(db) && PhaseOk(db, Checked(cmd, before, item)) && Commit(db, cmd, before, item).Ok?
    ensures var log, log' := LogOf(db.revisions, key), LogOf(Commit(db, cmd, before, item).value.revisions, key);
            if key == cmd.key then |log'| == |log| + 1 && log <= log' && WrittenBy(log'[|log|], cmd, key, |log|)
            else log' == log
  {
    assert ShapedAt(db, cmd.key);
    DecideFrame(cmd, before);
    DecideSanctioned(cmd, before);
    LogOfAppend(db.revisions, NewRevision(cmd.key, item, cmd.who, ActionOf(cmd), ReasonOf(cmd)), key);
  }

  lemma OneCommit(op: Op, key: Key)
    ensures CommitsOf([op], key) == if op.Exec? && op.key == key then [op.cmd] else []
    ensures DeletesOf([op], key) == if op.Remove? && op.key == key then 1 else 0
  {
    assert [op][..0] == [];
  }

  lemma CommitGrows(db: Db, cmd: Command, before: Record, item: Record, r: nat, key: Key)
    requires Edits(cmd) && Shaped(db) && PhaseOk(db, Checked(cmd, before, item)) && Commit(db, cmd, before, item).Ok?
    ensures GrownBy(LogOf(db.revisions, key), LogOf(Commit(db, cmd, before, item).value.revisions, key),
                    CommitsOf([Exec(r, cmd, cmd.key)], key), key)
  {
    hide Decide, Commit, LogOf, WrittenBy, PhaseOk;
    OneCommit(Exec(r, cmd, cmd.key), key);
    EditWrites(db, cmd, before, item, key);
  }

  lemma CreateGrows(db: Db, cmd: Command, item: Record, r: nat, key: Key)
    requires cmd.Create? && item.Kind() == cmd.kind && Shaped(db) && PhaseOk(db, Drafting(cmd, item))
    requires CreateVersion(db, item, cmd.who).Ok?
    ensures GrownBy(LogOf(db.revisions, key), LogOf(CreateVersion(db, item, cmd.who).value.revisions, key),
                    CommitsOf([Exec(r, cmd, NextKey(db, item.Kind()))], key), key)
  {
    hide CreateVersion, LogOf, WrittenBy, PhaseOk;
    OneCommit(Exec(r, cmd, NextKey(db, item.Kind())), key);
    CreateWrites(db, cmd, item, key);
  }

  lemma StepWrites(s: State, e: Event, key: Key)
    requires Inv(s)
    ensures GrownBy(LogOf(s.db.revisions, key), LogOf(Step(s, e).db.revisions, key), CommitsOf(OpsOf(s, e), key), key)
  {
    hide Decide, Commit, CreateVersion, LogOf, WrittenBy;
    var ops := OpsOf(s, e);
    if ops == [] {
      assert Step(s, e).db == s.db;
    } else {
      assert ops == [ops[0]];
      assert PhaseOk(s.db, s.requests[e.r]);
      var phase := s.requests[e.r];
      if phase.Checked? {
        CommitGrows(s.db, phase.cmd, phase.before, phase.item, e.r, key);
      } else if phase.Drafting? {
        CreateGrows(s.db, phase.cmd, phase.item, e.r, key);
      } else {
        OneCommit(ops[0], key);
      }
    }
  }

  /** Which command wrote which slot: a create the first one, an edit the one it expected to
      be free. */
  lemma GrownSlot(log0: seq<Revision>, log1: seq<Revision>, cmds: seq<Command>, key: Key, i: nat)
    requires GrownBy(log0, log1, cmds, key) && i < |cmds|
    ensures if |log0| + i == 0 then cmds[i].Create? else Edits(cmds[i]) && cmds[i].expected == |log0| + i
  {
    assert WrittenBy(log1[|log0| + i], cmds[i], key, |log0| + i);
  }

  lemma GrownConcat(a: seq<Revision>, b: seq<Revision>, c: seq<Revision>, xs: seq<Command>, ys: seq<Command>, key: Key)
    requires GrownBy(a, b, xs, key) && GrownBy(b, c, ys, key)
    ensures GrownBy(a, c, xs + ys, key)
  {
    forall i | 0 <= i < |xs + ys| ensures WrittenBy(c[|a| + i], (xs + ys)[i], key, |a| + i) {
      if i < |xs| {
        assert c[|a| + i] == b[|a| + i];
        assert WrittenBy(b[|a| + i], xs[i], key, |a| + i);
      } else {
        assert WrittenBy(c[|b| + (i - |xs|)], ys[i - |xs|], key, |b| + (i - |xs|));
      }
    }
  }

  lemma {:induction false} CommitsOfConcat(a: seq<Op>, b: seq<Op>, key: Key)
    ensures CommitsOf(a + b, key) == CommitsOf(a, key) + CommitsOf(b, key)
    ensures DeletesOf(a + b, key) == DeletesOf(a, key) + DeletesOf(b, key)
  {
    if b == [] {
      assert a + b == a;
    } else {
      assert (a + b)[..|a + b| - 1] == a + b[..|b| - 1];
      CommitsOfConcat(a, b[..|b| - 1], key);
    }
  }

  /** Attribution: what a run adds to a record's log is exactly one revision for each of its
      committed requests, in commit order, in the slot after the version that the request
      expected, with its caller and content - and every such caller had the role it takes. */
  lemma {:induction false} LogIsHistory(s: State, es: seq<Event>, key: Key)
    requires Inv(s)
    ensures GrownBy(LogOf(s.db.revisions, key), LogOf(Run(s, es).db.revisions, key),
                    CommitsOf(Linearize(s, es), key), key)
  {
    if es != [] {
      var init := es[..|es| - 1];
      LogIsHistory(s, init, key);
      RunOk(s, init);
      StepWrites(Run(s, init), es[|es| - 1], key);
      CommitsOfConcat(Linearize(s, init), OpsOf(Run(s, init), es[|es| - 1]), key);
      GrownConcat(LogOf(s.db.revisions, key), LogOf(Run(s, init).db.revisions, key),
                  LogOf(Run(s, es).db.revisions, key),
                  CommitsOf(Linearize(s, init), key), CommitsOf(OpsOf(Run(s, init), es[|es| - 1]), key), key);
    }
  }

  /** No lost updates: of all the edits of one record that expect the same version, at most
      one commits in a run. */
  lemma NoLostUpdates(s: State, es: seq<Event>, key: Key, i: nat, j: nat)
    requires Inv(s)
    requires i < j < |CommitsOf(Linearize(s, es), key)|
    ensures var cmds := CommitsOf(Linearize(s, es), key);
            Edits(cmds[j]) && (Edits(cmds[i]) ==> cmds[i].expected < cmds[j].expected)
  {
    LogIsHistory(s, es, key);
    var cmds := CommitsOf(Linearize(s, es), key);
    var log0, log1 := LogOf(s.db.revisions, key), LogOf(Run(s, es).db.revisions, key);
    GrownSlot(log0, log1, cmds, key, i);
    GrownSlot(log0, log1, cmds, key, j);
  }

  /** Conservation: the version of a record created in the run is one plus the number of its
      committed updates and transitions; that of an older record grew by that number. */
  lemma VersionCountsCommits(s: State, es: seq<Event>, key: Key)
    requires Inv(s) && key in Run(s, es).db.rows
    ensures var cmds, version := CommitsOf(Linearize(s, es), key), Run(s, es).db.rows[key].record.version;
            if key in s.db.rows then
              version == s.db.rows[key].record.version + |cmds| && (forall cmd :: cmd in cmds ==> Edits(cmd))
            else
              version == |cmds| && 1 <= |cmds| && cmds[0].Create? && (forall cmd :: cmd in cmds[1..] ==> Edits(cmd))
  {
    LogIsHistory(s, es, key);
    RunOk(s, es);
    assert ShapedAt(s.db, key) && ShapedAt(Run(s, es).db, key);
    var cmds := CommitsOf(Linearize(s, es), key);
    var log0, log1 := LogOf(s.db.revisions, key), LogOf(Run(s, es).db.revisions, key);
    forall i | 0 <= i < |cmds| ensures Edits(cmds[i]) || (i == 0 && |log0| == 0 && cmds[i].Create?) {
      GrownSlot(log0, log1, cmds, key, i);
    }
    if |cmds| > 0 {
      GrownSlot(log0, log1, cmds, key, 0);
    }
  }

  /** One if the record's row is there and marked deleted. */
  function Mark(db: Db, key: Key): nat {
    if Marked(db, key) then 1 else 0
  }

  lemma StepMarks(s: State, e: Event, key: Key)
    requires Inv(s)
    ensures Mark(Step(s, e).db, key) == Mark(s.db, key) + DeletesOf(OpsOf(s, e), key)
  {
    hide Decide, LogOf, PhaseOk, CommitsOf;
    var ops := OpsOf(s, e);
    if ops != [] {
      OneCommit(ops[0], key);
      assert ops == [ops[0]];
      assert ShapedAt(s.db, NextKey(s.db, key.kind));
    }
  }

  /** Every removal marks a row, and every mark is one removal: of a record created in the run
      or before it, at most one removal is committed, and none once it is marked. */
  lemma {:induction false} DeletedOnce(s: State, es: seq<Event>, key: Key)
    requires Inv(s)
    ensures Mark(Run(s, es).db, key) == Mark(s.db, key) + DeletesOf(Linearize(s, es), key)
  {
    if es != [] {
      var init, e := es[..|es| - 1], es[|es| - 1];
      DeletedOnce(s, init, key);
      RunOk(s, init);
      StepMarks(Run(s, init), e, key);
      CommitsOfConcat(Linearize(s, init), OpsOf(Run(s, init), e), key);
    }
  }

  lemma {:induction false} EachDeleteCounts(ops: seq<Op>, key: Key, i: nat, j: nat)
    requires i <= j < |ops| && ops[i] == Remove(ops[i].r, key) && ops[j] == Remove(ops[j].r, key)
    ensures DeletesOf(ops, key) >= if i == j then 1 else 2
  {
    var init := ops[..|ops| - 1];
    if j < |init| {
      EachDeleteCounts(init, key, i, j);
    } else if i < |init| {
      EachDeleteCounts(init, key, i, i);
    }
  }

  /** A delete that succeeded: its own removal is in the history, and its row is marked. */
  lemma SuccessfulDelete(s: State, es: seq<Event>, r: nat) returns (i: nat)
    requires s.requests == map[] && r in Run(s, es).requests && PastRemoval(Run(s, es).requests[r])
    ensures i < |Linearize(s, es)| && Linearize(s, es)[i] == Remove(r, Run(s, es).requests[r].cmd.key)
  {
    CommitsOnce(s, es);
    var ops := Linearize(s, es);
    i :| 0 <= i < |ops| && ops[i].Remove? && ops[i].r == r;
    assert About(ops[i], Run(s, es).requests);
  }

  /** Of all the delete requests for one record, at most one is answered with success, and
      then the record's row is marked. */
  lemma OneDeleteSucceeds(s: State, es: seq<Event>, q: nat, r: nat)
    requires s.requests == map[] && Inv(s)
    requires q in Run(s, es).requests && r in Run(s, es).requests
    requires Run(s, es).requests[q].cmd.Delete? && Run(s, es).requests[q].Done? && Run(s, es).requests[q].outcome.Ok?
    requires Run(s, es).requests[r].cmd.Delete? && Run(s, es).requests[r].Done? && Run(s, es).requests[r].outcome.Ok?
    requires Run(s, es).requests[q].cmd.key == Run(s, es).requests[r].cmd.key
    ensures q == r
    ensures Marked(Run(s, es).db, Run(s, es).requests[r].cmd.key)
  {
    var key := Run(s, es).requests[r].cmd.key;
    var i := SuccessfulDelete(s, es, q);
    var j := SuccessfulDelete(s, es, r);
    DeletedOnce(s, es, key);
    if i <= j {
      EachDeleteCounts(Linearize(s, es), key, i, j);
    } else {
      EachDeleteCounts(Linearize(s, es), key, j, i);
    }
  }
}

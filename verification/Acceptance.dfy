/** Exactly which requests the program accepts, what an accepted one writes, and why another one
    is refused: with the statuses, the roles and the texts named, and as runs of the program. */
module Acceptance {
  import opened Records
  import opened Transactions
  import opened Services
  import opened Statuses
  import opened Access
  import opened Protocol
  import opened Invariants
  import opened Refinement
  import opened Realization

  /** The edges of the two aggregates, status by status. */
  predicate Leads(kind: Kind, from: Status, to: Status) {
    match kind
    case Certificate =>
      || (from == Draft && to == Valid)
      || (from == Valid && (to == Expired || to == Revoked))
      || (from == Expired && to == Revoked)
    case Authorization =>
      || (from == Draft && to == Review)
      || (from == Review && (to == Approved || to == Restricted || to == Draft))
      || (from == Approved && (to == Restricted || to == Revoked))
      || (from == Restricted && to == Revoked)
  }

  /** The statuses that only a reviewer may give. */
  predicate NeedsReviewer(kind: Kind, to: Status) {
    match kind
    case Certificate => to == Valid || to == Revoked
    case Authorization => to == Approved || to == Restricted || to == Revoked || to == Draft
  }

  predicate Complete(code: string, fields: Fields) {
    code != "" && fields.name != "" && fields.facility != "" && fields.owner != ""
  }

  /** The caller is the one whose work the decision is about. An authorization that names no
      submitter has no such person. */
  predicate OwnWork(rec: Record, actor: string) {
    match rec.signoff
    case Prepared(preparedBy, _) => actor == preparedBy
    case Dual(submittedBy, _, _) => submittedBy != "" && actor == submittedBy
  }

  /** The rules of the two services and their routes, as one condition on the present record. */
  predicate MayEdit(rec: Record, cmd: Command)
    requires Edits(cmd)
  {
    && cmd.who.role in {Operator, Reviewer, Admin}
    && rec.version == cmd.expected
    && (cmd.Update? ==> rec.status == Draft && Complete(rec.code, cmd.fields))
    && (cmd.Transition? ==>
          && Leads(rec.Kind(), rec.status, cmd.target)
          && (NeedsReviewer(rec.Kind(), cmd.target) ==>
                cmd.who.role in {Reviewer, Admin} && !OwnWork(rec, cmd.who.actor)))
  }

  /** Who stands behind the record after an accepted edit. */
  function SignedBy(rec: Record, cmd: Command): Signoff
    requires Edits(cmd)
  {
    match rec.signoff
    case Prepared(preparedBy, verifiedBy) =>
      if cmd.Update? then Prepared(cmd.who.actor, "")
      else if cmd.target == Valid || cmd.target == Revoked then Prepared(preparedBy, cmd.who.actor)
      else Prepared(preparedBy, verifiedBy)
    case Dual(submittedBy, reviewedBy, reviewReason) =>
      if cmd.Update? then Dual(submittedBy, reviewedBy, reviewReason)
      else if cmd.target == Review then Dual(cmd.who.actor, "", "")
      else Dual(submittedBy, cmd.who.actor, cmd.reason)
  }

  /** The next version of the record. */
  function Rewritten(rec: Record, cmd: Command): Record
    requires Edits(cmd)
  {
    Record(rec.code, if cmd.Update? then cmd.fields else rec.fields, if cmd.Update? then Draft else cmd.target,
           rec.version + 1, SignedBy(rec, cmd))
  }

  /** The text that an edit leaves in its revision and its audit. */
  function Remark(cmd: Command): string
    requires Edits(cmd)
  {
    if cmd.Transition? then cmd.reason
    else if cmd.key.kind == Certificate then "draft certificate fields updated"
    else "draft authorization fields updated"
  }

  function OrSystem(actor: string): string {
    if actor == "" then "system" else actor
  }

  function OrUntracked(requestId: string): string {
    if requestId == "" then "untracked" else requestId
  }

  /** Who may ask for what: anyone reads, operators and above write, only admins delete. */
  lemma GateByRole(cmd: Command)
    ensures Gate(cmd) <==> if cmd.Fetch? then true
                           else if cmd.Delete? then cmd.who.role == Admin
                           else cmd.who.role in {Operator, Reviewer, Admin}
  {
  }

  lemma DecisionRules(rec: Record, cmd: Command)
    requires Edits(cmd)
    ensures Gate(cmd) && Decide(cmd, rec).Ok? && rec.version == cmd.expected <==> MayEdit(rec, cmd)
    ensures MayEdit(rec, cmd) ==> Decide(cmd, rec) == Ok(Rewritten(rec, cmd))
  {
  }

  /** The tables after an accepted edit: the record's next version, and one revision and one
      audit that tell it. */
  function Entered(db: Db, cmd: Command): Db
    requires Edits(cmd) && cmd.key in db.rows
  {
    var cur := db.rows[cmd.key].record;
    var item, who, action := Rewritten(cur, cmd), cmd.who, if cmd.Update? then UpdateAction else TransitionAction;
    Db(db.rows[cmd.key := Row(item, false)],
       db.revisions + [Revision(cmd.key, cur.version + 1, item.status, item.fields.evidence,
                                who.actor, who.requestId, action, Remark(cmd))],
       db.audits + [Audit(OrSystem(who.actor), OrUntracked(who.requestId), action, cmd.key,
                          In(cur.status), In(item.status), Remark(cmd))],
       db.nextId)
  }

  lemma CommitEnters(db: Db, cmd: Command)
    requires Edits(cmd) && Live(db, cmd.key) && db.rows[cmd.key].record.version == cmd.expected
    ensures Commit(db, cmd, db.rows[cmd.key].record, Rewritten(db.rows[cmd.key].record, cmd)) == Ok(Entered(db, cmd))
  {
    var item := Rewritten(db.rows[cmd.key].record, cmd);
    assert item.(code := db.rows[cmd.key].record.code) == item;
  }

  /** An edit that runs alone is accepted exactly when its record is live and the rules allow
      it. It then replaces that record by its next version, adds one revision and one audit that
      tell it, and leaves everything else alone. */
  lemma EditAcceptedExactlyWhen(db: Db, cmd: Command)
    requires Edits(cmd) && Shaped(db)
    ensures Atomic(db, cmd).Ok? <==>
              cmd.key in db.rows && !db.rows[cmd.key].deleted && MayEdit(db.rows[cmd.key].record, cmd)
    ensures Atomic(db, cmd).Ok? ==> Atomic(db, cmd).value == Entered(db, cmd)
  {
    hide Decide, LogOf, Rewritten, MayEdit, Entered, Gate, Shaped;
    if Live(db, cmd.key) {
      var cur := db.rows[cmd.key].record;
      DecisionRules(cur, cmd);
      if cur.version == cmd.expected {
        CommitEnters(db, cmd);
      }
    }
  }

  lemma DecisionErrors(rec: Record, cmd: Command)
    requires Edits(cmd) && cmd.who.role in {Operator, Reviewer, Admin} && Decide(cmd, rec).Err?
    ensures cmd.Update? ==>
              Decide(cmd, rec) == Err(if rec.status != Draft then Locked else InvalidInput)
    ensures cmd.Transition? ==>
              Decide(cmd, rec) == Err(if !Leads(rec.Kind(), rec.status, cmd.target) then InvalidTransition
                                      else if cmd.who.role == Operator then Forbidden
                                      else SeparationOfDuty)
  {
  }

  /** Why an edit is refused: the first rule that it breaks, in this order. */
  lemma EditRefusedBecause(db: Db, cmd: Command)
    requires Edits(cmd) && Shaped(db) && Atomic(db, cmd).Err?
    ensures Atomic(db, cmd).error ==
            if cmd.who.role !in {Operator, Reviewer, Admin} then Forbidden
            else if cmd.key !in db.rows || db.rows[cmd.key].deleted then NotFound
            else
              var rec := db.rows[cmd.key].record;
              if cmd.Update? then
                if rec.status != Draft then Locked
                else if !Complete(rec.code, cmd.fields) then InvalidInput
                else Conflict
              else if !Leads(cmd.key.kind, rec.status, cmd.target) then InvalidTransition
              else if NeedsReviewer(cmd.key.kind, cmd.target) && cmd.who.role == Operator then Forbidden
              else if NeedsReviewer(cmd.key.kind, cmd.target) && OwnWork(rec, cmd.who.actor) then SeparationOfDuty
              else Conflict
  {
    hide LogOf, Decide;
    if Live(db, cmd.key) {
      assert ShapedAt(db, cmd.key);
      var cmd' := cmd.(expected := db.rows[cmd.key].record.version);
      DecisionRules(db.rows[cmd.key].record, cmd');
      DecisionVersion(db.rows[cmd.key].record, cmd, cmd');
      if cmd.who.role in {Operator, Reviewer, Admin} && Decide(cmd, db.rows[cmd.key].record).Err? {
        DecisionErrors(db.rows[cmd.key].record, cmd);
      }
    }
  }

  /** The version sent does not matter to the decision. */
  lemma DecisionVersion(rec: Record, cmd: Command, cmd': Command)
    requires Edits(cmd) && cmd' == cmd.(expected := rec.version)
    ensures Decide(cmd, rec).Ok? <==> Decide(cmd', rec).Ok?
    ensures Gate(cmd) <==> Gate(cmd')
  {
  }

  /** A create is accepted exactly when its caller is an operator or above, its fields are
      complete and no row of its table, deleted or not, has its code. It adds a draft at version
      one, signed by nobody but its preparer, with one revision and one audit. */
  lemma CreateAcceptedExactlyWhen(db: Db, cmd: Command)
    requires cmd.Create? && Shaped(db)
    ensures Atomic(db, cmd).Ok? <==>
              && cmd.who.role in {Operator, Reviewer, Admin}
              && Complete(cmd.code, cmd.fields)
              && forall key :: key in db.rows && key.kind == cmd.kind ==> db.rows[key].record.code != cmd.code
    ensures Atomic(db, cmd).Ok? ==>
              var key, who := Key(cmd.kind, db.nextId), cmd.who;
              var signoff := if cmd.kind == Certificate then Prepared(who.actor, "") else Dual("", "", "");
              && key !in db.rows
              && Atomic(db, cmd).value ==
                 Db(db.rows[key := Row(Record(cmd.code, cmd.fields, Draft, 1, signoff), false)],
                    db.revisions + [Revision(key, 1, Draft, cmd.fields.evidence, who.actor, who.requestId, CreateAction,
                                             if cmd.kind == Certificate then "certificate prepared"
                                             else "authorization drafted")],
                    db.audits + [Audit(OrSystem(who.actor), OrUntracked(who.requestId), CreateAction, key,
                                       Blank, In(Draft),
                                       if cmd.kind == Certificate then "certificate version 1 prepared"
                                       else "authorization version 1 drafted")],
                    db.nextId + 1)
    ensures Atomic(db, cmd).Err? ==>
              Atomic(db, cmd).error ==
              if cmd.who.role !in {Operator, Reviewer, Admin} then Forbidden
              else if !Complete(cmd.code, cmd.fields) then InvalidInput
              else DuplicateCode
  {
    hide LogOf;
    assert ShapedAt(db, NextKey(db, cmd.kind));
    assert CodeTaken(db.rows, cmd.kind, cmd.code) <==>
           exists key :: key in db.rows && key.kind == cmd.kind && db.rows[key].record.code == cmd.code;
  }

  /** A request that is refused for its version alone would have been accepted had it sent the
      present one: the conflict is the last test. */
  lemma ConflictIsLastTest(db: Db, cmd: Command, cmd': Command)
    requires Edits(cmd) && Shaped(db) && Atomic(db, cmd) == Err(Conflict)
    requires Live(db, cmd.key) && cmd' == cmd.(expected := db.rows[cmd.key].record.version)
    ensures Atomic(db, cmd').Ok?
  {
    EditAcceptedExactlyWhen(db, cmd');
  }

  /** Nothing without a code, a name, a facility and an owner gets in. */
  lemma IncompleteRefused(db: Db, cmd: Command)
    requires Shaped(db) && cmd.who.role in {Operator, Reviewer, Admin}
    requires cmd.Create? || (cmd.Update? && Live(db, cmd.key) && db.rows[cmd.key].record.status == Draft)
    requires var code := if cmd.Create? then cmd.code else db.rows[cmd.key].record.code;
             code == "" || cmd.fields.name == "" || cmd.fields.facility == "" || cmd.fields.owner == ""
    ensures Atomic(db, cmd) == Err(InvalidInput)
  {
    if cmd.Create? {
      CreateAcceptedExactlyWhen(db, cmd);
    } else {
      EditAcceptedExactlyWhen(db, cmd);
      EditRefusedBecause(db, cmd);
    }
  }

  // The same as runs of the program.

  /** A create or an edit with no other request between its steps, to its answer. */
  function Undisturbed(r: nat, cmd: Command): seq<Event> {
    Alone(r, cmd) + [Next(r)] + [Next(r)]
  }

  lemma FinalGetSteps(s: State, r: nat, cmd: Command, key: Key)
    requires (cmd.Create? || Edits(cmd)) && Live(s.db, key) && r in s.requests && s.requests[r] == Written(cmd, key)
    ensures var view := View(s.db.rows[key].record, LogOf(s.db.revisions, key));
            Step(Step(s, Next(r)), Next(r)) == State(s.db, s.requests[r := Done(cmd, Ok(Shown(view)))])
  {
    hide LogOf;
    var item := s.db.rows[key].record;
    var view := View(item, LogOf(s.db.revisions, key));
    assert s.requests[r := Answering(cmd, key, item)][r := Done(cmd, Ok(Shown(view)))]
        == s.requests[r := Done(cmd, Ok(Shown(view)))];
  }

  /** An accepted request that nothing disturbs is a run of an honest client, and is answered
      with its own record as it wrote it and the whole log of that record. */
  lemma UndisturbedAnswer(s: State, r: nat, cmd: Command)
    requires Shaped(s.db) && r !in s.requests && (cmd.Create? || Edits(cmd)) && Atomic(s.db, cmd).Ok?
    ensures var after, key := Atomic(s.db, cmd).value, TargetOf(s.db, cmd);
            && Honest(s, Undisturbed(r, cmd))
            && key in after.rows
            && Run(s, Undisturbed(r, cmd)) ==
               State(after, s.requests[r := Done(cmd, Ok(Shown(View(after.rows[key].record,
                                                                    LogOf(after.revisions, key)))))])
  {
    hide Alone, Run, Honest, Atomic, LogOf, Step, TargetOf;
    var after, key := Atomic(s.db, cmd).value, TargetOf(s.db, cmd);
    AloneIsAtomic(s, r, cmd);
    TargetIsLive(s.db, cmd);
    var written := State(after, s.requests[r := Written(cmd, key)]);
    FinalGetSteps(written, r, cmd, key);
    RunSnoc(s, Alone(r, cmd), Next(r));
    RunSnoc(s, Alone(r, cmd) + [Next(r)], Next(r));
    var answered := Done(cmd, Ok(Shown(View(after.rows[key].record, LogOf(after.revisions, key)))));
    assert s.requests[r := Written(cmd, key)][r := answered] == s.requests[r := answered];
  }

  lemma TargetIsLive(db: Db, cmd: Command)
    requires (cmd.Create? || Edits(cmd)) && Atomic(db, cmd).Ok?
    ensures Live(Atomic(db, cmd).value, TargetOf(db, cmd))
  {
  }

  /** Every edge can be taken: from every state with a live record, a caller with the role for
      it who is not the maker takes it at the present version, by a run of an honest client,
      and leaves the record in its new status with its fields, its code and the sign-offs. */
  lemma EveryEdgeIsTaken(s: State, r: nat, cmd: Command)
    requires Shaped(s.db) && r !in s.requests && cmd.Transition? && Live(s.db, cmd.key)
    requires var rec := s.db.rows[cmd.key].record;
             && cmd.expected == rec.version
             && Leads(cmd.key.kind, rec.status, cmd.target)
             && (if NeedsReviewer(cmd.key.kind, cmd.target) then
                   cmd.who.role in {Reviewer, Admin} && !OwnWork(rec, cmd.who.actor)
                 else cmd.who.role in {Operator, Reviewer, Admin})
    ensures Honest(s, Undisturbed(r, cmd))
    ensures var rec, end := s.db.rows[cmd.key].record, Run(s, Undisturbed(r, cmd));
            && end.db.rows == s.db.rows[cmd.key := Row(Record(rec.code, rec.fields, cmd.target, rec.version + 1,
                                                              SignedBy(rec, cmd)), false)]
            && r in end.requests && end.requests[r].Done? && end.requests[r].outcome.Ok?
  {
    hide Undisturbed, Run, Honest, Atomic;
    assert ShapedAt(s.db, cmd.key);
    EditAcceptedExactlyWhen(s.db, cmd);
    UndisturbedAnswer(s, r, cmd);
  }

  /** No other edge can: a transition of a live record between any other two statuses is
      refused, alone in the run, and changes nothing. */
  lemma NoOtherEdgeIsTaken(s: State, r: nat, cmd: Command)
    requires Shaped(s.db) && r !in s.requests && cmd.Transition? && Live(s.db, cmd.key)
    requires cmd.who.role in {Operator, Reviewer, Admin}
    requires !Leads(cmd.key.kind, s.db.rows[cmd.key].record.status, cmd.target)
    ensures Run(s, Alone(r, cmd)) == State(s.db, s.requests[r := Done(cmd, Err(InvalidTransition))])
  {
    hide Alone, Run, Atomic;
    assert ShapedAt(s.db, cmd.key);
    EditAcceptedExactlyWhen(s.db, cmd);
    EditRefusedBecause(s.db, cmd);
    AloneIsAtomic(s, r, cmd);
  }

  /** The review itself: whoever may review and did not submit approves, restricts or returns
      what is under review, and the record then names the two of them and the reason. */
  lemma ReviewDecides(s: State, r: nat, key: Key, target: Status, reason: string, who: Caller)
    requires Shaped(s.db) && r !in s.requests && Live(s.db, key) && key.kind == Authorization
    requires s.db.rows[key].record.status == Review && s.db.rows[key].record.signoff.Dual?
    requires who.role == Reviewer || who.role == Admin
    requires who.actor != s.db.rows[key].record.signoff.submittedBy
    requires target == Approved || target == Restricted || target == Draft
    ensures var rec := s.db.rows[key].record;
            var es := Undisturbed(r, Transition(key, rec.version, target, reason, who));
            && Honest(s, es)
            && Run(s, es).db.rows[key := s.db.rows[key]] == s.db.rows
            && key in Run(s, es).db.rows
            && Run(s, es).db.rows[key] ==
               Row(Record(rec.code, rec.fields, target, rec.version + 1,
                          Dual(rec.signoff.submittedBy, who.actor, reason)), false)
  {
    EveryEdgeIsTaken(s, r, Transition(key, s.db.rows[key].record.version, target, reason, who));
  }

  /** A read that nothing disturbs answers the live row and its whole log, to any caller. */
  lemma FetchAlone(s: State, r: nat, cmd: Command)
    requires r !in s.requests && cmd.Fetch?
    ensures Run(s, Reading(r, cmd)) ==
            State(s.db, s.requests[r := Done(cmd,
              if cmd.key in s.db.rows && !s.db.rows[cmd.key].deleted then
                Ok(Shown(View(s.db.rows[cmd.key].record, LogOf(s.db.revisions, cmd.key))))
              else Err(NotFound))])
  {
    hide LogOf;
    RunSnoc(s, [], Begin(r, cmd));
    RunSnoc(s, [] + [Begin(r, cmd)], Next(r));
    RunSnoc(s, [] + [Begin(r, cmd)] + [Next(r)], Next(r));
    if Live(s.db, cmd.key) {
      var item, log := s.db.rows[cmd.key].record, LogOf(s.db.revisions, cmd.key);
      var answered := Done(cmd, Ok(Shown(View(item, log))));
      assert s.requests[r := Loading(cmd, item)][r := Loaded(cmd, item, log)]
          == s.requests[r := Loaded(cmd, item, log)];
      assert s.requests[r := Loaded(cmd, item, log)][r := answered] == s.requests[r := answered];
    } else {
      DoneStays(State(s.db, s.requests[r := Done(cmd, Err(NotFound))]), r);
    }
  }

  /** A delete with no other request between its steps, to its answer. */
  function DeletedAlone(r: nat, cmd: Command): seq<Event> {
    Reading(r, cmd) + [Next(r)] + [Next(r)]
  }

  /** A delete that nothing disturbs, in every case: only an admin deletes, only a live draft is
      deleted, and then the row is marked and the audit tells it, from draft to deleted. */
  lemma DeleteAlone(s: State, r: nat, cmd: Command)
    requires r !in s.requests && cmd.Delete?
    ensures var end, rows, who := Run(s, DeletedAlone(r, cmd)), s.db.rows, cmd.who;
            if who.role != Admin then
              end == State(s.db, s.requests[r := Done(cmd, Err(Forbidden))])
            else if cmd.key !in rows || rows[cmd.key].deleted then
              end == State(s.db, s.requests[r := Done(cmd, Err(NotFound))])
            else if rows[cmd.key].record.status != Draft then
              end == State(s.db, s.requests[r := Done(cmd, Err(Locked))])
            else
              end == State(Db(rows[cmd.key := Row(rows[cmd.key].record, true)], s.db.revisions,
                              s.db.audits + [Audit(OrSystem(who.actor), OrUntracked(who.requestId), DeleteAction,
                                                   cmd.key,
                                                   In(Draft), Gone,
                                                   if cmd.key.kind == Certificate then "soft deleted 证书记录"
                                                   else "soft deleted 放行授权")],
                              s.db.nextId),
                           s.requests[r := Done(cmd, Ok(NoContent))])
  {
    hide LogOf, Run, Honest;
    RunSnoc(s, Reading(r, cmd), Next(r));
    RunSnoc(s, Reading(r, cmd) + [Next(r)], Next(r));
    if cmd.who.role != Admin {
      DeleteRefused(s, r, cmd, Forbidden);
    } else if !Live(s.db, cmd.key) {
      DeleteRefused(s, r, cmd, NotFound);
    } else if s.db.rows[cmd.key].record.status != Draft {
      DeleteLocked(s, r, cmd);
    } else {
      var before := s.db.rows[cmd.key].record;
      TestingRun(s, r, cmd);
      RemovalStep(s.db, s.requests, r, cmd, before);
      AuditStep(SoftDelete(s.db, cmd.key).value, s.requests, r, cmd, before);
    }
  }

  lemma AuditStep(db: Db, others: map<nat, Phase>, r: nat, cmd: Command, before: Record)
    requires cmd.Delete? && before.status == Draft
    ensures var audit := Audit(OrSystem(cmd.who.actor), OrUntracked(cmd.who.requestId), DeleteAction, cmd.key,
                               In(Draft), Gone,
                               if cmd.key.kind == Certificate then "soft deleted 证书记录" else "soft deleted 放行授权");
            Step(State(db, others[r := Deleted(cmd, before)]), Next(r))
            == State(db.(audits := db.audits + [audit]), others[r := Done(cmd, Ok(NoContent))])
  {
    assert others[r := Deleted(cmd, before)][r := Done(cmd, Ok(NoContent))] == others[r := Done(cmd, Ok(NoContent))];
  }

  lemma DeleteRefused(s: State, r: nat, cmd: Command, error: Error)
    requires r !in s.requests && cmd.Delete?
    requires if cmd.who.role != Admin then error == Forbidden else !Live(s.db, cmd.key) && error == NotFound
    ensures Run(s, Reading(r, cmd)) == State(s.db, s.requests[r := Done(cmd, Err(error))])
    ensures Step(Run(s, Reading(r, cmd)), Next(r)) == Run(s, Reading(r, cmd))
  {
    var refused := State(s.db, s.requests[r := Done(cmd, Err(error))]);
    DoneStays(refused, r);
    RunSnoc(s, [], Begin(r, cmd));
    RunSnoc(s, [] + [Begin(r, cmd)], Next(r));
    RunSnoc(s, [] + [Begin(r, cmd)] + [Next(r)], Next(r));
  }

  lemma DeleteLocked(s: State, r: nat, cmd: Command)
    requires r !in s.requests && cmd.Delete? && cmd.who.role == Admin
    requires Live(s.db, cmd.key) && s.db.rows[cmd.key].record.status != Draft
    ensures Run(s, Reading(r, cmd)) == State(s.db, s.requests[r := Done(cmd, Err(Locked))])
    ensures Step(Run(s, Reading(r, cmd)), Next(r)) == Run(s, Reading(r, cmd))
  {
    hide LogOf;
    var item, log, locked := s.db.rows[cmd.key].record, LogOf(s.db.revisions, cmd.key), Done(cmd, Err(Locked));
    assert s.requests[r := Loading(cmd, item)][r := Loaded(cmd, item, log)] == s.requests[r := Loaded(cmd, item, log)];
    assert s.requests[r := Loaded(cmd, item, log)][r := locked] == s.requests[r := locked];
    DoneStays(State(s.db, s.requests[r := locked]), r);
    RunSnoc(s, [], Begin(r, cmd));
    RunSnoc(s, [] + [Begin(r, cmd)], Next(r));
    RunSnoc(s, [] + [Begin(r, cmd)] + [Next(r)], Next(r));
  }
}

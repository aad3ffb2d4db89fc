/** Roles are monotone: what a lower role may do, a higher one may do with the same effect. */
module Raising {
  import opened Records
  import opened Transactions
  import opened Services
  import opened Access
  import opened Protocol
  import opened Invariants
  import opened Refinement

  /** The same request from a caller of the same or a higher rank. */
  predicate RaisedCommand(cmd: Command, cmd': Command) {
    && Rank(cmd.who.role) <= Rank(cmd'.who.role)
    && cmd' == (match cmd
                case Create(kind, code, fields, who) => Create(kind, code, fields, who.(role := cmd'.who.role))
                case Update(key, expected, fields, who) => Update(key, expected, fields, who.(role := cmd'.who.role))
                case Transition(key, expected, target, reason, who) =>
                  Transition(key, expected, target, reason, who.(role := cmd'.who.role))
                case Delete(key, who) => Delete(key, who.(role := cmd'.who.role))
                case Fetch(key, who) => Fetch(key, who.(role := cmd'.who.role)))
  }

  predicate RaisedOp(op: Op, op': Op) {
    match op
    case Exec(r, cmd, key) => op'.Exec? && op'.r == r && op'.key == key && RaisedCommand(cmd, op'.cmd)
    case Remove(_, _) => op' == op
    case Note(r, cmd, before) => op'.Note? && op'.r == r && op'.before == before && RaisedCommand(cmd, op'.cmd)
  }

  predicate Raised(ops: seq<Op>, ops': seq<Op>) {
    |ops| == |ops'| && forall i :: 0 <= i < |ops| ==> RaisedOp(ops[i], ops'[i])
  }

  lemma RaisedGate(cmd: Command, cmd': Command)
    requires RaisedCommand(cmd, cmd') && Gate(cmd)
    ensures Gate(cmd')
  {
    RoleTestsAreGates(cmd.who.role, cmd'.who.role);
  }

  lemma RaisedDecide(cmd: Command, cmd': Command, cur: Record)
    requires Edits(cmd) && RaisedCommand(cmd, cmd') && Decide(cmd, cur).Ok?
    ensures Edits(cmd') && Decide(cmd', cur) == Decide(cmd, cur)
  {
    RoleTestsAreGates(cmd.who.role, cmd'.who.role);
  }

  lemma RaisedApply(db: Db, op: Op, op': Op)
    requires RaisedOp(op, op') && Apply(db, op).Ok?
    ensures Apply(db, op') == Apply(db, op)
  {
    if op.Exec? {
      RaisedGate(op.cmd, op'.cmd);
      if Edits(op.cmd) {
        RaisedDecide(op.cmd, op'.cmd, db.rows[op.cmd.key].record);
      }
    }
  }

  /** Roles are monotone: raising the role of any request in an accepted history keeps it
      accepted, with the same records, logs and audits. */
  lemma {:induction false} RolesMonotone(db: Db, ops: seq<Op>, ops': seq<Op>)
    requires Accepted(db, ops) && Raised(ops, ops')
    ensures Accepted(db, ops') && Perform(db, ops') == Perform(db, ops)
  {
    if ops != [] {
      var n := |ops| - 1;
      RolesMonotone(db, ops[..n], ops'[..n]);
      RaisedApply(Perform(db, ops[..n]), ops[n], ops'[n]);
    }
  }

  /** The same for the sequential history that a run of honest requests amounts to. */
  lemma HistoryWithRaisedRoles(s: State, es: seq<Event>, ops': seq<Op>)
    requires Inv(s) && AllKnown(s) && Honest(s, es) && Raised(Linearize(s, es), ops')
    ensures Accepted(s.db, ops') && Perform(s.db, ops') == Run(s, es).db
  {
    RunRefinesAtomic(s, es);
    RolesMonotone(s.db, Linearize(s, es), ops');
  }

  // The run itself.

  predicate Forbidden(phase: Phase) {
    phase.Done? && phase.outcome == Err(Error.Forbidden)
  }

  /** The same phase of the same request, from a caller of the same or a higher rank. */
  predicate RaisedPhase(phase: PhaseShape, phase': PhaseShape) {
    RaisedCommand(phase.cmd, phase'.cmd) && phase' == phase.(cmd := phase'.cmd)
  }

  /** The same tables and, request by request, the same phases; only requests in `raised` may
      differ, in their role alone. */
  ghost predicate RaisedState(s: State, s': State, raised: set<nat>) {
    && s'.db == s.db && s'.requests.Keys == s.requests.Keys
    && forall r :: r in s.requests ==>
         RaisedPhase(s.requests[r], s'.requests[r]) && (r !in raised ==> s'.requests[r] == s.requests[r])
  }

  /** The same events, in which only the requests in `raised` may arrive with a higher role. */
  predicate RaisedEvents(es: seq<Event>, es': seq<Event>, raised: set<nat>) {
    && |es| == |es'|
    && forall i :: 0 <= i < |es| ==>
         || es'[i] == es[i]
         || (es[i].Begin? && es'[i].Begin? && es'[i].r == es[i].r && es[i].r in raised
             && RaisedCommand(es[i].cmd, es'[i].cmd))
  }

  lemma RaisedToItself(phase: Phase)
    ensures RaisedPhase(phase, phase)
  {
  }

  lemma RaisedStart(db: Db, cmd: Command, cmd': Command)
    requires RaisedCommand(cmd, cmd') && !Forbidden(Start(db, cmd))
    ensures RaisedPhase(Start(db, cmd), Start(db, cmd'))
  {
    RaisedGate(cmd, cmd');
  }

  /** A decision that is not refused for the role is the same for a higher one. */
  lemma RaisedRefusal(cmd: Command, cmd': Command, cur: Record)
    requires Edits(cmd) && RaisedCommand(cmd, cmd') && Decide(cmd, cur) != Err(Error.Forbidden)
    ensures Edits(cmd') && Decide(cmd', cur) == Decide(cmd, cur)
  {
    RoleTestsAreGates(cmd.who.role, cmd'.who.role);
  }

  /** No transaction looks at the role. */
  lemma RaisedTransactions(db: Db, phase: Phase, phase': Phase)
    requires RaisedPhase(phase, phase')
    ensures phase.Drafting? ==>
              CreateVersion(db, phase.item, phase'.cmd.who) == CreateVersion(db, phase.item, phase.cmd.who)
    ensures phase.Checked? ==>
              Commit(db, phase'.cmd, phase.before, phase.item) == Commit(db, phase.cmd, phase.before, phase.item)
    ensures phase.Deleted? ==>
              NoteRemoval(db, phase'.cmd, phase.before.status) == NoteRemoval(db, phase.cmd, phase.before.status)
  {
    hide CodeTaken;
  }

  lemma RaisedAdvance(db: Db, phase: Phase, phase': Phase)
    requires RaisedPhase(phase, phase') && !Forbidden(Advance(db, phase).1)
    ensures Advance(db, phase').0 == Advance(db, phase).0
    ensures RaisedPhase(Advance(db, phase).1, Advance(db, phase').1)
  {
    hide Decide, LogOf, CreateVersion, Commit, NoteRemoval;
    RaisedTransactions(db, phase, phase');
    if phase.Loaded? && Edits(phase.cmd) {
      RaisedRefusal(phase.cmd, phase'.cmd, phase.item);
    }
  }

  lemma StepRaised(s: State, s': State, e: Event, e': Event, raised: set<nat>)
    requires RaisedState(s, s', raised) && RaisedEvents([e], [e'], raised)
    requires forall r :: r in raised && r in Step(s, e).requests ==> !Forbidden(Step(s, e).requests[r])
    ensures RaisedState(Step(s, e), Step(s', e'), raised)
  {
    hide RaisedPhase, RaisedCommand, Advance, Start, Forbidden;
    assert e == [e][0] && e' == [e'][0];
    var r := e.r;
    match e
    case Begin(_, cmd) =>
      if r !in s.requests {
        if e' == e {
          RaisedToItself(Start(s.db, cmd));
        } else {
          RaisedStart(s.db, cmd, e'.cmd);
        }
      }
    case Next(_) =>
      if r in s.requests {
        if r in raised {
          RaisedAdvance(s.db, s.requests[r], s'.requests[r]);
        } else {
          RaisedToItself(Advance(s.db, s.requests[r]).1);
        }
      }
    case Abort(_) =>
      if r in s.requests {
        RaisedAbort(s.requests[r], s'.requests[r]);
      }
  }

  lemma RaisedAbort(phase: Phase, phase': Phase)
    requires RaisedPhase(phase, phase')
    ensures phase.Done? <==> phase'.Done?
    ensures RaisedPhase(Done(phase.cmd, Err(Unavailable)), Done(phase'.cmd, Err(Unavailable)))
  {
  }

  /** An answer is final. */
  lemma StepKeepsForbidden(s: State, e: Event, r: nat)
    requires r in s.requests && Forbidden(s.requests[r])
    ensures r in Step(s, e).requests && Forbidden(Step(s, e).requests[r])
  {
  }

  /** Roles are monotone on interleaved runs, of any clients: repeat a run with the roles
      raised of any requests that it does not refuse as forbidden, and the same interleaving
      ends in the same tables, with the same phase and the same answer of every request. */
  lemma {:induction false} RunWithRaisedRoles(s: State, es: seq<Event>, es': seq<Event>, raised: set<nat>)
    requires RaisedEvents(es, es', raised)
    requires forall r :: r in raised && r in Run(s, es).requests ==> !Forbidden(Run(s, es).requests[r])
    ensures RaisedState(Run(s, es), Run(s, es'), raised)
  {
    hide RaisedPhase, RaisedCommand, Step, Forbidden;
    if es == [] {
      forall r | r in s.requests ensures RaisedPhase(s.requests[r], s.requests[r]) {
        RaisedToItself(s.requests[r]);
      }
    } else {
      var n := |es| - 1;
      forall r | r in raised && r in Run(s, es[..n]).requests ensures !Forbidden(Run(s, es[..n]).requests[r]) {
        if Forbidden(Run(s, es[..n]).requests[r]) {
          StepKeepsForbidden(Run(s, es[..n]), es[n], r);
        }
      }
      RunWithRaisedRoles(s, es[..n], es'[..n], raised);
      StepRaised(Run(s, es[..n]), Run(s, es'[..n]), es[n], es'[n], raised);
    }
  }
}

/** The central theorem: under the client hypothesis, any interleaving of requests leaves the
    same records, revision logs and audits as running the committed requests one at a time,
    each as one atomic action, in commit order. */
module Refinement {
  import opened Records
  import opened Transactions
  import opened Services
  import opened Statuses
  import opened Access
  import opened Protocol
  import opened Invariants
  import opened Runs

  /** What a committed statement or transaction counts as in the sequential history.
      `Exec` is a whole create, update or transition request. A delete is two entries, because
      the program commits it in two: the row first, its audit later. */
  datatype OpShape =
    | Exec(r: nat, cmd: Command, key: Key)
    | Remove(r: nat, key: Key)
    | Note(r: nat, cmd: Command, before: Status)

  type Op = op: OpShape | (op.Exec? ==> op.cmd.Create? || Edits(op.cmd)) && (op.Note? ==> op.cmd.Delete?)
    witness Remove(0, Key(Certificate, 0))

  /** The record that an atomic request is about: a create is about the next free key. */
  function TargetOf(db: Db, cmd: Command): Key {
    if cmd.Create? then NextKey(db, cmd.kind) else cmd.key
  }

  /** An `Exec` is the atomic specification; it reads nothing but the present tables. */
  function Apply(db: Db, op: Op): Result<Db> {
    match op
    case Exec(_, cmd, key) => if key == TargetOf(db, cmd) then Atomic(db, cmd) else Err(NotFound)
    case Remove(_, key) => SoftDelete(db, key)
    case Note(_, cmd, before) => Ok(NoteRemoval(db, cmd, before))
  }

  function Perform(db: Db, ops: seq<Op>): Db {
    if ops == [] then db
    else
      var mid := Perform(db, ops[..|ops| - 1]);
      match Apply(mid, ops[|ops| - 1])
      case Ok(after) => after
      case Err(_) => mid
  }

  /** No operation of the history is refused. */
  predicate Accepted(db: Db, ops: seq<Op>) {
    ops == [] ||
    (var init := ops[..|ops| - 1];
     Accepted(db, init) && Apply(Perform(db, init), ops[|ops| - 1]).Ok?)
  }

  /** The entry of the sequential history that an event commits, if it commits one. */
  function OpsOf(s: State, e: Event): seq<Op> {
    if !e.Next? || e.r !in s.requests then []
    else
      var phase := s.requests[e.r];
      match phase
      case Checked(cmd, before, item) =>
        if Commit(s.db, cmd, before, item).Ok? then [Exec(e.r, cmd, cmd.key)] else []
      case Drafting(cmd, item) =>
        if CreateVersion(s.db, item, cmd.who).Ok? then [Exec(e.r, cmd, NextKey(s.db, item.Kind()))] else []
      case Deleting(cmd, _) => if SoftDelete(s.db, cmd.key).Ok? then [Remove(e.r, cmd.key)] else []
      case Deleted(cmd, before) => [Note(e.r, cmd, before.status)]
      case _ => []
  }

  /** The committed operations of a run, in commit order. */
  function Linearize(s: State, es: seq<Event>): seq<Op> {
    if es == [] then []
    else Linearize(s, es[..|es| - 1]) + OpsOf(Run(s, es[..|es| - 1]), es[|es| - 1])
  }

  /** An edit under way read its record at the version the client sent, or later. */
  predicate Known(phase: Phase) {
    match phase
    case Loading(cmd, item) => Edits(cmd) ==> cmd.expected <= item.version
    case Loaded(cmd, item, _) => Edits(cmd) ==> cmd.expected <= item.version
    case Checked(cmd, before, _) => cmd.expected <= before.version
    case _ => true
  }

  predicate AllKnown(s: State) {
    forall r :: r in s.requests ==> Known(s.requests[r])
  }

  lemma VouchedIsPast(db: Db, cmd: Command)
    requires Shaped(db) && Edits(cmd) && Live(db, cmd.key) && Vouched(db, cmd)
    ensures 1 <= cmd.expected <= db.rows[cmd.key].record.version
  {
    assert ShapedAt(db, cmd.key);
  }

  lemma StepKnown(s: State, e: Event)
    requires Inv(s) && AllKnown(s)
    requires e.Begin? ==> Vouched(s.db, e.cmd)
    ensures AllKnown(Step(s, e))
  {
    hide Decide, UpdateVersion, CreateVersion, LogOf, PhaseOk, ValidBusinessFields, RequireMinimumRole;
    if e.Begin? && !e.cmd.Create? && Live(s.db, e.cmd.key) && Edits(e.cmd) {
      VouchedIsPast(s.db, e.cmd);
    }
  }

  /** The heart of the refinement. The version guard alone does not make the early read
      current: it compares the row with the version the client sent. Since that version was
      committed before the read, the read is not older than the row. */
  lemma CommitIsCurrent(db: Db, cmd: Command, before: Record, item: Record)
    requires Edits(cmd) && Shaped(db) && PhaseOk(db, Checked(cmd, before, item))
    requires cmd.expected <= before.version && Commit(db, cmd, before, item).Ok?
    ensures Live(db, cmd.key) && db.rows[cmd.key].record == before
    ensures Atomic(db, cmd) == Commit(db, cmd, before, item)
  {
  }

  lemma CommitRefines(db: Db, cmd: Command, before: Record, item: Record, r: nat)
    requires Edits(cmd) && Shaped(db) && PhaseOk(db, Checked(cmd, before, item))
    requires cmd.expected <= before.version && Commit(db, cmd, before, item).Ok?
    ensures Apply(db, Exec(r, cmd, cmd.key)) == Commit(db, cmd, before, item)
  {
    hide Commit, Decide;
    CommitIsCurrent(db, cmd, before, item);
  }

  lemma StepRefines(s: State, e: Event)
    requires Inv(s) && AllKnown(s)
    ensures Accepted(s.db, OpsOf(s, e)) && Perform(s.db, OpsOf(s, e)) == Step(s, e).db
  {
    hide Decide, Commit, LogOf;
    if e.Next? && e.r in s.requests {
      var phase := s.requests[e.r];
      assert PhaseOk(s.db, phase) && Known(phase);
      match phase {
        case Checked(cmd, before, item) =>
          if Commit(s.db, cmd, before, item).Ok? {
            CommitRefines(s.db, cmd, before, item, e.r);
            PerformOne(s.db, Exec(e.r, cmd, cmd.key));
          }
        case Drafting(cmd, item) =>
          if CreateVersion(s.db, item, cmd.who).Ok? {
            PerformOne(s.db, Exec(e.r, cmd, NextKey(s.db, item.Kind())));
          }
        case Deleting(cmd, before) =>
          if SoftDelete(s.db, cmd.key).Ok? {
            PerformOne(s.db, Remove(e.r, cmd.key));
          }
        case Deleted(cmd, before) => PerformOne(s.db, Note(e.r, cmd, before.status));
        case _ =>
      }
    }
  }

  lemma PerformOne(db: Db, op: Op)
    ensures Perform(db, [op]) == match Apply(db, op) case Ok(after) => after case Err(_) => db
    ensures Accepted(db, [op]) <==> Apply(db, op).Ok?
  {
    assert [op][..0] == [];
  }

  lemma {:induction false} PerformConcat(db: Db, a: seq<Op>, b: seq<Op>)
    ensures Perform(db, a + b) == Perform(Perform(db, a), b)
    ensures Accepted(db, a + b) <==> Accepted(db, a) && Accepted(Perform(db, a), b)
  {
    if b == [] {
      assert a + b == a;
    } else {
      assert (a + b)[..|a + b| - 1] == a + b[..|b| - 1];
      PerformConcat(db, a, b[..|b| - 1]);
    }
  }

  lemma {:induction false} RunKnown(s: State, es: seq<Event>)
    requires Inv(s) && AllKnown(s) && Honest(s, es)
    ensures Inv(Run(s, es)) && AllKnown(Run(s, es))
  {
    RunOk(s, es);
    if es != [] {
      var init := es[..|es| - 1];
      RunKnown(s, init);
      StepKnown(Run(s, init), es[|es| - 1]);
    }
  }

  /** Refinement: a run of any number of interleaved requests is a sequential history of
      atomic requests, in commit order, none of which is refused. */
  lemma {:induction false} RunRefinesAtomic(s: State, es: seq<Event>)
    requires Inv(s) && AllKnown(s) && Honest(s, es)
    ensures Accepted(s.db, Linearize(s, es))
    ensures Run(s, es).db == Perform(s.db, Linearize(s, es))
  {
    if es != [] {
      var init := es[..|es| - 1];
      RunRefinesAtomic(s, init);
      RunKnown(s, init);
      var mid := Run(s, init);
      StepRefines(mid, es[|es| - 1]);
      PerformConcat(s.db, Linearize(s, init), OpsOf(mid, es[|es| - 1]));
    }
  }

  /** Whether a request's transaction is behind it. */
  predicate Past(phase: Phase) {
    phase.Written? || phase.Answering? || (phase.Done? && phase.outcome.Ok? && (phase.cmd.Create? || Edits(phase.cmd)))
  }

  predicate Executed(ops: seq<Op>, r: nat) {
    exists i :: 0 <= i < |ops| && ops[i].Exec? && ops[i].r == r
  }

  predicate Removes(ops: seq<Op>, r: nat) {
    exists i :: 0 <= i < |ops| && ops[i].Remove? && ops[i].r == r
  }

  /** Two entries are of one sort: two requests, two row removals or two removal audits. */
  predicate SameSort(a: Op, b: Op) {
    (a.Exec? && b.Exec?) || (a.Remove? && b.Remove?) || (a.Note? && b.Note?)
  }

  predicate OncePerRequest(ops: seq<Op>) {
    forall i, j :: 0 <= i < j < |ops| && SameSort(ops[i], ops[j]) ==> ops[i].r != ops[j].r
  }

  /** An entry carries the command and the record of its own request, which has been through
      the phase that commits it. */
  predicate About(op: Op, requests: map<nat, Phase>) {
    && op.r in requests
    && var phase := requests[op.r];
    match op
    case Exec(_, cmd, key) =>
      && phase.cmd == cmd && (Past(phase) || phase.Done?)
      && (if cmd.Create? then key.kind == cmd.kind else key == cmd.key)
      && (phase.Written? || phase.Answering? ==> phase.key == key)
    case Remove(_, key) => phase.cmd.Delete? && phase.cmd.key == key && (phase.Deleted? || phase.Done?)
    case Note(_, cmd, _) => phase.cmd == cmd && phase.Done?
  }

  /** Whether a delete's row is gone by its own statement. */
  predicate PastRemoval(phase: Phase) {
    phase.Deleted? || (phase.Done? && phase.cmd.Delete? && phase.outcome.Ok?)
  }

  /** Every entry of the history is about its own request, and every request whose transaction
      is behind it, or whose delete removed its row, has its entry. */
  ghost predicate Tracks(ops: seq<Op>, s: State) {
    && (forall i :: 0 <= i < |ops| ==> About(ops[i], s.requests))
    && (forall r :: r in s.requests && Past(s.requests[r]) ==> Executed(ops, r))
    && (forall r :: r in s.requests && PastRemoval(s.requests[r]) ==> Removes(ops, r))
  }

  lemma ExecutedConcat(a: seq<Op>, b: seq<Op>, r: nat)
    ensures Executed(a + b, r) <==> Executed(a, r) || Executed(b, r)
  {
    if Executed(a, r) {
      var i :| 0 <= i < |a| && a[i].Exec? && a[i].r == r;
      assert (a + b)[i] == a[i];
    }
    if Executed(b, r) {
      var i :| 0 <= i < |b| && b[i].Exec? && b[i].r == r;
      assert (a + b)[|a| + i] == b[i];
    }
  }

  lemma RemovesConcat(a: seq<Op>, b: seq<Op>, r: nat)
    ensures Removes(a + b, r) <==> Removes(a, r) || Removes(b, r)
  {
    if Removes(a, r) {
      var i :| 0 <= i < |a| && a[i].Remove? && a[i].r == r;
      assert (a + b)[i] == a[i];
    }
    if Removes(b, r) {
      var i :| 0 <= i < |b| && b[i].Remove? && b[i].r == r;
      assert (a + b)[|a| + i] == b[i];
    }
  }

  /** The phase of a request before it commits an entry. */
  predicate Before(op: Op, phase: Phase) {
    match op
    case Exec(_, _, _) => phase.Checked? || phase.Drafting?
    case Remove(_, _) => phase.Deleting?
    case Note(_, _, _) => phase.Deleted?
  }

  /** A step commits entries of its own request, which comes out of the phase before them. */
  lemma StepAdds(s: State, e: Event)
    ensures |OpsOf(s, e)| <= 1
    ensures forall op :: op in OpsOf(s, e) ==>
              op.r in s.requests && Before(op, s.requests[op.r]) && About(op, Step(s, e).requests)
  {
  }

  lemma StepKeepsAbout(s: State, e: Event, op: Op)
    requires About(op, s.requests)
    ensures About(op, Step(s, e).requests)
  {
    hide CreateVersion, UpdateVersion, SoftDelete, LogOf, Decide;
  }

  /** A request gets past its transaction, or past its row's removal, only by an entry. */
  lemma StepPasses(s: State, e: Event, r: nat)
    requires r in Step(s, e).requests
    ensures Past(Step(s, e).requests[r]) ==>
              (r in s.requests && Past(s.requests[r])) || Executed(OpsOf(s, e), r)
    ensures PastRemoval(Step(s, e).requests[r]) ==>
              (r in s.requests && PastRemoval(s.requests[r])) || Removes(OpsOf(s, e), r)
  {
    var ops := OpsOf(s, e);
    if ops != [] {
      assert ops[0].Exec? ==> Executed(ops, ops[0].r);
      assert ops[0].Remove? ==> Removes(ops, ops[0].r);
    }
  }

  lemma StepTracks(ops: seq<Op>, s: State, e: Event)
    requires OncePerRequest(ops) && Tracks(ops, s)
    ensures OncePerRequest(ops + OpsOf(s, e)) && Tracks(ops + OpsOf(s, e), Step(s, e))
  {
    hide Step, OpsOf, Executed, Removes, Past, PastRemoval;
    var added, s' := OpsOf(s, e), Step(s, e);
    StepAdds(s, e);
    forall i | 0 <= i < |ops + added| ensures About((ops + added)[i], s'.requests) {
      if i < |ops| {
        StepKeepsAbout(s, e, ops[i]);
      }
    }
    forall r | r in s'.requests
      ensures Past(s'.requests[r]) ==> Executed(ops + added, r)
      ensures PastRemoval(s'.requests[r]) ==> Removes(ops + added, r)
    {
      StepPasses(s, e, r);
      ExecutedConcat(ops, added, r);
      RemovesConcat(ops, added, r);
    }
    OneMoreOnce(ops, added, s.requests);
  }

  lemma OneMoreOnce(ops: seq<Op>, added: seq<Op>, requests: map<nat, Phase>)
    requires OncePerRequest(ops) && |added| <= 1
    requires forall i :: 0 <= i < |ops| ==> About(ops[i], requests)
    requires forall op :: op in added ==> op.r in requests && Before(op, requests[op.r])
    ensures OncePerRequest(ops + added)
  {
    if added != [] {
      assert added[0] in added && ops + added == ops + [added[0]];
      forall i | 0 <= i < |ops| && SameSort(ops[i], added[0]) ensures ops[i].r != added[0].r {
        assert About(ops[i], requests);
      }
    } else {
      assert ops + added == ops;
    }
  }

  /** The history is about the requests of the run: every entry carries the command and record
      of its own request, no request has two entries of one sort, every create, update or
      transition that is answered with success has committed, and every delete that is has
      removed its row. */
  lemma {:induction false} CommitsOnce(s: State, es: seq<Event>)
    requires s.requests == map[]
    ensures OncePerRequest(Linearize(s, es)) && Tracks(Linearize(s, es), Run(s, es))
  {
    if es != [] {
      CommitsOnce(s, es[..|es| - 1]);
      StepTracks(Linearize(s, es[..|es| - 1]), Run(s, es[..|es| - 1]), es[|es| - 1]);
    }
  }
}

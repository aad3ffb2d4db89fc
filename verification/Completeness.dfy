/** Every record has a code, a name, a facility and an owner, in every run of any clients. */
module Completeness {
  import opened Records
  import opened Transactions
  import opened Services
  import opened Protocol

  predicate Full(rec: Record) {
    rec.code != "" && rec.fields.name != "" && rec.fields.facility != "" && rec.fields.owner != ""
  }

  /** A phase carries no record that lacks any of them. */
  predicate FullPhase(phase: Phase) {
    match phase
    case Loading(_, item) => Full(item)
    case Loaded(_, item, _) => Full(item)
    case Checked(_, _, item) => Full(item)
    case Drafting(_, item) => Full(item)
    case _ => true
  }

  ghost predicate AllFull(s: State) {
    && (forall key :: key in s.db.rows ==> Full(s.db.rows[key].record))
    && (forall r :: r in s.requests ==> FullPhase(s.requests[r]))
  }

  lemma DecideFull(cmd: Command, cur: Record)
    requires Edits(cmd) && Full(cur) && Decide(cmd, cur).Ok?
    ensures Full(Decide(cmd, cur).value)
  {
  }

  lemma AdvanceFull(db: Db, phase: Phase)
    requires FullPhase(phase) && forall key :: key in db.rows ==> Full(db.rows[key].record)
    ensures forall key :: key in Advance(db, phase).0.rows ==> Full(Advance(db, phase).0.rows[key].record)
    ensures FullPhase(Advance(db, phase).1)
  {
    hide Decide, LogOf, CodeTaken;
    if phase.Loaded? && Edits(phase.cmd) && Decide(phase.cmd, phase.item).Ok? {
      DecideFull(phase.cmd, phase.item);
    }
  }

  lemma StepFull(s: State, e: Event)
    requires AllFull(s)
    ensures AllFull(Step(s, e))
  {
    hide Advance;
    if e.Next? && e.r in s.requests {
      AdvanceFull(s.db, s.requests[e.r]);
    }
  }

  /** From complete rows, every row of every run is complete, live or deleted, whatever clients
      send and however their requests interleave. */
  lemma {:induction false} RowsStayComplete(s: State, es: seq<Event>, key: Key)
    requires s.requests == map[]
    requires forall k :: k in s.db.rows ==>
               var rec := s.db.rows[k].record;
               rec.code != "" && rec.fields.name != "" && rec.fields.facility != "" && rec.fields.owner != ""
    requires key in Run(s, es).db.rows
    ensures var rec := Run(s, es).db.rows[key].record;
            rec.code != "" && rec.fields.name != "" && rec.fields.facility != "" && rec.fields.owner != ""
  {
    RunFull(s, es);
  }

  lemma {:induction false} RunFull(s: State, es: seq<Event>)
    requires AllFull(s)
    ensures AllFull(Run(s, es))
  {
    if es != [] {
      RunFull(s, es[..|es| - 1]);
      StepFull(Run(s, es[..|es| - 1]), es[|es| - 1]);
    }
  }
}

/** The four-eyes rule read off the history itself: not only the present sign-off fields, but
    every decision a log has ever recorded was taken by someone other than the maker. */
module Decisions {
  import opened Records
  import opened Transactions
  import opened Services
  import opened Statuses
  import opened Protocol
  import opened Invariants
  import opened Refinement
  import opened Histories
  import opened Evidence
  import opened Provenance

  /** Whose work a decision after this log is about: the newest submission of an
      authorization, the newest draft of a certificate. */
  function MakerRevision(kind: Kind, log: seq<Revision>): Option<Revision> {
    match kind
    case Certificate => Newest(log, IsDraft)
    case Authorization => Newest(log, IsSubmission)
  }

  /** There is something to decide on, and the decision is not its maker's. The program lets
      anyone decide on a submission without a name. */
  predicate IndependentOf(kind: Kind, maker: Option<Revision>, decision: Revision) {
    && maker.Some?
    && (maker.value.actor != decision.actor || (kind == Authorization && maker.value.actor == ""))
  }

  predicate DecidesAt(kind: Kind, log: seq<Revision>, i: int)
    requires 0 <= i < |log|
  {
    IsTransition(log[i]) && IsDecision(kind, log[i].status)
  }

  predicate Independent(kind: Kind, log: seq<Revision>) {
    forall i :: 0 <= i < |log| && DecidesAt(kind, log, i) ==> IndependentOf(kind, MakerRevision(kind, log[..i]), log[i])
  }

  /** The invariant of a created record. */
  predicate FourEyes(key: Key, st: Story) {
    && Independent(key.kind, st.log)
    && (key.kind == Certificate || st.rec().status != Draft ==> MakerRevision(key.kind, st.log).Some?)
  }

  ghost predicate FourEyesAt(db: Db, key: Key) {
    key in db.rows && StoryOf(db, key).log != [] && StoryOf(db, key).log[0].action == CreateAction ==>
      FourEyes(key, StoryOf(db, key))
  }

  lemma IndependentAppend(kind: Kind, log: seq<Revision>, r: Revision)
    requires Independent(kind, log)
    requires IsTransition(r) && IsDecision(kind, r.status) ==> IndependentOf(kind, MakerRevision(kind, log), r)
    ensures Independent(kind, log + [r])
  {
    var log' := log + [r];
    forall i | 0 <= i < |log'| && DecidesAt(kind, log', i)
      ensures IndependentOf(kind, MakerRevision(kind, log'[..i]), log'[i])
    {
      if i < |log| {
        assert log'[..i] == log[..i] && DecidesAt(kind, log, i);
      } else {
        assert log'[..i] == log;
      }
    }
  }

  /** A decision is only taken out of draft, by someone other than the present maker. */
  lemma DecideIndependent(cmd: Command, cur: Record)
    requires Edits(cmd) && Decide(cmd, cur).Ok?
    ensures cmd.Transition? && IsDecision(cur.Kind(), Decide(cmd, cur).value.status) ==>
              match cur.signoff
              case Prepared(preparedBy, _) => cmd.who.actor != preparedBy
              case Dual(submittedBy, _, _) => cur.status != Draft && (submittedBy == "" || cmd.who.actor != submittedBy)
    ensures cur.Kind() == Authorization && cur.status == Draft && Decide(cmd, cur).value.status != Draft ==>
              cmd.Transition? && Decide(cmd, cur).value.status == Review
  {
  }

  lemma MakerSurvives(kind: Kind, log: seq<Revision>, r: Revision)
    ensures MakerRevision(kind, log).Some? ==> MakerRevision(kind, log + [r]).Some?
    ensures kind == Authorization && IsSubmission(r) ==> MakerRevision(kind, log + [r]).Some?
  {
    NewestAppend(log, r, IsDraft);
    NewestAppend(log, r, IsSubmission);
  }

  lemma EditedFourEyes(key: Key, a: Story, b: Story, cmd: Command)
    requires Edited(key, a, b, cmd) && ShapedRecord(key, a.rec(), a.log) && FourEyes(key, a)
    requires a.rec().signoff == SignoffFrom(key.kind, a.log)
    ensures FourEyes(key, b)
  {
    hide Decide, Newest, CanTransition;
    DecideIndependent(cmd, a.rec());
    DecideFrame(cmd, a.rec());
    var item := Decide(cmd, a.rec()).value;
    var r := NewRevision(key, item, cmd.who, ActionOf(cmd), ReasonOf(cmd));
    IndependentAppend(key.kind, a.log, r);
    MakerSurvives(key.kind, a.log, r);
  }

  lemma BornFourEyes(key: Key, b: Story, cmd: Command)
    requires Born(key, b, cmd)
    ensures FourEyes(key, b)
  {
    NewestAppend([], b.log[0], IsDraft);
    assert [] + [b.log[0]] == b.log;
  }

  lemma PassageFourEyes(db: Db, op: Op, db': Db, key: Key)
    requires Shaped(db) && ProvenAt(db, key) && FourEyesAt(db, key) && Passage(db, op, db', key)
    ensures FourEyesAt(db', key)
  {
    hide FourEyes, Decide, LogOf, TrailOf;
    assert ShapedAt(db, key);
    if op.Exec? && op.key == key {
      if op.cmd.Create? {
        BornFourEyes(key, StoryOf(db', key), op.cmd);
      } else {
        var a, b := StoryOf(db, key), StoryOf(db', key);
        assert b.log[0] == a.log[0];
        if a.log[0].action == CreateAction {
          EditedFourEyes(key, a, b, op.cmd);
        }
      }
    } else if key in db.rows {
      assert StoryOf(db', key).log == StoryOf(db, key).log;
      FourEyesFrame(key, StoryOf(db, key), StoryOf(db', key));
    }
  }

  lemma FourEyesFrame(key: Key, a: Story, b: Story)
    requires b.log == a.log && b.rec() == a.rec()
    ensures FourEyes(key, a) ==> FourEyes(key, b)
  {
  }

  ghost predicate AllFourEyes(db: Db) {
    forall key :: FourEyesAt(db, key)
  }

  lemma {:induction false} RunFourEyes(s: State, es: seq<Event>)
    requires Initial(s) && Honest(s, es)
    ensures Sound(Run(s, es)) && AllFourEyes(Run(s, es).db)
  {
    ReachableSound(s, es);
    if es == [] {
      forall key ensures FourEyesAt(s.db, key) {
        assert Seeded(s.db, key);
      }
    } else {
      var init, e := es[..|es| - 1], es[|es| - 1];
      RunFourEyes(s, init);
      ProvenHasNoStray(Run(s, init).db);
      forall key ensures FourEyesAt(Run(s, es).db, key) {
        StepFourEyes(Run(s, init), e, key);
      }
    }
  }

  lemma StepFourEyes(s: State, e: Event, key: Key)
    requires Sound(s) && AllFourEyes(s.db) && NoStrayAudits(s.db)
    ensures FourEyesAt(Step(s, e).db, key)
  {
    hide OpsOf, Step;
    StepPassage(s, e, key);
    assert ProvenAt(s.db, key) && FourEyesAt(s.db, key);
    if OpsOf(s, e) != [] {
      PassageFourEyes(s.db, OpsOf(s, e)[0], Step(s, e).db, key);
    }
  }

  /** Release goes through review, by two people: in the log of a created record, every
      approval, restriction, revocation or return of an authorization comes after a submission
      and is not by its submitter, and every publication or revocation of a certificate comes
      after a draft and is not by its preparer - in every state that honest requests reach. */
  lemma EveryDecisionIndependent(s: State, es: seq<Event>, key: Key, i: nat)
    requires Initial(s) && Honest(s, es)
    requires i < |LogOf(Run(s, es).db.revisions, key)|
    requires LogOf(Run(s, es).db.revisions, key)[0].action == CreateAction
    requires LogOf(Run(s, es).db.revisions, key)[i].action == TransitionAction
    requires IsDecision(key.kind, LogOf(Run(s, es).db.revisions, key)[i].status)
    ensures var log := LogOf(Run(s, es).db.revisions, key);
            var maker := MakerRevision(key.kind, log[..i]);
            && maker.Some?
            && (maker.value.actor != log[i].actor || (key.kind == Authorization && maker.value.actor == ""))
  {
    RunFourEyes(s, es);
    var db := Run(s, es).db;
    assert ShapedAt(db, key) && FourEyesAt(db, key);
    assert DecidesAt(key.kind, StoryOf(db, key).log, i);
  }
}

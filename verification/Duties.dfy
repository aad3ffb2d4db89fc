/** Separation of duty, frozen evidence and the one-way lifecycle, over whole runs. */
module Duties {
  import opened Records
  import opened Services
  import opened Statuses
  import opened Protocol
  import opened Invariants
  import opened Runs
  import opened Refinement
  import opened Histories
  import opened Evidence

  // Dual control and independent verification.

  predicate Decided(status: Status) {
    status == Approved || status == Restricted || status == Revoked
  }

  predicate Verified(status: Status) {
    status == Valid || status == Expired || status == Revoked
  }

  /** Two named people stand behind every decided authorization and every published
      certificate; a submission under review has no reviewer yet. */
  predicate SignedOff(rec: Record) {
    match rec.signoff
    case Prepared(preparedBy, verifiedBy) =>
      Verified(rec.status) ==> verifiedBy != "" && verifiedBy != preparedBy
    case Dual(submittedBy, reviewedBy, reviewReason) =>
      && (Decided(rec.status) ==> submittedBy != "" && reviewedBy != "" && submittedBy != reviewedBy)
      && (rec.status == Review ==> submittedBy != "" && reviewedBy == "" && reviewReason == "")
  }

  ghost predicate AllSignedOff(db: Db) {
    forall key :: key in db.rows ==> SignedOff(db.rows[key].record)
  }

  ghost predicate AllNamed(s: State) {
    forall r :: r in s.requests ==> s.requests[r].cmd.who.actor != ""
  }

  lemma DecideSignsOff(cmd: Command, cur: Record)
    requires Edits(cmd) && Decide(cmd, cur).Ok? && SignedOff(cur) && cmd.who.actor != ""
    ensures SignedOff(Decide(cmd, cur).value)
  {
  }

  lemma PassageSignsOff(db: Db, op: Op, db': Db, key: Key)
    requires Passage(db, op, db', key) && key in db'.rows
    requires op.Exec? ==> op.cmd.who.actor != ""
    requires key in db.rows ==> SignedOff(db.rows[key].record)
    ensures SignedOff(db'.rows[key].record)
  {
    assert StoryOf(db', key).row == db'.rows[key];
    if op.Exec? && op.key == key {
      if Edits(op.cmd) {
        assert StoryOf(db, key).row == db.rows[key];
        DecideSignsOff(op.cmd, db.rows[key].record);
      }
    } else {
      assert StoryOf(db, key).row == db.rows[key];
    }
  }

  lemma OpNamed(s: State, e: Event)
    requires AllNamed(s)
    ensures OpsOf(s, e) != [] && OpsOf(s, e)[0].Exec? ==> OpsOf(s, e)[0].cmd.who.actor != ""
  {
  }

  lemma StepSignedOff(s: State, e: Event)
    requires Sound(s) && AllSignedOff(s.db) && AllNamed(s)
    requires e.Begin? ==> e.cmd.who.actor != ""
    ensures AllSignedOff(Step(s, e).db)
  {
    hide OpsOf, Step, SignedOff, Inv, AllKnown;
    var s', ops := Step(s, e), OpsOf(s, e);
    ProvenHasNoStray(s.db);
    OpNamed(s, e);
    forall key | key in s'.db.rows ensures SignedOff(s'.db.rows[key].record) {
      StepPassage(s, e, key);
      if ops != [] {
        PassageSignsOff(s.db, ops[0], s'.db, key);
      }
    }
  }

  lemma StepNamed(s: State, e: Event)
    requires AllNamed(s)
    requires e.Begin? ==> e.cmd.who.actor != ""
    ensures AllNamed(Step(s, e))
  {
    hide Advance;
    forall r | r in Step(s, e).requests ensures Step(s, e).requests[r].cmd.who.actor != "" {
      if r in s.requests {
        AdvanceKeepsCommand(s.db, s.requests[r]);
      }
    }
  }

  lemma {:induction false} RunSignedOff(s: State, es: seq<Event>)
    requires Sound(s) && AllSignedOff(s.db) && AllNamed(s) && Honest(s, es) && Named(es)
    ensures AllSignedOff(Run(s, es).db) && AllNamed(Run(s, es))
  {
    if es != [] {
      var init, e := es[..|es| - 1], es[|es| - 1];
      RunSignedOff(s, init);
      RunSound(s, init);
      assert e in es;
      StepSignedOff(Run(s, init), e);
      StepNamed(Run(s, init), e);
    }
  }

  /** Dual control: in every reachable state, however many rounds of return and resubmission
      a record has been through, a decided authorization names a submitter and a different
      reviewer, and one under review names no reviewer. */
  lemma DualControl(s: State, es: seq<Event>, key: Key)
    requires Initial(s) && AllSignedOff(s.db) && Honest(s, es) && Named(es)
    requires key.kind == Authorization && key in Run(s, es).db.rows
    ensures var rec := Run(s, es).db.rows[key].record;
            && rec.signoff.Dual?
            && (rec.status in {Approved, Restricted, Revoked} ==>
                  rec.signoff.submittedBy != "" && rec.signoff.reviewedBy != ""
                  && rec.signoff.submittedBy != rec.signoff.reviewedBy)
            && (rec.status == Review ==> rec.signoff.reviewedBy == "")
  {
    InitialSound(s);
    RunSound(s, es);
    RunSignedOff(s, es);
    assert ShapedAt(Run(s, es).db, key);
  }

  /** Independent verification: in every reachable state a published certificate names a
      verifier other than its preparer, and the preparer of a created one is the actor of its
      newest draft revision. */
  lemma IndependentVerification(s: State, es: seq<Event>, key: Key)
    requires Initial(s) && AllSignedOff(s.db) && Honest(s, es) && Named(es)
    requires key.kind == Certificate && key in Run(s, es).db.rows
    ensures var rec, log := Run(s, es).db.rows[key].record, LogOf(Run(s, es).db.revisions, key);
            && rec.signoff.Prepared? && log != []
            && (rec.status in {Valid, Expired, Revoked} ==>
                  rec.signoff.verifiedBy != "" && rec.signoff.verifiedBy != rec.signoff.preparedBy)
            && (log[0].action == CreateAction ==> rec.signoff.preparedBy == ActorOf(Newest(log, IsDraft)))
  {
    InitialSound(s);
    RunSound(s, es);
    RunSignedOff(s, es);
    assert ShapedAt(Run(s, es).db, key) && ProvenAt(Run(s, es).db, key);
  }

  // Frozen evidence.

  predicate DraftAt(s: State, key: Key) {
    key in s.db.rows && s.db.rows[key].record.status == Draft
  }

  /** The last moment of a run at which the record was a draft; the start if it never was. */
  function LastDraft(s: State, es: seq<Event>, key: Key): (k: nat)
    ensures k <= |es|
  {
    if es == [] || DraftAt(Run(s, es), key) then |es| else LastDraft(s, es[..|es| - 1], key)
  }

  lemma DecideFreezes(cmd: Command, cur: Record)
    requires Edits(cmd) && Decide(cmd, cur).Ok?
    ensures var item := Decide(cmd, cur).value;
            item.status != Draft ==>
              && item.fields == cur.fields
              && (cur.status == Draft ==> item.status == if cur.Kind() == Certificate then Valid else Review)
  {
  }

  lemma PassageFreezes(db: Db, op: Op, db': Db, key: Key)
    requires Passage(db, op, db', key) && ShapedAt(db, key)
    requires key in db'.rows && db'.rows[key].record.status != Draft
    ensures key in db.rows
    ensures var a, b := db.rows[key].record, db'.rows[key].record;
            && b.fields == a.fields
            && (a.status == Draft ==> b.status == if key.kind == Certificate then Valid else Review)
  {
    assert StoryOf(db', key).row == db'.rows[key];
    if op.Exec? && op.key == key {
      if Edits(op.cmd) {
        assert StoryOf(db, key).row == db.rows[key];
        DecideFreezes(op.cmd, db.rows[key].record);
      }
    } else {
      assert StoryOf(db, key).row == db.rows[key];
    }
  }

  /** One step freezes the fields of a record that is no draft, and takes a draft out of draft
      only by submitting or publishing it, with its fields unchanged. */
  lemma StepFreezes(s: State, e: Event, key: Key)
    requires Sound(s) && key in Step(s, e).db.rows && !DraftAt(Step(s, e), key)
    ensures key in s.db.rows
    ensures Step(s, e).db.rows[key].record.fields == s.db.rows[key].record.fields
    ensures DraftAt(s, key) ==>
              Step(s, e).db.rows[key].record.status == if key.kind == Certificate then Valid else Review
  {
    ProvenHasNoStray(s.db);
    StepPassage(s, e, key);
    assert ShapedAt(s.db, key);
    if OpsOf(s, e) != [] {
      PassageFreezes(s.db, OpsOf(s, e)[0], Step(s, e).db, key);
    }
  }

  /** After its last moment as a draft the record is a draft at no moment of the run. */
  lemma {:induction false} NoDraftAfterLast(s: State, es: seq<Event>, key: Key, j: nat)
    requires LastDraft(s, es, key) < j <= |es|
    ensures !DraftAt(Run(s, es[..j]), key)
  {
    if j == |es| {
      assert es[..j] == es;
    } else {
      NoDraftAfterLast(s, es[..|es| - 1], key, j);
      assert es[..|es| - 1][..j] == es[..j];
    }
  }

  /** The event after the first `k` takes the draft out of draft, and leaves `end` its fields. */
  predicate LeavesDraft(s: State, es: seq<Event>, key: Key, k: nat, end: Db)
    requires k < |es|
  {
    var draft, submitted := Run(s, es[..k]), Run(s, es[..k + 1]).db;
    && DraftAt(draft, key) && key in submitted.rows && key in end.rows
    && submitted.rows[key].record.status == (if key.kind == Certificate then Valid else Review)
    && end.rows[key].record.fields == draft.db.rows[key].record.fields
  }

  lemma LeavesDraftNow(s: State, es: seq<Event>, key: Key)
    requires es != [] && Sound(Run(s, es[..|es| - 1])) && DraftAt(Run(s, es[..|es| - 1]), key)
    requires key in Run(s, es).db.rows && !DraftAt(Run(s, es), key)
    ensures LeavesDraft(s, es, key, |es| - 1, Run(s, es).db)
  {
    StepFreezes(Run(s, es[..|es| - 1]), es[|es| - 1], key);
    assert es[..|es|] == es;
  }

  lemma LeavesDraftBefore(s: State, es: seq<Event>, key: Key, k: nat)
    requires k < |es| - 1 && LeavesDraft(s, es[..|es| - 1], key, k, Run(s, es[..|es| - 1]).db)
    requires Sound(Run(s, es[..|es| - 1])) && key in Run(s, es).db.rows && !DraftAt(Run(s, es), key)
    ensures LeavesDraft(s, es, key, k, Run(s, es).db)
  {
    StepFreezes(Run(s, es[..|es| - 1]), es[|es| - 1], key);
    assert es[..|es| - 1][..k] == es[..k] && es[..|es| - 1][..k + 1] == es[..k + 1];
  }

  /** Reviewed evidence is frozen: a record that is no draft has, in all its business fields,
      what it had as a draft at the submission (for an authorization) or the publication (for a
      certificate) that took it out of draft for the last time; or, if it was a draft at no
      moment of the run, what it had at the start. */
  lemma {:induction false} EvidenceFrozen(s: State, es: seq<Event>, key: Key)
    requires Sound(s) && Honest(s, es)
    requires key in Run(s, es).db.rows && !DraftAt(Run(s, es), key)
    ensures var k := LastDraft(s, es, key);
            if DraftAt(Run(s, es[..k]), key) then
              k < |es| && LeavesDraft(s, es, key, k, Run(s, es).db)
            else
              k == 0 && key in s.db.rows && Run(s, es).db.rows[key].record.fields == s.db.rows[key].record.fields
  {
    if es != [] {
      var init := es[..|es| - 1];
      RunSound(s, init);
      StepFreezes(Run(s, init), es[|es| - 1], key);
      var k := LastDraft(s, init, key);
      if DraftAt(Run(s, init), key) {
        LeavesDraftNow(s, es, key);
        assert LastDraft(s, es, key) == |init|;
      } else {
        EvidenceFrozen(s, init, key);
        assert init[..k] == es[..k] && LastDraft(s, es, key) == k;
        if DraftAt(Run(s, init[..k]), key) {
          LeavesDraftBefore(s, es, key, k);
        }
      }
    }
  }

  // The one-way lifecycle.

  /** Statuses from which no edge leads back to a draft or a review. */
  predicate Settled(kind: Kind, status: Status) {
    match kind
    case Certificate => status == Valid || status == Expired || status == Revoked
    case Authorization => status == Approved || status == Restricted || status == Revoked
  }

  /** How many transitions a settled record has left at most. */
  function Headroom(status: Status): nat {
    match status
    case Valid => 2
    case Expired => 1
    case Approved => 2
    case Restricted => 1
    case _ => 0
  }

  lemma DecideSettled(cmd: Command, cur: Record)
    requires Edits(cmd) && Decide(cmd, cur).Ok? && Settled(cur.Kind(), cur.status)
    ensures var item := Decide(cmd, cur).value;
            Settled(cur.Kind(), item.status) && Headroom(item.status) < Headroom(cur.status)
  {
  }

  lemma PassageSettled(db: Db, op: Op, db': Db, key: Key)
    requires Passage(db, op, db', key) && ShapedAt(db, key)
    requires key in db.rows && Settled(key.kind, db.rows[key].record.status)
    ensures key in db'.rows
    ensures var a, b := db.rows[key].record, db'.rows[key].record;
            Settled(key.kind, b.status) && b.version + Headroom(b.status) <= a.version + Headroom(a.status)
  {
    assert StoryOf(db', key).row == db'.rows[key] && StoryOf(db, key).row == db.rows[key];
    if op.Exec? && op.key == key {
      DecideFrame(op.cmd, db.rows[key].record);
      DecideSettled(op.cmd, db.rows[key].record);
    }
  }

  lemma StepSettled(s: State, e: Event, key: Key)
    requires Sound(s) && key in s.db.rows && Settled(key.kind, s.db.rows[key].record.status)
    ensures key in Step(s, e).db.rows
    ensures var a, b := s.db.rows[key].record, Step(s, e).db.rows[key].record;
            Settled(key.kind, b.status) && b.version + Headroom(b.status) <= a.version + Headroom(a.status)
  {
    ProvenHasNoStray(s.db);
    StepPassage(s, e, key);
    assert ShapedAt(s.db, key);
    if OpsOf(s, e) != [] {
      PassageSettled(s.db, OpsOf(s, e)[0], Step(s, e).db, key);
    }
  }

  /** Lifecycle: from the moment an authorization is approved or restricted, or a certificate
      valid, it never returns to draft or review, and its version grows by no more than the
      transitions its status has left: at most two. */
  lemma {:induction false} LifecycleOneWay(s: State, es: seq<Event>, key: Key)
    requires Sound(s) && Honest(s, es)
    requires key in s.db.rows && Settled(key.kind, s.db.rows[key].record.status)
    ensures key in Run(s, es).db.rows
    ensures var a, b := s.db.rows[key].record, Run(s, es).db.rows[key].record;
            && Settled(key.kind, b.status)
            && b.version + Headroom(b.status) <= a.version + Headroom(a.status)
            && b.version <= a.version + 2
  {
    if es != [] {
      LifecycleOneWay(s, es[..|es| - 1], key);
      RunSound(s, es[..|es| - 1]);
      StepSettled(Run(s, es[..|es| - 1]), es[|es| - 1], key);
    }
  }
}

/** What the revision log and the audit trail of a record prove about it, in every state that
    interleaved requests of honest clients can reach. */
module Evidence {
  import opened Records
  import opened Transactions
  import opened Services
  import opened Statuses
  import opened Protocol
  import opened Invariants
  import opened Refinement
  import opened Histories

  // Reading sign-offs back from the log.

  datatype Option<+T> = None | Some(value: T)

  /** The newest revision with a property. */
  function Newest(log: seq<Revision>, p: Revision -> bool): Option<Revision> {
    if log == [] then None
    else if p(log[|log| - 1]) then Some(log[|log| - 1])
    else Newest(log[..|log| - 1], p)
  }

  predicate IsDraft(r: Revision) { r.status == Draft }
  predicate IsVerification(r: Revision) { r.status == Valid || r.status == Revoked }
  predicate IsSubmission(r: Revision) { r.status == Review }
  predicate IsTransition(r: Revision) { r.action == TransitionAction }

  function ActorOf(r: Option<Revision>): string {
    if r.Some? then r.value.actor else ""
  }

  /** The sign-off fields, read from the log alone. A certificate was prepared by the actor of
      its newest draft revision and verified by the actor of its newest verification. An
      authorization was submitted by the actor of its newest submission; its reviewer and
      reason are those of its newest transition, or empty if that is a submission. */
  function SignoffFrom(kind: Kind, log: seq<Revision>): Signoff {
    match kind
    case Certificate => Prepared(ActorOf(Newest(log, IsDraft)), ActorOf(Newest(log, IsVerification)))
    case Authorization =>
      var decision := Newest(log, IsTransition);
      if decision.None? || decision.value.status == Review then Dual(ActorOf(Newest(log, IsSubmission)), "", "")
      else Dual(ActorOf(Newest(log, IsSubmission)), decision.value.actor, decision.value.reason)
  }

  lemma NewestAppend(log: seq<Revision>, r: Revision, p: Revision -> bool)
    ensures Newest(log + [r], p) == if p(r) then Some(r) else Newest(log, p)
  {
    assert (log + [r])[..|log|] == log;
  }

  /** Revision `k` has the property, and no later one does. */
  predicate NewestAt(log: seq<Revision>, p: Revision -> bool, k: int) {
    0 <= k < |log| && p(log[k]) && forall j :: k < j < |log| ==> !p(log[j])
  }

  lemma {:induction false} NewestMeaning(log: seq<Revision>, p: Revision -> bool)
    ensures match Newest(log, p)
            case None => forall j :: 0 <= j < |log| ==> !p(log[j])
            case Some(r) => exists k :: NewestAt(log, p, k) && log[k] == r
  {
    if log == [] {
    } else if p(log[|log| - 1]) {
      assert NewestAt(log, p, |log| - 1);
    } else {
      var rest := log[..|log| - 1];
      NewestMeaning(rest, p);
      match Newest(rest, p) {
        case None =>
        case Some(r) =>
          var k :| NewestAt(rest, p, k) && rest[k] == r;
          assert NewestAt(log, p, k) && log[k] == r;
      }
    }
  }

  /** The actor is that of the newest revision with the property, or empty if there is none. */
  ghost predicate ToldActor(log: seq<Revision>, p: Revision -> bool, actor: string) {
    || (exists k :: NewestAt(log, p, k) && log[k].actor == actor)
    || (actor == "" && forall j :: 0 <= j < |log| ==> !p(log[j]))
  }

  /** The reviewer and the reason are those of the newest transition, or empty if that is a
      submission or there is none. */
  ghost predicate ToldDecision(log: seq<Revision>, reviewedBy: string, reason: string) {
    || (exists k :: NewestAt(log, IsTransition, k)
          && (if IsSubmission(log[k]) then reviewedBy == "" && reason == ""
              else reviewedBy == log[k].actor && reason == log[k].reason))
    || (reviewedBy == "" && reason == "" && forall j :: 0 <= j < |log| ==> !IsTransition(log[j]))
  }

  /** The sign-offs, said of the log itself. */
  ghost predicate ToldByLog(log: seq<Revision>, signoff: Signoff) {
    match signoff
    case Prepared(preparedBy, verifiedBy) =>
      ToldActor(log, IsDraft, preparedBy) && ToldActor(log, IsVerification, verifiedBy)
    case Dual(submittedBy, reviewedBy, reviewReason) =>
      ToldActor(log, IsSubmission, submittedBy) && ToldDecision(log, reviewedBy, reviewReason)
  }

  lemma SignoffMeaning(kind: Kind, log: seq<Revision>)
    ensures ToldByLog(log, SignoffFrom(kind, log))
  {
    hide Newest, NewestAt;
    NewestMeaning(log, IsDraft);
    NewestMeaning(log, IsVerification);
    NewestMeaning(log, IsSubmission);
    NewestMeaning(log, IsTransition);
  }

  // The invariant of one story.

  /** A later revision is a draft-to-draft update or follows an edge of the graph. */
  predicate Follows(kind: Kind, a: Revision, b: Revision) {
    || (b.action == UpdateAction && a.status == Draft && b.status == Draft)
    || (b.action == TransitionAction && CanTransition(GraphOf(kind), a.status, b.status))
  }

  predicate Linked(kind: Kind, log: seq<Revision>) {
    forall i :: 0 < i < |log| ==> Follows(kind, log[i - 1], log[i])
  }

  /** A seed row has one revision and no audit: its trail starts at its second revision. */
  function Unaudited(log: seq<Revision>): nat {
    if log != [] && log[0].action == CreateAction then 0 else 1
  }

  predicate AuditMatches(audit: Audit, r: Revision) {
    && audit.action == r.action
    && audit.actor == (if r.actor == "" then "system" else r.actor)
    && audit.requestId == (if r.requestId == "" then "untracked" else r.requestId)
    && audit.key == r.key
    && audit.after == In(r.status)
    && audit.detail == (if r.action == CreateAction then CreateDetail(r.key.kind) else r.reason)
  }

  /** The audit row of one revision, given the revision before it, if there is one. */
  predicate Link(audit: Audit, log: seq<Revision>, at: nat)
    requires at < |log|
  {
    && AuditMatches(audit, log[at])
    && audit.before == if at == 0 then Blank else In(log[at - 1].status)
  }

  /** Audits and revisions correspond one to one, in order, and every audit starts from the
      state the revision before it ended in. */
  predicate Chained(log: seq<Revision>, trail: seq<Audit>) {
    && |trail| + Unaudited(log) == |log|
    && (forall i {:trigger trail[i]} :: 0 <= i < |trail| ==> Link(trail[i], log, i + Unaudited(log)))
  }

  /** A draft certificate has never been anything else. */
  predicate NeverLeftDraft(log: seq<Revision>) {
    forall i :: 0 <= i < |log| ==> log[i].status == Draft
  }

  predicate Proven(key: Key, st: Story) {
    && st.log != []
    && Linked(key.kind, st.log)
    && Chained(st.log, st.trail)
    && (key.kind == Certificate && st.rec().status == Draft ==> NeverLeftDraft(st.log))
    && (st.log[0].action == CreateAction ==> st.rec().signoff == SignoffFrom(key.kind, st.log))
  }

  ghost predicate ProvenAt(db: Db, key: Key) {
    if key in db.rows then Proven(key, StoryOf(db, key)) else TrailOf(db.audits, key) == []
  }

  ghost predicate AllProven(db: Db) {
    forall key :: ProvenAt(db, key)
  }

  // The invariant is kept.

  lemma BornProven(key: Key, b: Story, cmd: Command)
    requires Born(key, b, cmd)
    ensures Proven(key, b)
  {
    SignoffAppend(key.kind, [], b.log[0]);
    assert [] + [b.log[0]] == b.log;
  }

  /** The statuses of a decision, by action. */
  lemma CertificateNeverBack(cmd: Command, cur: Record)
    requires Edits(cmd) && Decide(cmd, cur).Ok? && cur.signoff.Prepared? && Decide(cmd, cur).value.status == Draft
    ensures cur.status == Draft && cmd.Update?
  {
  }

  lemma DecideMoves(cmd: Command, cur: Record)
    requires Edits(cmd) && Decide(cmd, cur).Ok?
    ensures if cmd.Update? then cur.status == Draft && Decide(cmd, cur).value.status == Draft
            else CanTransition(GraphOf(cur.Kind()), cur.status, Decide(cmd, cur).value.status)
  {
  }

  lemma DecideFollows(key: Key, a: Story, b: Story, cmd: Command)
    requires Edited(key, a, b, cmd) && ShapedRecord(key, a.rec(), a.log)
    ensures Follows(key.kind, a.log[|a.log| - 1], b.log[|a.log|])
    ensures b.rec().status == Draft && key.kind == Certificate ==> a.rec().status == Draft && cmd.Update?
  {
    hide Decide, CanTransition, GraphOf, NewAudit;
    DecideMoves(cmd, a.rec());
    if b.rec().status == Draft && key.kind == Certificate {
      CertificateNeverBack(cmd, a.rec());
    }
  }

  lemma EditedLinked(key: Key, a: Story, b: Story, cmd: Command)
    requires Edited(key, a, b, cmd) && ShapedRecord(key, a.rec(), a.log) && Linked(key.kind, a.log)
    ensures Linked(key.kind, b.log)
  {
    DecideFollows(key, a, b, cmd);
  }

  lemma ChainedAppend(log: seq<Revision>, trail: seq<Audit>, r: Revision, audit: Audit)
    requires log != [] && Chained(log, trail)
    requires AuditMatches(audit, r) && audit.before == In(log[|log| - 1].status)
    ensures Chained(log + [r], trail + [audit])
  {
    var log', trail' := log + [r], trail + [audit];
    assert log'[0] == log[0];
    assert Link(audit, log', |log|);
    forall i | 0 <= i < |trail'| ensures Link(trail'[i], log', i + Unaudited(log')) {
      if i < |trail| {
        assert trail'[i] == trail[i] && Link(trail[i], log, i + Unaudited(log));
      }
    }
  }

  lemma EditedChained(key: Key, a: Story, b: Story, cmd: Command)
    requires Edited(key, a, b, cmd) && ShapedRecord(key, a.rec(), a.log) && Chained(a.log, a.trail)
    ensures Chained(b.log, b.trail)
  {
    var item := Decide(cmd, a.rec()).value;
    ChainedAppend(a.log, a.trail,
                  NewRevision(key, item, cmd.who, ActionOf(cmd), ReasonOf(cmd)),
                  NewAudit(cmd.who, ActionOf(cmd), key, In(a.rec().status), In(item.status), ReasonOf(cmd)));
  }

  lemma {:induction false} NoVerificationInDrafts(log: seq<Revision>)
    requires NeverLeftDraft(log)
    ensures Newest(log, IsVerification) == None
  {
    if log != [] {
      NoVerificationInDrafts(log[..|log| - 1]);
    }
  }

  /** What one more revision changes in the sign-offs read from a log. */
  function SignoffNext(kind: Kind, signoff: Signoff, r: Revision): Signoff
    requires signoff.Prepared? <==> kind == Certificate
  {
    match signoff
    case Prepared(preparedBy, verifiedBy) =>
      Prepared(if IsDraft(r) then r.actor else preparedBy, if IsVerification(r) then r.actor else verifiedBy)
    case Dual(submittedBy, reviewedBy, reviewReason) =>
      if !IsTransition(r) then Dual(if IsSubmission(r) then r.actor else submittedBy, reviewedBy, reviewReason)
      else if IsSubmission(r) then Dual(r.actor, "", "")
      else Dual(submittedBy, r.actor, r.reason)
  }

  lemma SignoffAppend(kind: Kind, log: seq<Revision>, r: Revision)
    ensures SignoffFrom(kind, log + [r]) == SignoffNext(kind, SignoffFrom(kind, log), r)
  {
    NewestAppend(log, r, IsDraft);
    NewestAppend(log, r, IsVerification);
    NewestAppend(log, r, IsSubmission);
    NewestAppend(log, r, IsTransition);
  }

  /** A decision changes the sign-offs as its own revision tells. */
  lemma DecideSigns(key: Key, cmd: Command, cur: Record)
    requires Edits(cmd) && Decide(cmd, cur).Ok? && cur.Kind() == key.kind
    requires cur.signoff.Prepared? && cur.status == Draft ==> cur.signoff.verifiedBy == ""
    ensures var item := Decide(cmd, cur).value;
            item.signoff == SignoffNext(key.kind, cur.signoff,
                                        NewRevision(key, item, cmd.who, ActionOf(cmd), ReasonOf(cmd)))
  {
  }

  lemma EditedSignoff(key: Key, a: Story, b: Story, cmd: Command)
    requires Edited(key, a, b, cmd) && a.rec().Kind() == key.kind
    requires a.rec().signoff == SignoffFrom(key.kind, a.log)
    requires key.kind == Certificate && a.rec().status == Draft ==> NeverLeftDraft(a.log)
    ensures b.rec().signoff == SignoffFrom(key.kind, b.log)
  {
    if key.kind == Certificate && a.rec().status == Draft {
      NoVerificationInDrafts(a.log);
    }
    DecideSigns(key, cmd, a.rec());
    SignoffAppend(key.kind, a.log,
                  NewRevision(key, Decide(cmd, a.rec()).value, cmd.who, ActionOf(cmd), ReasonOf(cmd)));
  }

  lemma EditedProven(key: Key, a: Story, b: Story, cmd: Command)
    requires Edited(key, a, b, cmd) && ShapedRecord(key, a.rec(), a.log) && Proven(key, a)
    ensures Proven(key, b)
  {
    EditedLinked(key, a, b, cmd);
    EditedChained(key, a, b, cmd);
    DecideFollows(key, a, b, cmd);
    assert b.log[0] == a.log[0];
    if a.log[0].action == CreateAction {
      EditedSignoff(key, a, b, cmd);
    }
  }

  lemma PassageProven(db: Db, op: Op, db': Db, key: Key)
    requires Shaped(db) && ProvenAt(db, key) && Passage(db, op, db', key)
    ensures ProvenAt(db', key)
  {
    assert ShapedAt(db, key);
    if op.Exec? && op.key == key {
      if op.cmd.Create? {
        BornProven(key, StoryOf(db', key), op.cmd);
      } else {
        EditedProven(key, StoryOf(db, key), StoryOf(db', key), op.cmd);
      }
    }
  }

  lemma ProvenHasNoStray(db: Db)
    requires AllProven(db)
    ensures NoStrayAudits(db)
  {
    forall key | key !in db.rows ensures TrailOf(db.audits, key) == [] {
      assert ProvenAt(db, key);
    }
  }

  lemma StepProven(s: State, e: Event)
    requires Inv(s) && AllKnown(s) && AllProven(s.db)
    ensures AllProven(Step(s, e).db)
  {
    ProvenHasNoStray(s.db);
    forall key ensures ProvenAt(Step(s, e).db, key) {
      StepPassage(s, e, key);
      assert ProvenAt(s.db, key);
      if OpsOf(s, e) != [] {
        PassageProven(s.db, OpsOf(s, e)[0], Step(s, e).db, key);
      }
    }
  }

  // Initial states and runs.

  /** A row as the demonstration data inserts it. */
  predicate Seeded(db: Db, key: Key) {
    && key in db.rows ==>
         && !db.rows[key].deleted
         && |LogOf(db.revisions, key)| == 1
         && LogOf(db.revisions, key)[0].action == SeedAction
  }

  /** The program starts with no request under way, with every row as a seed and without any
      audit row. Both an empty store and the demonstration data qualify. */
  ghost predicate Initial(s: State) {
    && s.requests == map[]
    && s.db.audits == []
    && Shaped(s.db)
    && forall key :: Seeded(s.db, key)
  }

  /** A state that honest clients can have led to. */
  ghost predicate Sound(s: State) {
    Inv(s) && AllKnown(s) && AllProven(s.db)
  }

  lemma InitialSound(s: State)
    requires Initial(s)
    ensures Sound(s)
  {
    forall key ensures ProvenAt(s.db, key) {
      assert Seeded(s.db, key) && ShapedAt(s.db, key);
    }
  }

  lemma {:induction false} RunSound(s: State, es: seq<Event>)
    requires Sound(s) && Honest(s, es)
    ensures Sound(Run(s, es))
  {
    RunKnown(s, es);
    if es != [] {
      var init := es[..|es| - 1];
      RunSound(s, init);
      StepProven(Run(s, init), es[|es| - 1]);
    }
  }

  lemma ReachableSound(s: State, es: seq<Event>)
    requires Initial(s) && Honest(s, es)
    ensures Sound(Run(s, es))
  {
    InitialSound(s);
    RunSound(s, es);
  }

  /** Replay: every column of a created record that a rule reads is told by its revision log
      alone, in every reachable state, whatever order the requests ran in. */
  lemma RecordToldByLog(s: State, es: seq<Event>, key: Key)
    requires Initial(s) && Honest(s, es)
    requires key in Run(s, es).db.rows && LogOf(Run(s, es).db.revisions, key) != []
    requires LogOf(Run(s, es).db.revisions, key)[0].action == CreateAction
    ensures var rec, log := Run(s, es).db.rows[key].record, LogOf(Run(s, es).db.revisions, key);
            var last := log[|log| - 1];
            && rec.version == |log| == last.version
            && rec.status == last.status
            && rec.fields.evidence == last.evidence
            && rec.signoff == SignoffFrom(key.kind, log)
            && ToldByLog(log, rec.signoff)
  {
    SignoffMeaning(key.kind, LogOf(Run(s, es).db.revisions, key));
    ReachableSound(s, es);
    assert ProvenAt(Run(s, es).db, key) && ShapedAt(Run(s, es).db, key);
  }

  /** Revision statuses: consecutive revisions of a record are an edge of its graph taken by a
      transition, or two drafts joined by an update. */
  lemma LogFollowsGraph(s: State, es: seq<Event>, key: Key, i: nat)
    requires Initial(s) && Honest(s, es)
    requires 0 < i < |LogOf(Run(s, es).db.revisions, key)|
    ensures var log := LogOf(Run(s, es).db.revisions, key); Follows(key.kind, log[i - 1], log[i])
  {
    ReachableSound(s, es);
    assert ProvenAt(Run(s, es).db, key) && ShapedAt(Run(s, es).db, key);
  }

  /** Audit chain of a created record: one audit per revision, in order, with the same action,
      status and (normalised) attribution, the first from nothing and each later one from
      where the one before it ended - although the before-state comes from an earlier read. */
  lemma AuditChain(s: State, es: seq<Event>, key: Key)
    requires Initial(s) && Honest(s, es) && key in Run(s, es).db.rows
    ensures LogOf(Run(s, es).db.revisions, key) != []
    ensures var log, trail := LogOf(Run(s, es).db.revisions, key), TrailOf(Run(s, es).db.audits, key);
            log[0].action == CreateAction ==>
              && |trail| == |log|
              && (forall i :: 0 <= i < |trail| ==> AuditMatches(trail[i], log[i]))
              && trail[0].before == Blank
              && (forall i :: 0 < i < |trail| ==> trail[i].before == trail[i - 1].after)
  {
    ReachableSound(s, es);
    assert ProvenAt(Run(s, es).db, key) && ShapedAt(Run(s, es).db, key);
    var log, trail := LogOf(Run(s, es).db.revisions, key), TrailOf(Run(s, es).db.audits, key);
    if log[0].action == CreateAction {
      assert Link(trail[0], log, 0);
      forall i | 0 <= i < |trail| ensures AuditMatches(trail[i], log[i]) {
        assert Link(trail[i], log, i);
      }
      forall i | 0 < i < |trail| ensures trail[i].before == trail[i - 1].after {
        assert Link(trail[i], log, i) && Link(trail[i - 1], log, i - 1);
      }
    }
  }
}

/** Aircraft parts and inspection tasks: the same version guard without a revision log, and an
    audit row that is written after the commit by a statement of its own, which may fail. */
module PlainRecords {
  import opened Records
  import opened Statuses
  import opened Access
  import opened Services

  datatype PlainKind = Part | Inspection

  function PlainGraph(kind: PlainKind): Graph {
    match kind
    case Part => AIRCRAFT_PART_TRANSITIONS
    case Inspection => INSPECTION_TASK_TRANSITIONS
  }

  function InitialStatus(kind: PlainKind): Status {
    match kind
    case Part => Received
    case Inspection => Planned
  }

  datatype PlainRecord = PlainRecord(code: string, fields: Fields, status: Status, version: nat)

  datatype PlainRow = PlainRow(record: PlainRecord, deleted: bool)

  datatype PlainCommand =
    | Add(code: string, fields: Fields, who: Caller)
    | Edit(id: nat, expected: nat, fields: Fields, who: Caller)
    | Move(id: nat, expected: nat, target: Status, reason: string, who: Caller)
    | Drop(id: nat, who: Caller)

  /** An audit row, with the number of the request that wrote it. */
  datatype Entry = Entry(origin: nat, actor: string, requestId: string, action: Action, id: nat,
                         before: AuditState, after: AuditState, detail: string)

  datatype Fate = NotDue | Pending | Stored | Lost

  datatype PlainReply = Item(record: PlainRecord) | Empty

  datatype PlainPhase =
    | Read(cmd: PlainCommand, item: PlainRecord)                              // Get done
    | Ready(cmd: PlainCommand, before: PlainRecord, item: PlainRecord)        // commit pending
    | Committed(cmd: PlainCommand, id: nat, item: PlainRecord, entry: Entry)  // audit pending
    | Returning(cmd: PlainCommand, id: nat, fate: Fate)                       // final Get pending
    | Ended(cmd: PlainCommand, outcome: Result<PlainReply>, fate: Fate)

  datatype Tables = Tables(rows: map<nat, PlainRow>, nextId: nat, audits: seq<Entry>)

  datatype World = World(kind: PlainKind, tables: Tables, requests: map<nat, PlainPhase>)

  datatype Occurrence = Arrive(r: nat, cmd: PlainCommand) | Proceed(r: nat) | AuditFails(r: nat) | Break(r: nat)

  predicate LiveRow(t: Tables, id: nat) {
    id in t.rows && !t.rows[id].deleted
  }

  predicate Guarded(cmd: PlainCommand) {
    match cmd
    case Drop(_, who) => who.role in {Admin}
    case _ => RequireMinimumRole(Operator, cmd.who.role)
  }

  /** The local decision on the record that was read; only a drop prepares no record. */
  function Prepare(kind: PlainKind, cmd: PlainCommand, cur: PlainRecord): Result<PlainRecord> {
    match cmd
    case Edit(_, expected, fields, _) =>
      if !ValidBusinessFields(cur.code, fields) then Err(InvalidInput)
      else Ok(PlainRecord(cur.code, fields, cur.status, expected + 1))
    case Move(_, expected, target, _, _) =>
      if !CanTransition(PlainGraph(kind), cur.status, target) then Err(InvalidTransition)
      else Ok(cur.(status := target, version := expected + 1))
    case _ => Ok(cur)
  }

  function Arrival(kind: PlainKind, t: Tables, cmd: PlainCommand): PlainPhase {
    if !Guarded(cmd) then Ended(cmd, Err(Forbidden), NotDue)
    else if cmd.Add? then
      if !ValidBusinessFields(cmd.code, cmd.fields) then Ended(cmd, Err(InvalidInput), NotDue)
      else
        var item := PlainRecord(cmd.code, cmd.fields, InitialStatus(kind), 1);
        Ready(cmd, item, item)
    else if LiveRow(t, cmd.id) then Read(cmd, t.rows[cmd.id].record)
    else Ended(cmd, Err(NotFound), NotDue)
  }

  predicate CodeUsed(t: Tables, code: string) {
    exists id :: id in t.rows && t.rows[id].record.code == code
  }

  /** The committing statement of a request that is ready: the new rows, or a refusal. */
  function CommitPlain(t: Tables, cmd: PlainCommand, item: PlainRecord): Result<Tables> {
    match cmd
    case Add(_, _, _) =>
      if CodeUsed(t, item.code) then Err(DuplicateCode)
      else Ok(t.(rows := t.rows[t.nextId := PlainRow(item, false)], nextId := t.nextId + 1))
    case Drop(id, _) =>
      if !LiveRow(t, id) then Err(NotFound)
      else Ok(t.(rows := t.rows[id := PlainRow(t.rows[id].record, true)]))
    case _ =>
      if !LiveRow(t, cmd.id) || t.rows[cmd.id].record.version != cmd.expected then Err(Conflict)
      else Ok(t.(rows := t.rows[cmd.id := PlainRow(item.(code := t.rows[cmd.id].record.code), false)]))
  }

  function EntityText(kind: PlainKind): string {
    match kind
    case Part => "航空部件"
    case Inspection => "检查任务"
  }

  /** The audit row that is due after a commit. */
  function DueEntry(kind: PlainKind, r: nat, cmd: PlainCommand, id: nat, before: PlainRecord,
                    item: PlainRecord): Entry
  {
    var actor := if cmd.who.actor == "" then "system" else cmd.who.actor;
    var requestId := if cmd.who.requestId == "" then "untracked" else cmd.who.requestId;
    match cmd
    case Add(_, _, _) =>
      Entry(r, actor, requestId, CreateAction, id, Blank, In(item.status), "created " + EntityText(kind))
    case Edit(_, _, _, _) =>
      Entry(r, actor, requestId, UpdateAction, id, In(item.status), In(item.status), "updated business fields")
    case Move(_, _, target, reason, _) =>
      Entry(r, actor, requestId, TransitionAction, id, In(before.status), In(target), reason)
    case Drop(_, _) =>
      Entry(r, actor, requestId, DeleteAction, id, In(before.status), Gone, "soft deleted " + EntityText(kind))
  }

  /** What follows the audit statement. A create ignores its outcome, and so does an update on
      its way to the final Get; a transition and a delete report a failure. */
  function AfterAudit(cmd: PlainCommand, id: nat, item: PlainRecord, fate: Fate): PlainPhase {
    match cmd
    case Add(_, _, _) => Ended(cmd, Ok(Item(item)), fate)
    case Edit(_, _, _, _) => Returning(cmd, id, fate)
    case Move(_, _, _, _, _) => if fate == Stored then Returning(cmd, id, fate) else Ended(cmd, Err(Unavailable), fate)
    case Drop(_, _) => Ended(cmd, if fate == Stored then Ok(Empty) else Err(Unavailable), fate)
  }

  /** The next query, decision or statement of a request: the new tables and phase. */
  function Continue(kind: PlainKind, t: Tables, r: nat, phase: PlainPhase): (Tables, PlainPhase) {
    match phase
    case Read(cmd, item) => (t,
      match Prepare(kind, cmd, item)
      case Ok(prepared) => Ready(cmd, item, prepared)
      case Err(error) => Ended(cmd, Err(error), NotDue))
    case Ready(cmd, before, item) => (
      var id := if cmd.Add? then t.nextId else cmd.id;
      match CommitPlain(t, cmd, item)
      case Ok(after) => (after, Committed(cmd, id, item, DueEntry(kind, r, cmd, id, before, item)))
      case Err(error) => (t, Ended(cmd, Err(error), NotDue)))
    case Committed(cmd, id, item, entry) => (t.(audits := t.audits + [entry]), AfterAudit(cmd, id, item, Stored))
    case Returning(cmd, id, fate) =>
      (t, Ended(cmd, if LiveRow(t, id) then Ok(Item(t.rows[id].record)) else Err(NotFound), fate))
    case Ended(_, _, _) => (t, phase)
  }

  /** An infrastructure failure; after a commit it loses an audit that is still due. */
  function Broken(phase: PlainPhase): PlainPhase {
    match phase
    case Ended(_, _, _) => phase
    case Returning(cmd, _, fate) => Ended(cmd, Err(Unavailable), fate)
    case Committed(cmd, _, _, _) => Ended(cmd, Err(Unavailable), Lost)
    case _ => Ended(phase.cmd, Err(Unavailable), NotDue)
  }

  function AuditLost(phase: PlainPhase): PlainPhase {
    if phase.Committed? then AfterAudit(phase.cmd, phase.id, phase.item, Lost) else phase
  }

  function Respond(w: World, m: Occurrence): (Tables, PlainPhase)
    requires if m.Arrive? then m.r !in w.requests else m.r in w.requests
  {
    match m
    case Arrive(_, cmd) => (w.tables, Arrival(w.kind, w.tables, cmd))
    case Proceed(r) => Continue(w.kind, w.tables, r, w.requests[r])
    case AuditFails(r) => (w.tables, AuditLost(w.requests[r]))
    case Break(r) => (w.tables, Broken(w.requests[r]))
  }

  /** An occurrence that does not fit its request changes nothing. */
  predicate Fits(w: World, m: Occurrence) {
    if m.Arrive? then m.r !in w.requests else m.r in w.requests
  }

  function Act(w: World, m: Occurrence): World {
    if Fits(w, m) then
      var next := Respond(w, m);
      World(w.kind, next.0, w.requests[m.r := next.1])
    else w
  }

  function Acts(w: World, ms: seq<Occurrence>): World {
    if ms == [] then w else Act(Acts(w, ms[..|ms| - 1]), ms[|ms| - 1])
  }

  // Audit accounting.

  function FateOf(phase: PlainPhase): Fate {
    match phase
    case Committed(_, _, _, _) => Pending
    case Returning(_, _, fate) => fate
    case Ended(_, _, fate) => fate
    case _ => NotDue
  }

  /** Transitions under way or ended whose audit has this fate. */
  function Transitions(w: World, fate: Fate): set<nat> {
    set r | r in w.requests && w.requests[r].cmd.Move? && FateOf(w.requests[r]) == fate
  }

  /** Whether an occurrence commits a transition. */
  predicate CommitsTransition(w: World, m: Occurrence) {
    && m.Proceed? && m.r in w.requests && w.requests[m.r].Ready? && w.requests[m.r].cmd.Move?
    && CommitPlain(w.tables, w.requests[m.r].cmd, w.requests[m.r].item).Ok?
  }

  function CommittedTransitions(w: World, ms: seq<Occurrence>): nat {
    if ms == [] then 0
    else
      CommittedTransitions(w, ms[..|ms| - 1])
      + (if CommitsTransition(Acts(w, ms[..|ms| - 1]), ms[|ms| - 1]) then 1 else 0)
  }

  function TransitionAudits(audits: seq<Entry>): nat {
    if audits == [] then 0
    else TransitionAudits(audits[..|audits| - 1]) + (if audits[|audits| - 1].action == TransitionAction then 1 else 0)
  }

  /** Audit rows that one request wrote. */
  function AuditsBy(audits: seq<Entry>, r: nat): nat {
    if audits == [] then 0
    else AuditsBy(audits[..|audits| - 1], r) + (if audits[|audits| - 1].origin == r then 1 else 0)
  }

  lemma AuditAppended(audits: seq<Entry>, entry: Entry, r: nat)
    ensures AuditsBy(audits + [entry], r) == AuditsBy(audits, r) + (if entry.origin == r then 1 else 0)
    ensures TransitionAudits(audits + [entry])
         == TransitionAudits(audits) + (if entry.action == TransitionAction then 1 else 0)
  {
    assert (audits + [entry])[..|audits|] == audits;
  }

  /** The audit row says who did what to which record, from which state to which. */
  predicate Describes(kind: PlainKind, cmd: PlainCommand, entry: Entry) {
    && entry.actor == (if cmd.who.actor == "" then "system" else cmd.who.actor)
    && entry.requestId == (if cmd.who.requestId == "" then "untracked" else cmd.who.requestId)
    && match cmd
       case Add(_, _, _) =>
         entry.action == CreateAction && entry.before == Blank && entry.after == In(InitialStatus(kind))
       case Edit(id, _, _, _) =>
         entry.action == UpdateAction && entry.id == id && entry.before.In? && entry.after == entry.before
       case Move(id, _, target, reason, _) =>
         && entry.action == TransitionAction && entry.id == id && entry.after == In(target) && entry.detail == reason
         && entry.before.In? && CanTransition(PlainGraph(kind), entry.before.status, target)
       case Drop(id, _) => entry.action == DeleteAction && entry.id == id && entry.before.In? && entry.after == Gone
  }

  predicate PhaseTracked(kind: PlainKind, r: nat, phase: PlainPhase) {
    && (phase.Read? ==> !phase.cmd.Add?)
    && (phase.Ready? ==>
          if phase.cmd.Add? then phase.item.status == InitialStatus(kind)
          else Prepare(kind, phase.cmd, phase.before) == Ok(phase.item))
    && (phase.Committed? ==> phase.entry.origin == r && Describes(kind, phase.cmd, phase.entry))
    && (phase.Returning? ==> phase.fate == Stored || (phase.fate == Lost && phase.cmd.Edit?))
    && (phase.Ended? ==> phase.fate != Pending)
    && (phase.Ended? && phase.outcome.Ok? && (phase.cmd.Move? || phase.cmd.Drop?) ==> phase.fate == Stored)
  }

  /** An audit row is the one its own request had to write. */
  predicate OwnEntry(w: World, entry: Entry) {
    entry.origin in w.requests && Describes(w.kind, w.requests[entry.origin].cmd, entry)
  }

  /** Each request has written one audit row if its audit is stored, and none otherwise. */
  ghost predicate Tracked(w: World) {
    && (forall r :: r in w.requests ==> PhaseTracked(w.kind, r, w.requests[r]))
    && (forall entry :: entry in w.tables.audits ==> OwnEntry(w, entry))
    && (forall r :: AuditsBy(w.tables.audits, r) == if r in w.requests && FateOf(w.requests[r]) == Stored then 1 else 0)
  }

  lemma CommitKeepsAudits(t: Tables, cmd: PlainCommand, item: PlainRecord)
    requires CommitPlain(t, cmd, item).Ok?
    ensures CommitPlain(t, cmd, item).value.audits == t.audits
  {
  }

  lemma ArrivalFate(kind: PlainKind, t: Tables, cmd: PlainCommand)
    ensures Arrival(kind, t, cmd).cmd == cmd && FateOf(Arrival(kind, t, cmd)) == NotDue
    ensures Arrival(kind, t, cmd).Read? ==> !cmd.Add?
    ensures !Arrival(kind, t, cmd).Committed? && !Arrival(kind, t, cmd).Returning?
    ensures Arrival(kind, t, cmd).Ended? ==> Arrival(kind, t, cmd).outcome.Err?
    ensures Arrival(kind, t, cmd).Ready? ==> cmd.Add? && Arrival(kind, t, cmd).item.status == InitialStatus(kind)
  {
  }

  lemma DueDescribes(kind: PlainKind, r: nat, cmd: PlainCommand, id: nat, before: PlainRecord, item: PlainRecord)
    requires PhaseTracked(kind, r, Ready(cmd, before, item)) && (!cmd.Add? ==> id == cmd.id)
    ensures DueEntry(kind, r, cmd, id, before, item).origin == r
    ensures Describes(kind, cmd, DueEntry(kind, r, cmd, id, before, item))
  {
  }

  /** Only an audit statement writes audit rows, and the row due after a commit is its own. */
  lemma RespondKeeps(w: World, m: Occurrence)
    requires Fits(w, m)
    requires m.r in w.requests ==> PhaseTracked(w.kind, m.r, w.requests[m.r])
    ensures m.Arrive? ==>
              Respond(w, m).1.cmd == m.cmd && FateOf(Respond(w, m).1) == NotDue
              && PhaseTracked(w.kind, m.r, Respond(w, m).1)
    ensures m.Proceed? && w.requests[m.r].Ready? ==>
              Respond(w, m).0.audits == w.tables.audits && PhaseTracked(w.kind, m.r, Respond(w, m).1)
  {
    hide CommitPlain, Arrival, Prepare, DueEntry, Describes;
    if m.Arrive? {
      ArrivalFate(w.kind, w.tables, m.cmd);
    } else if m.Proceed? && w.requests[m.r].Ready? {
      var phase := w.requests[m.r];
      var id := if phase.cmd.Add? then w.tables.nextId else phase.cmd.id;
      DueDescribes(w.kind, m.r, phase.cmd, id, phase.before, phase.item);
      if CommitPlain(w.tables, phase.cmd, phase.item).Ok? {
        CommitKeepsAudits(w.tables, phase.cmd, phase.item);
      }
    }
  }

  /** A request's audit turns from due to stored with the one audit row that says so. */
  predicate Recorded(w: World, mr: nat, t: Tables, phase: PlainPhase, r: nat) {
    var newly := FateOf(phase) == Stored && (mr in w.requests ==> FateOf(w.requests[mr]) != Stored);
    && PhaseTracked(w.kind, mr, phase)
    && (mr in w.requests ==> phase.cmd == w.requests[mr].cmd)
    && (mr in w.requests && FateOf(w.requests[mr]) == Stored ==> FateOf(phase) == Stored)
    && (t.audits == w.tables.audits
        || (mr in w.requests && w.requests[mr].Committed? && t.audits == w.tables.audits + [w.requests[mr].entry]))
    && AuditsBy(t.audits, r) == AuditsBy(w.tables.audits, r) + (if r == mr && newly then 1 else 0)
    && TransitionAudits(t.audits) == TransitionAudits(w.tables.audits) + (if phase.cmd.Move? && newly then 1 else 0)
  }

  lemma ProceedRecorded(w: World, m: Occurrence, r: nat)
    requires Fits(w, m) && m.Proceed? && PhaseTracked(w.kind, m.r, w.requests[m.r])
    ensures Recorded(w, m.r, Respond(w, m).0, Respond(w, m).1, r)
  {
    hide CommitPlain, DueEntry, LiveRow, AuditsBy, TransitionAudits, CanTransition;
    RespondKeeps(w, m);
    if w.requests[m.r].Committed? {
      AuditAppended(w.tables.audits, w.requests[m.r].entry, r);
    }
  }

  lemma RespondTracked(w: World, m: Occurrence, r: nat)
    requires Fits(w, m)
    requires m.r in w.requests ==> PhaseTracked(w.kind, m.r, w.requests[m.r])
    ensures Recorded(w, m.r, Respond(w, m).0, Respond(w, m).1, r)
  {
    hide Arrival, Continue, AuditsBy, TransitionAudits;
    RespondKeeps(w, m);
    if m.Proceed? {
      ProceedRecorded(w, m, r);
    }
  }

  lemma OwnEntries(w: World, m: Occurrence)
    requires Tracked(w) && Fits(w, m)
    ensures forall entry :: entry in Act(w, m).tables.audits ==> OwnEntry(Act(w, m), entry)
  {
    hide Respond, Describes, AuditsBy, TransitionAudits, FateOf;
    var after := Act(w, m);
    RespondTracked(w, m, 0);
    forall entry | entry in after.tables.audits ensures OwnEntry(after, entry) {
      if entry in w.tables.audits {
        assert OwnEntry(w, entry);
      }
    }
  }

  lemma ActTracked(w: World, m: Occurrence)
    requires Tracked(w)
    ensures Tracked(Act(w, m))
  {
    hide Respond, PhaseTracked, AuditsBy, TransitionAudits;
    if Fits(w, m) {
      var after := Act(w, m);
      RespondTracked(w, m, 0);
      OwnEntries(w, m);
      forall r ensures AuditsBy(after.tables.audits, r)
                    == if r in after.requests && FateOf(after.requests[r]) == Stored then 1 else 0 {
        RespondTracked(w, m, r);
      }
    }
  }

  /** Moving one request between the fates moves it between their sets. */
  lemma SetOfOne(w: World, after: World, r: nat, phase: PlainPhase, fate: Fate)
    requires after.requests == w.requests[r := phase]
    ensures |Transitions(after, fate)|
            + (if r in w.requests && w.requests[r].cmd.Move? && FateOf(w.requests[r]) == fate then 1 else 0)
         == |Transitions(w, fate)| + (if phase.cmd.Move? && FateOf(phase) == fate then 1 else 0)
  {
    var others := Transitions(w, fate) - {r};
    assert Transitions(w, fate) == if r in Transitions(w, fate) then others + {r} else others;
    assert Transitions(after, fate) == if r in Transitions(after, fate) then others + {r} else others;
  }

  /** One occurrence moves its transition from not due to pending by a commit, from pending to
      stored by an audit row, or from pending to lost. */
  lemma RespondBalances(w: World, m: Occurrence)
    requires Fits(w, m)
    requires m.r in w.requests ==> PhaseTracked(w.kind, m.r, w.requests[m.r])
    ensures var phase := Respond(w, m).1;
            var was := if m.r in w.requests then FateOf(w.requests[m.r]) else NotDue;
            var now := FateOf(phase);
            phase.cmd.Move? ==>
              && (now == was || (was == NotDue && now == Pending) || (was == Pending && (now == Stored || now == Lost)))
              && (CommitsTransition(w, m) <==> was == NotDue && now == Pending)
    ensures !Respond(w, m).1.cmd.Move? ==> !CommitsTransition(w, m)
  {
  }

  lemma ActBalances(w: World, m: Occurrence)
    requires Tracked(w)
    ensures var after := Act(w, m);
            TransitionAudits(after.tables.audits) + |Transitions(after, Pending)| + |Transitions(after, Lost)|
            == TransitionAudits(w.tables.audits) + |Transitions(w, Pending)| + |Transitions(w, Lost)|
               + (if CommitsTransition(w, m) then 1 else 0)
  {
    if Fits(w, m) {
      var phase := Respond(w, m).1;
      RespondTracked(w, m, 0);
      RespondBalances(w, m);
      SetOfOne(w, Act(w, m), m.r, phase, Pending);
      SetOfOne(w, Act(w, m), m.r, phase, Lost);
    }
  }

  /** Accounting: at every point of every run, the committed transitions are the transition
      audits plus the requests between commit and audit plus those whose audit was lost. */
  lemma {:induction false} TransitionsAccountedFor(w: World, ms: seq<Occurrence>)
    requires w.requests == map[] && w.tables.audits == []
    ensures Tracked(Acts(w, ms)) && Acts(w, ms).kind == w.kind
    ensures var end := Acts(w, ms);
            CommittedTransitions(w, ms)
            == TransitionAudits(end.tables.audits) + |Transitions(end, Pending)| + |Transitions(end, Lost)|
  {
    if ms == [] {
      assert Transitions(w, Pending) == {} && Transitions(w, Lost) == {};
    } else {
      TransitionsAccountedFor(w, ms[..|ms| - 1]);
      ActTracked(Acts(w, ms[..|ms| - 1]), ms[|ms| - 1]);
      ActBalances(Acts(w, ms[..|ms| - 1]), ms[|ms| - 1]);
    }
  }

  lemma {:induction false} AuditFound(audits: seq<Entry>, r: nat) returns (i: nat)
    requires AuditsBy(audits, r) > 0
    ensures i < |audits| && audits[i].origin == r
  {
    if audits[|audits| - 1].origin == r {
      i := |audits| - 1;
    } else {
      i := AuditFound(audits[..|audits| - 1], r);
    }
  }

  /** Audit rows tell the truth, and no success goes without one: every audit row was written
      by its own request and describes it, an edge of the graph if it is a transition; no
      request writes two; and a transition or a delete that is answered with success has
      written its one row. */
  lemma SuccessIsAudited(w: World, ms: seq<Occurrence>, r: nat)
    requires w.requests == map[] && w.tables.audits == []
    ensures forall entry :: entry in Acts(w, ms).tables.audits ==>
              entry.origin in Acts(w, ms).requests && Describes(w.kind, Acts(w, ms).requests[entry.origin].cmd, entry)
    ensures AuditsBy(Acts(w, ms).tables.audits, r) <= 1
    ensures r in Acts(w, ms).requests ==>
              var phase, audits := Acts(w, ms).requests[r], Acts(w, ms).tables.audits;
              phase.Ended? && phase.outcome.Ok? && (phase.cmd.Move? || phase.cmd.Drop?) ==>
                AuditsBy(audits, r) == 1
                && exists i :: 0 <= i < |audits| && audits[i].origin == r && Describes(w.kind, phase.cmd, audits[i])
  {
    hide AuditsBy, Describes;
    TransitionsAccountedFor(w, ms);
    var end := Acts(w, ms);
    forall entry | entry in end.tables.audits
      ensures entry.origin in end.requests && Describes(w.kind, end.requests[entry.origin].cmd, entry)
    {
      assert OwnEntry(end, entry);
    }
    if AuditsBy(end.tables.audits, r) == 1 {
      var i := AuditFound(end.tables.audits, r);
      assert end.tables.audits[i] in end.tables.audits;
    }
  }

  // What an answered error says about the tables.

  /** The record of the request was live when the request arrived. */
  ghost predicate MetLiveRow(w: World, ms: seq<Occurrence>, r: nat) {
    ms != [] &&
    (var init, m := ms[..|ms| - 1], ms[|ms| - 1];
     if r in Acts(w, init).requests then MetLiveRow(w, init, r)
     else m.Arrive? && m.r == r && !m.cmd.Add? && LiveRow(Acts(w, init).tables, m.cmd.id))
  }

  /** A request has committed exactly if its audit has been due. */
  predicate PlainAccount(phase: PlainPhase, met: bool) {
    && (!phase.Ended? && !phase.cmd.Add? ==> met)
    && (phase.Returning? ==> (phase.cmd.Edit? || phase.cmd.Move?) && phase.fate != NotDue)
    && (phase.Ended? && phase.outcome.Err? && phase.outcome.error != Unavailable ==>
          (FateOf(phase) != NotDue <==> phase.outcome.error == NotFound && (phase.cmd.Edit? || phase.cmd.Move?) && met))
  }

  lemma RespondAccount(w: World, m: Occurrence, met: bool)
    requires Fits(w, m)
    requires if m.Arrive? then met == (!m.cmd.Add? && LiveRow(w.tables, m.cmd.id))
             else PlainAccount(w.requests[m.r], met)
    ensures PlainAccount(Respond(w, m).1, met)
  {
    hide DueEntry, ValidBusinessFields, CanTransition, CodeUsed;
  }

  lemma {:induction false} ActsAccount(w: World, ms: seq<Occurrence>, r: nat)
    requires w.requests == map[] && r in Acts(w, ms).requests
    ensures PlainAccount(Acts(w, ms).requests[r], MetLiveRow(w, ms, r))
  {
    hide Respond, PlainAccount;
    var init, m := ms[..|ms| - 1], ms[|ms| - 1];
    if r in Acts(w, init).requests {
      ActsAccount(w, init, r);
    }
    if m.r == r && Fits(Acts(w, init), m) {
      RespondAccount(Acts(w, init), m, MetLiveRow(w, ms, r));
    }
  }

  /** A request's audit is due, and no more "not due", exactly from the commit that changes its
      row; nothing else changes a row. */
  lemma DueFromCommit(w: World, m: Occurrence)
    requires Fits(w, m)
    ensures var committed := m.Proceed? && w.requests[m.r].Ready?
                             && CommitPlain(w.tables, w.requests[m.r].cmd, w.requests[m.r].item).Ok?;
            var was := if m.r in w.requests then FateOf(w.requests[m.r]) else NotDue;
            && (committed <==> was == NotDue && FateOf(Respond(w, m).1) != NotDue)
            && (was != NotDue ==> FateOf(Respond(w, m).1) != NotDue)
            && (!committed ==> Respond(w, m).0.rows == w.tables.rows)
  {
    hide DueEntry, ValidBusinessFields, CanTransition, CodeUsed;
  }

  /** A request that is answered with an error other than an infrastructure failure has changed
      nothing, except exactly an update or a transition that is answered "not found" although
      its record was live when it arrived: its audit has been due, so it has committed. */
  lemma PlainErrorChangedNothingExactlyWhen(w: World, ms: seq<Occurrence>, r: nat)
    requires w.requests == map[] && r in Acts(w, ms).requests
    requires Acts(w, ms).requests[r].Ended? && Acts(w, ms).requests[r].outcome.Err?
    requires Acts(w, ms).requests[r].outcome.error != Unavailable
    ensures var phase := Acts(w, ms).requests[r];
            phase.fate != NotDue <==>
            phase.outcome.error == NotFound && (phase.cmd.Edit? || phase.cmd.Move?) && MetLiveRow(w, ms, r)
  {
    ActsAccount(w, ms, r);
  }

  // The graph, under the client hypothesis.

  predicate SeenRow(t: Tables, id: nat, item: PlainRecord) {
    && id in t.rows && item.version <= t.rows[id].record.version
    && (item.version == t.rows[id].record.version ==> item == t.rows[id].record)
  }

  /** An edit or a move under way was vouched for when it read its record. */
  predicate PlainPhaseOk(kind: PlainKind, t: Tables, phase: PlainPhase) {
    match phase
    case Read(cmd, item) =>
      !cmd.Add? && SeenRow(t, cmd.id, item) && (cmd.Edit? || cmd.Move? ==> cmd.expected <= item.version)
    case Ready(cmd, before, item) =>
      (cmd.Edit? || cmd.Move? ==>
         SeenRow(t, cmd.id, before) && cmd.expected <= before.version && Prepare(kind, cmd, before) == Ok(item))
    case _ => true
  }

  predicate IdsBelow(t: Tables) {
    forall id :: id in t.rows ==> id < t.nextId
  }

  ghost predicate PlainSound(w: World) {
    IdsBelow(w.tables) && forall r :: r in w.requests ==> PlainPhaseOk(w.kind, w.tables, w.requests[r])
  }

  /** The version sent with an edit or a move is a committed version of the record it reads. */
  predicate PlainVouched(t: Tables, cmd: PlainCommand) {
    (cmd.Edit? || cmd.Move?) && LiveRow(t, cmd.id) ==> 1 <= cmd.expected <= t.rows[cmd.id].record.version
  }

  ghost predicate PlainHonest(w: World, ms: seq<Occurrence>) {
    ms == [] ||
    (PlainHonest(w, ms[..|ms| - 1])
     && (ms[|ms| - 1].Arrive? ==> PlainVouched(Acts(w, ms[..|ms| - 1]).tables, ms[|ms| - 1].cmd)))
  }

  /** A row either stays, or is edited at its present version with its status unchanged or
      moved along an edge of its graph, or is soft-deleted. */
  predicate RowMoves(kind: PlainKind, a: PlainRow, b: PlainRow) {
    || b == a
    || b == PlainRow(a.record, true)
    || (!a.deleted && b.record.version == a.record.version + 1
        && (b.record.status == a.record.status || CanTransition(PlainGraph(kind), a.record.status, b.record.status)))
  }

  /** Rows stay and move on by RowMoves. */
  ghost predicate RowsMove(kind: PlainKind, t: Tables, t': Tables) {
    IdsBelow(t') && forall id :: id in t.rows ==> id in t'.rows && RowMoves(kind, t.rows[id], t'.rows[id])
  }

  lemma CommitMoves(kind: PlainKind, t: Tables, cmd: PlainCommand, before: PlainRecord, item: PlainRecord)
    requires IdsBelow(t) && PlainPhaseOk(kind, t, Ready(cmd, before, item)) && CommitPlain(t, cmd, item).Ok?
    ensures RowsMove(kind, t, CommitPlain(t, cmd, item).value)
  {
  }

  lemma RespondMoves(w: World, m: Occurrence)
    requires PlainSound(w) && Fits(w, m)
    ensures RowsMove(w.kind, w.tables, Respond(w, m).0)
  {
    if m.Proceed? && w.requests[m.r].Ready? {
      var phase := w.requests[m.r];
      if CommitPlain(w.tables, phase.cmd, phase.item).Ok? {
        CommitMoves(w.kind, w.tables, phase.cmd, phase.before, phase.item);
      }
    }
  }

  lemma RespondOk(w: World, m: Occurrence)
    requires PlainSound(w) && Fits(w, m) && (m.Arrive? ==> PlainVouched(w.tables, m.cmd))
    ensures var (t, phase) := Respond(w, m); PlainPhaseOk(w.kind, t, phase)
  {
  }

  lemma PhaseOkMoves(kind: PlainKind, t: Tables, t': Tables, phase: PlainPhase)
    requires PlainPhaseOk(kind, t, phase) && RowsMove(kind, t, t')
    ensures PlainPhaseOk(kind, t', phase)
  {
    if phase.Read? || (phase.Ready? && (phase.cmd.Edit? || phase.cmd.Move?)) {
      assert RowMoves(kind, t.rows[phase.cmd.id], t'.rows[phase.cmd.id]);
    }
  }

  lemma ActSound(w: World, m: Occurrence)
    requires PlainSound(w) && (m.Arrive? ==> PlainVouched(w.tables, m.cmd))
    ensures PlainSound(Act(w, m))
    ensures RowsMove(w.kind, w.tables, Act(w, m).tables)
  {
    if Fits(w, m) {
      var after := Act(w, m);
      RespondMoves(w, m);
      RespondOk(w, m);
      forall r | r in after.requests ensures PlainPhaseOk(after.kind, after.tables, after.requests[r]) {
        if r != m.r {
          PhaseOkMoves(w.kind, w.tables, after.tables, w.requests[r]);
        }
      }
    }
  }

  lemma {:induction false} ActsSound(w: World, ms: seq<Occurrence>)
    requires PlainSound(w) && PlainHonest(w, ms)
    ensures PlainSound(Acts(w, ms)) && Acts(w, ms).kind == w.kind
  {
    if ms != [] {
      ActsSound(w, ms[..|ms| - 1]);
      ActSound(Acts(w, ms[..|ms| - 1]), ms[|ms| - 1]);
    }
  }

  /** A passed inspection stays passed, whatever honest requests follow, even updates. */
  lemma {:induction false} PassedIsFinal(w: World, ms: seq<Occurrence>, id: nat)
    requires PlainSound(w) && PlainHonest(w, ms) && w.kind == PlainKind.Inspection
    requires id in w.tables.rows && w.tables.rows[id].record.status == Passed
    ensures id in Acts(w, ms).tables.rows && Acts(w, ms).tables.rows[id].record.status == Passed
  {
    if ms != [] {
      PassedIsFinal(w, ms[..|ms| - 1], id);
      ActsSound(w, ms[..|ms| - 1]);
      ActSound(Acts(w, ms[..|ms| - 1]), ms[|ms| - 1]);
    }
  }

  lemma ActsSnoc(w: World, ms: seq<Occurrence>, m: Occurrence)
    ensures Acts(w, ms + [m]) == Act(Acts(w, ms), m)
  {
    assert (ms + [m])[..|ms|] == ms;
  }

  /** A request's read and decision, undisturbed. */
  lemma GetsReady(w: World, ms: seq<Occurrence>, r: nat, cmd: PlainCommand)
    requires var now := Acts(w, ms);
             && r !in now.requests && (cmd.Edit? || cmd.Move?) && Guarded(cmd) && LiveRow(now.tables, cmd.id)
             && Prepare(now.kind, cmd, now.tables.rows[cmd.id].record).Ok?
    ensures var now := Acts(w, ms);
            var before := now.tables.rows[cmd.id].record;
            Acts(w, ms + [Arrive(r, cmd)] + [Proceed(r)])
            == World(now.kind, now.tables,
                     now.requests[r := Ready(cmd, before, Prepare(now.kind, cmd, before).value)])
  {
    hide Prepare, Guarded;
    var now := Acts(w, ms);
    var before := now.tables.rows[cmd.id].record;
    ActsSnoc(w, ms, Arrive(r, cmd));
    ActsSnoc(w, ms + [Arrive(r, cmd)], Proceed(r));
    var ready := Ready(cmd, before, Prepare(now.kind, cmd, before).value);
    assert now.requests[r := Read(cmd, before)][r := ready] == now.requests[r := ready];
  }

  /** A request that is ready at the present version commits its record. */
  lemma CommitsNow(w: World, ms: seq<Occurrence>, r: nat)
    requires r in Acts(w, ms).requests && Acts(w, ms).requests[r].Ready?
    requires var now := Acts(w, ms);
             var cmd := now.requests[r].cmd;
             && (cmd.Edit? || cmd.Move?) && LiveRow(now.tables, cmd.id)
             && now.tables.rows[cmd.id].record.version == cmd.expected
    ensures var now, after := Acts(w, ms), Acts(w, ms + [Proceed(r)]);
            var cmd, item := now.requests[r].cmd, now.requests[r].item;
            && after.kind == now.kind
            && (forall q :: q in now.requests && q != r ==> q in after.requests && after.requests[q] == now.requests[q])
            && LiveRow(after.tables, cmd.id)
            && after.tables.rows[cmd.id].record == item.(code := now.tables.rows[cmd.id].record.code)
  {
    hide DueEntry;
    ActsSnoc(w, ms, Proceed(r));
  }

  // Exactly when a passed inspection is final, whatever versions the clients send.

  predicate Coded(t: Tables) {
    forall id :: id in t.rows ==> t.rows[id].record.code != ""
  }

  /** What every reachable state has, without the client hypothesis: keys are below the next
      one, codes are not empty, and every request is where its own command leads. */
  ghost predicate WellFormed(w: World) {
    && IdsBelow(w.tables) && Coded(w.tables)
    && (forall r :: r in w.requests ==> PhaseTracked(w.kind, r, w.requests[r]))
    && (forall r :: r in w.requests && w.requests[r].Ready? && w.requests[r].cmd.Add? ==> w.requests[r].item.code != "")
  }

  lemma RespondWellFormed(w: World, m: Occurrence)
    requires WellFormed(w) && Fits(w, m)
    ensures var (t, phase) := Respond(w, m);
            IdsBelow(t) && Coded(t) && (phase.Ready? && phase.cmd.Add? ==> phase.item.code != "")
  {
    hide DueEntry, Describes, Guarded, Prepare;
    assert m.r in w.requests ==> PhaseTracked(w.kind, m.r, w.requests[m.r]);
  }

  lemma {:induction false} StaysWellFormed(w: World, ms: seq<Occurrence>)
    requires WellFormed(w)
    ensures WellFormed(Acts(w, ms)) && Acts(w, ms).kind == w.kind
  {
    hide Respond, PhaseTracked, IdsBelow, Coded;
    if ms != [] {
      var mid, m := Acts(w, ms[..|ms| - 1]), ms[|ms| - 1];
      StaysWellFormed(w, ms[..|ms| - 1]);
      if Fits(mid, m) {
        RespondWellFormed(mid, m);
        RespondTracked(mid, m, 0);
      }
    }
  }

  /** A request under way that can still write this record, and would give it another status. */
  predicate Threatens(w: World, phase: PlainPhase, id: nat)
    requires id in w.tables.rows
  {
    && (phase.Read? || phase.Ready?) && (phase.cmd.Edit? || phase.cmd.Move?) && phase.cmd.id == id
    && phase.cmd.expected >= w.tables.rows[id].record.version
    && (phase.Read? ==>
          Prepare(w.kind, phase.cmd, phase.item).Ok? && Prepare(w.kind, phase.cmd, phase.item).value.status != Passed)
    && (phase.Ready? ==> phase.item.status != Passed)
  }

  predicate PassedAt(w: World, id: nat) {
    id in w.tables.rows && w.tables.rows[id].record.status == Passed
  }

  /** A passed inspection that nothing under way threatens. */
  ghost predicate Secure(w: World, id: nat) {
    && w.kind == PlainKind.Inspection && IdsBelow(w.tables) && PassedAt(w, id)
    && (forall r :: r in w.requests ==> PhaseTracked(w.kind, r, w.requests[r]))
    && (LiveRow(w.tables, id) ==> forall r :: r in w.requests ==> !Threatens(w, w.requests[r], id))
  }

  /** What one occurrence does to the secure record: its row stays, or is written as passed at
      the next version, or is marked deleted. */
  lemma RespondSecure(w: World, m: Occurrence, id: nat)
    requires Secure(w, id) && Fits(w, m)
    ensures var t := Respond(w, m).0;
            && IdsBelow(t) && id in t.rows && t.rows[id].record.status == Passed
            && t.rows[id].record.version >= w.tables.rows[id].record.version
            && (LiveRow(t, id) ==> LiveRow(w.tables, id))
  {
    hide DueEntry, Describes, ValidBusinessFields, Guarded;
    assert m.r in w.requests ==> PhaseTracked(w.kind, m.r, w.requests[m.r]);
  }

  /** Who reads a passed inspection does not threaten it, and who does not, never will. */
  lemma RespondHarmless(w: World, m: Occurrence, id: nat)
    requires Secure(w, id) && Fits(w, m) && LiveRow(w.tables, id)
    ensures var next := Respond(w, m); id in next.0.rows && !Threatens(World(w.kind, next.0, map[]), next.1, id)
  {
    hide DueEntry, Describes, ValidBusinessFields, Guarded;
    RespondSecure(w, m, id);
    assert m.r in w.requests ==> PhaseTracked(w.kind, m.r, w.requests[m.r]) && !Threatens(w, w.requests[m.r], id);
  }

  lemma ActSecure(w: World, m: Occurrence, id: nat)
    requires Secure(w, id)
    ensures Secure(Act(w, m), id)
  {
    hide Respond, PhaseTracked, Prepare;
    if Fits(w, m) {
      var after := Act(w, m);
      RespondSecure(w, m, id);
      RespondTracked(w, m, 0);
      if LiveRow(after.tables, id) {
        RespondHarmless(w, m, id);
        forall r | r in after.requests ensures !Threatens(after, after.requests[r], id) {
          assert r != m.r ==> !Threatens(w, w.requests[r], id);
        }
      }
    }
  }

  lemma {:induction false} SecureStays(w: World, ms: seq<Occurrence>, id: nat)
    requires Secure(w, id)
    ensures Secure(Acts(w, ms), id)
  {
    if ms != [] {
      SecureStays(w, ms[..|ms| - 1], id);
      ActSecure(Acts(w, ms[..|ms| - 1]), ms[|ms| - 1], id);
    }
  }

  const INSPECTOR := Caller("inspector", Operator, "inspection-1")
  const TASK := Fields("borescope inspection", "hangar 2", "line maintenance", "images filed", "low risk")

  /** Honest updates take a passed inspection to any later version; nobody else moves. */
  lemma {:induction false} UpdatesAlone(w: World, id: nat, n: nat) returns (ms: seq<Occurrence>)
    requires LiveRow(w.tables, id) && w.tables.rows[id].record.status == Passed && w.tables.rows[id].record.code != ""
    ensures var now := Acts(w, ms);
            && now.kind == w.kind && LiveRow(now.tables, id) && now.tables.rows[id].record.status == Passed
            && now.tables.rows[id].record.code != ""
            && now.tables.rows[id].record.version == w.tables.rows[id].record.version + n
            && (forall q :: q in w.requests ==> q in now.requests && now.requests[q] == w.requests[q])
  {
    hide Act;
    if n == 0 {
      ms := [];
    } else {
      ms := UpdatesAlone(w, id, n - 1);
      var now := Acts(w, ms);
      hide Acts;
      var r := Above(now.requests.Keys);
      GetsReady(w, ms, r, Edit(id, now.tables.rows[id].record.version, TASK, INSPECTOR));
      ms := ms + [Arrive(r, Edit(id, now.tables.rows[id].record.version, TASK, INSPECTOR))] + [Proceed(r)];
      CommitsNow(w, ms, r);
      ms := ms + [Proceed(r)];
    }
  }

  lemma ThreatReady(w: World, ms: seq<Occurrence>, r: nat, id: nat)
    requires var now := Acts(w, ms);
             r in now.requests && id in now.tables.rows && Threatens(now, now.requests[r], id) && now.requests[r].Read?
    ensures var now, after := Acts(w, ms), Acts(w, ms + [Proceed(r)]);
            && after.tables == now.tables && after.kind == now.kind
            && r in after.requests && after.requests[r].Ready? && after.requests[r].cmd == now.requests[r].cmd
            && Threatens(after, after.requests[r], id)
  {
    hide Prepare;
    ActsSnoc(w, ms, Proceed(r));
  }

  /** A threat is carried out when honest updates have brought the version it guessed. */
  lemma ThreatCarriedOut(w: World, r: nat, id: nat) returns (ms: seq<Occurrence>)
    requires LiveRow(w.tables, id) && w.tables.rows[id].record.status == Passed && w.tables.rows[id].record.code != ""
    requires r in w.requests && Threatens(w, w.requests[r], id)
    ensures !PassedAt(Acts(w, ms), id)
  {
    hide Acts, Prepare;
    var cmd := w.requests[r].cmd;
    ms := UpdatesAlone(w, id, cmd.expected - w.tables.rows[id].record.version);
    if w.requests[r].Read? {
      ThreatReady(w, ms, r, id);
      ms := ms + [Proceed(r)];
    }
    CommitsNow(w, ms, r);
    ms := ms + [Proceed(r)];
  }

  /** A passed inspection stays passed in every run that can follow, whatever versions clients
      send, if and only if it is deleted or no request under way has read it before it passed
      and guessed a version that it has not left behind. */
  lemma PassedIsFinalExactlyWhen(w: World, id: nat)
    requires WellFormed(w) && w.kind == PlainKind.Inspection && PassedAt(w, id)
    ensures (forall ms :: PassedAt(Acts(w, ms), id)) <==>
            (LiveRow(w.tables, id) ==> forall r :: r in w.requests ==> !Threatens(w, w.requests[r], id))
  {
    hide Acts, Threatens, PhaseTracked;
    if LiveRow(w.tables, id) && exists r :: r in w.requests && Threatens(w, w.requests[r], id) {
      var r :| r in w.requests && Threatens(w, w.requests[r], id);
      var ms := ThreatCarriedOut(w, r, id);
      assert !PassedAt(Acts(w, ms), id);
    } else {
      forall ms ensures PassedAt(Acts(w, ms), id) {
        SecureStays(w, ms, id);
      }
    }
  }
}

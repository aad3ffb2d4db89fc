/** The rules of parts and inspections with the statuses, the roles and the texts named: what
    each commit writes in any run, and what an undisturbed request does and answers. */
module PlainRules {
  import opened Records
  import opened Statuses
  import opened Access
  import opened PlainRecords
  import opened PlainServices

  /** The edges of the two kinds, status by status. */
  predicate Leads(kind: PlainKind, from: Status, to: Status) {
    match kind
    case Part =>
      || (from == Received && (to == Status.Inspection || to == Hold))
      || (from == Status.Inspection && (to == Hold || to == Released || to == Received))
      || (from == Hold && (to == Released || to == Retired || to == Status.Inspection))
      || (from == Released && (to == Retired || to == Hold))
      || (from == Retired && to == Released)
    case Inspection =>
      || (from == Planned && to == Running)
      || (from == Running && (to == Passed || to == Failed))
      || (from == Failed && to == Running)
  }

  predicate Complete(code: string, fields: Fields) {
    code != "" && fields.name != "" && fields.facility != "" && fields.owner != ""
  }

  function FirstStatus(kind: PlainKind): Status {
    if kind == Part then Received else Planned
  }

  /** Who may ask for what. */
  lemma WritersAndAdmins(cmd: PlainCommand)
    ensures Guarded(cmd) <==> if cmd.Drop? then cmd.who.role == Admin else cmd.who.role in {Operator, Reviewer, Admin}
  {
  }

  lemma MovesAreLeads(kind: PlainKind, from: Status, to: Status)
    ensures CanTransition(PlainGraph(kind), from, to) <==> Leads(kind, from, to)
  {
  }

  // What a commit writes.

  lemma PreparedRecord(kind: PlainKind, cmd: PlainCommand, cur: PlainRecord)
    requires cmd.Edit? || cmd.Move?
    ensures cmd.Edit? ==>
              Prepare(kind, cmd, cur) ==
              if !Complete(cur.code, cmd.fields) then Err(InvalidInput)
              else Ok(PlainRecord(cur.code, cmd.fields, cur.status, cmd.expected + 1))
    ensures cmd.Move? ==>
              Prepare(kind, cmd, cur) ==
              if !Leads(kind, cur.status, cmd.target) then Err(InvalidTransition)
              else Ok(PlainRecord(cur.code, cur.fields, cmd.target, cmd.expected + 1))
  {
    MovesAreLeads(kind, cur.status, if cmd.Move? then cmd.target else cur.status);
  }

  /** A phase holds what its command leads to: a create its new record, an edit or a move the
      record prepared from the one it read. */
  predicate Leading(kind: PlainKind, phase: PlainPhase) {
    phase.Ready? ==>
      match phase.cmd
      case Add(code, fields, _) =>
        Complete(code, fields) && phase.item == PlainRecord(code, fields, FirstStatus(kind), 1)
      case Edit(_, expected, fields, _) =>
        && Complete(phase.before.code, fields)
        && phase.item == PlainRecord(phase.before.code, fields, phase.before.status, expected + 1)
      case Move(_, expected, target, _, _) =>
        && Leads(kind, phase.before.status, target)
        && phase.item == PlainRecord(phase.before.code, phase.before.fields, target, expected + 1)
      case Drop(_, _) => true
  }

  lemma RespondLeading(w: World, m: Occurrence)
    requires Fits(w, m)
    requires m.r in w.requests ==> Leading(w.kind, w.requests[m.r]) && PhaseTracked(w.kind, m.r, w.requests[m.r])
    ensures Leading(w.kind, Respond(w, m).1)
  {
    hide CanTransition, Leads, DueEntry, Describes, CodeUsed, Guarded;
    if m.Proceed? && w.requests[m.r].Read? && (w.requests[m.r].cmd.Edit? || w.requests[m.r].cmd.Move?) {
      PreparedRecord(w.kind, w.requests[m.r].cmd, w.requests[m.r].item);
    }
  }

  lemma {:induction false} ActsLeading(w: World, ms: seq<Occurrence>)
    requires w.requests == map[] && w.tables.audits == []
    ensures forall r :: r in Acts(w, ms).requests ==> Leading(w.kind, Acts(w, ms).requests[r])
  {
    hide Respond, Leading, PhaseTracked;
    if ms != [] {
      var mid, m := Acts(w, ms[..|ms| - 1]), ms[|ms| - 1];
      ActsLeading(w, ms[..|ms| - 1]);
      TransitionsAccountedFor(w, ms[..|ms| - 1]);
      if Fits(mid, m) {
        RespondLeading(mid, m);
      }
    }
  }

  /** The rows after a commit, given the record that the request read. */
  predicate Writes(kind: PlainKind, t: Tables, t': Tables, cmd: PlainCommand, read: PlainRecord) {
    match cmd
    case Add(code, fields, _) =>
      && (forall id :: id in t.rows ==> t.rows[id].record.code != code)
      && t'.nextId == t.nextId + 1
      && t'.rows == t.rows[t.nextId := PlainRow(PlainRecord(code, fields, FirstStatus(kind), 1), false)]
    case Edit(id, expected, fields, _) =>
      && id in t.rows && !t.rows[id].deleted && t.rows[id].record.version == expected && t'.nextId == t.nextId
      && t'.rows ==
         t.rows[id := PlainRow(PlainRecord(t.rows[id].record.code, fields, read.status, expected + 1), false)]
    case Move(id, expected, target, _, _) =>
      && id in t.rows && !t.rows[id].deleted && t.rows[id].record.version == expected && t'.nextId == t.nextId
      && Leads(kind, read.status, target)
      && t'.rows ==
         t.rows[id := PlainRow(PlainRecord(t.rows[id].record.code, read.fields, target, expected + 1), false)]
    case Drop(id, _) =>
      && id in t.rows && !t.rows[id].deleted && t'.nextId == t.nextId
      && t'.rows == t.rows[id := PlainRow(t.rows[id].record, true)]
  }

  /** In any run of any clients, an occurrence that changes a row is the commit of one request:
      a create inserts the command's record as received or planned at version one, if no row has
      its code; an update writes the command's fields, a move its target along an edge, each at
      the version after the one it expected and with the rest of the record it read; a delete
      marks the row. The code never changes, nor does any other row. */
  lemma CommitWrites(w: World, ms: seq<Occurrence>, m: Occurrence)
    requires w.requests == map[] && w.tables.audits == []
    requires Act(Acts(w, ms), m).tables.rows != Acts(w, ms).tables.rows
    ensures m.Proceed? && m.r in Acts(w, ms).requests && Acts(w, ms).requests[m.r].Ready?
    ensures var mid := Acts(w, ms);
            Writes(w.kind, mid.tables, Act(mid, m).tables, mid.requests[m.r].cmd, mid.requests[m.r].before)
  {
    hide Acts, Leads, DueEntry, Describes;
    ActsLeading(w, ms);
    TransitionsAccountedFor(w, ms);
    var mid := Acts(w, ms);
    DueFromCommit(mid, m);
    assert Leading(w.kind, mid.requests[m.r]);
  }

  /** Among honest requests the record it read is the row it writes: an update keeps the status
      and a move keeps the fields. */
  lemma CommitIsOnItsRead(w: World, ms: seq<Occurrence>, m: Occurrence)
    requires w.requests == map[] && w.tables.audits == [] && PlainSound(w) && PlainHonest(w, ms)
    requires Act(Acts(w, ms), m).tables.rows != Acts(w, ms).tables.rows
    ensures m.Proceed? && m.r in Acts(w, ms).requests && Acts(w, ms).requests[m.r].Ready?
    ensures var mid := Acts(w, ms);
            var phase := mid.requests[m.r];
            phase.cmd.Edit? || phase.cmd.Move? ==>
              phase.cmd.id in mid.tables.rows && mid.tables.rows[phase.cmd.id].record == phase.before
  {
    hide Acts, Leads;
    CommitWrites(w, ms, m);
    ActsSound(w, ms);
    assert PlainPhaseOk(w.kind, Acts(w, ms).tables, Acts(w, ms).requests[m.r]);
  }

  // Complete rows.

  predicate Full(rec: PlainRecord) {
    rec.code != "" && rec.fields.name != "" && rec.fields.facility != "" && rec.fields.owner != ""
  }

  ghost predicate AllFull(w: World) {
    && (forall id :: id in w.tables.rows ==> Full(w.tables.rows[id].record))
    && (forall r :: r in w.requests && w.requests[r].Read? ==> Full(w.requests[r].item))
    && (forall r :: r in w.requests && w.requests[r].Ready? ==> Full(w.requests[r].item))
  }

  lemma RespondFull(w: World, m: Occurrence)
    requires AllFull(w) && Fits(w, m)
    ensures var (t, phase) := Respond(w, m);
            && (forall id :: id in t.rows ==> Full(t.rows[id].record))
            && (phase.Read? || phase.Ready? ==> Full(phase.item))
  {
    hide CanTransition, DueEntry, CodeUsed, Guarded;
  }

  lemma {:induction false} ActsFull(w: World, ms: seq<Occurrence>)
    requires AllFull(w)
    ensures AllFull(Acts(w, ms))
  {
    hide Respond;
    if ms != [] {
      var mid, m := Acts(w, ms[..|ms| - 1]), ms[|ms| - 1];
      ActsFull(w, ms[..|ms| - 1]);
      if Fits(mid, m) {
        RespondFull(mid, m);
      }
    }
  }

  /** From complete rows, every row of every run is complete, live or deleted. */
  lemma {:induction false} RowsStayComplete(w: World, ms: seq<Occurrence>, id: nat)
    requires w.requests == map[]
    requires forall k :: k in w.tables.rows ==>
               var rec := w.tables.rows[k].record;
               rec.code != "" && rec.fields.name != "" && rec.fields.facility != "" && rec.fields.owner != ""
    requires id in Acts(w, ms).tables.rows
    ensures var rec := Acts(w, ms).tables.rows[id].record;
            rec.code != "" && rec.fields.name != "" && rec.fields.facility != "" && rec.fields.owner != ""
  {
    ActsFull(w, ms);
  }

  // What an undisturbed request does and answers.

  /** The audit rows after an audit statement. */
  function Booked(t: Tables, stored: bool, r: nat, who: Caller, action: Action, id: nat, before: AuditState,
                  after: AuditState, detail: string): seq<Entry>
  {
    t.audits + (if !stored then [] else
                [Entry(r, if who.actor == "" then "system" else who.actor,
                       if who.requestId == "" then "untracked" else who.requestId, action, id, before, after, detail)])
  }

  lemma DetailTexts(kind: PlainKind)
    ensures "created " + EntityText(kind) == if kind == Part then "created 航空部件" else "created 检查任务"
    ensures "soft deleted " + EntityText(kind) == if kind == Part then "soft deleted 航空部件" else "soft deleted 检查任务"
  {
    assert "created " + "航空部件" == "created 航空部件" && "created " + "检查任务" == "created 检查任务";
    assert "soft deleted " + "航空部件" == "soft deleted 航空部件";
    assert "soft deleted " + "检查任务" == "soft deleted 检查任务";
  }

  lemma CreateAlone(kind: PlainKind, t: Tables, t': Tables, r: nat, stored: bool, code: string, fields: Fields,
                    who: Caller,
                    outcome: Result<PlainReply>)
    requires Guarded(Add(code, fields, who)) && RanAlone(kind, t, t', r, stored, Add(code, fields, who), outcome)
    ensures if code == "" || fields.name == "" || fields.facility == "" || fields.owner == "" then
              outcome == Err(InvalidInput) && t' == t
            else if exists id :: id in t.rows && t.rows[id].record.code == code then
              outcome == Err(DuplicateCode) && t' == t
            else
              var rec := PlainRecord(code, fields, if kind == Part then Received else Planned, 1);
              && outcome == Ok(Item(rec))
              && t' == Tables(t.rows[t.nextId := PlainRow(rec, false)], t.nextId + 1,
                              Booked(t, stored, r, who, CreateAction, t.nextId, Blank, In(rec.status),
                                     if kind == Part then "created 航空部件" else "created 检查任务"))
  {
    hide EntityText;
    DetailTexts(kind);
    assert CodeUsed(t, code) <==> exists id :: id in t.rows && t.rows[id].record.code == code;
    assert t.audits + [] == t.audits;
  }

  lemma UpdateAlone(kind: PlainKind, t: Tables, t': Tables, r: nat, stored: bool, id: nat, expected: nat,
                    fields: Fields,
                    who: Caller, outcome: Result<PlainReply>)
    requires Guarded(Edit(id, expected, fields, who))
    requires RanAlone(kind, t, t', r, stored, Edit(id, expected, fields, who), outcome)
    ensures if id !in t.rows || t.rows[id].deleted then outcome == Err(NotFound) && t' == t
            else
              var cur := t.rows[id].record;
              if cur.code == "" || fields.name == "" || fields.facility == "" || fields.owner == "" then
                outcome == Err(InvalidInput) && t' == t
              else if cur.version != expected then outcome == Err(Conflict) && t' == t
              else
                var rec := PlainRecord(cur.code, fields, cur.status, expected + 1);
                && outcome == Ok(Item(rec))
                && t' == Tables(t.rows[id := PlainRow(rec, false)], t.nextId,
                                Booked(t, stored, r, who, UpdateAction, id, In(cur.status), In(cur.status),
                                       "updated business fields"))
  {
    hide Guarded;
    assert t.audits + [] == t.audits;
  }

  lemma MoveAlone(kind: PlainKind, t: Tables, t': Tables, r: nat, stored: bool, id: nat, expected: nat, target: Status,
                  reason: string, who: Caller, outcome: Result<PlainReply>)
    requires Guarded(Move(id, expected, target, reason, who))
    requires RanAlone(kind, t, t', r, stored, Move(id, expected, target, reason, who), outcome)
    ensures if id !in t.rows || t.rows[id].deleted then outcome == Err(NotFound) && t' == t
            else
              var cur := t.rows[id].record;
              if !Leads(kind, cur.status, target) then outcome == Err(InvalidTransition) && t' == t
              else if cur.version != expected then outcome == Err(Conflict) && t' == t
              else
                var rec := PlainRecord(cur.code, cur.fields, target, expected + 1);
                && outcome == (if stored then Ok(Item(rec)) else Err(Unavailable))
                && t' == Tables(t.rows[id := PlainRow(rec, false)], t.nextId,
                                Booked(t, stored, r, who, TransitionAction, id, In(cur.status), In(target), reason))
  {
    hide Guarded, Leads, CanTransition;
    if id in t.rows {
      MovesAreLeads(kind, t.rows[id].record.status, target);
    }
    assert t.audits + [] == t.audits;
  }

  lemma DeleteAlone(kind: PlainKind, t: Tables, t': Tables, r: nat, stored: bool, id: nat, who: Caller,
                    outcome: Result<PlainReply>)
    requires Guarded(Drop(id, who)) && RanAlone(kind, t, t', r, stored, Drop(id, who), outcome)
    ensures if id !in t.rows || t.rows[id].deleted then outcome == Err(NotFound) && t' == t
            else
              && outcome == (if stored then Ok(Empty) else Err(Unavailable))
              && t' == Tables(t.rows[id := PlainRow(t.rows[id].record, true)], t.nextId,
                              Booked(t, stored, r, who, DeleteAction, id, In(t.rows[id].record.status), Gone,
                                     if kind == Part then "soft deleted 航空部件" else "soft deleted 检查任务"))
  {
    hide EntityText;
    DetailTexts(kind);
    assert t.audits + [] == t.audits;
  }

  // Undisturbed requests are runs.

  /** The occurrence that takes an undisturbed request on. */
  function Onwards(phase: PlainPhase, r: nat, stored: bool): Occurrence {
    if phase.Committed? && !stored then AuditFails(r) else Proceed(r)
  }

  lemma OnwardStep(w: World, others: map<nat, PlainPhase>, r: nat, stored: bool, at: (Tables, PlainPhase))
    requires w == World(w.kind, at.0, others[r := at.1])
    ensures var next := Onward(w.kind, r, stored, at);
            Act(w, Onwards(at.1, r, stored)) == World(w.kind, next.0, others[r := next.1])
  {
    hide Continue, AfterAudit;
    var next := Onward(w.kind, r, stored, at);
    assert others[r := at.1][r := next.1] == others[r := next.1];
  }

  /** The call of a service object that runs alone is a run of the interleaved system. */
  lemma AloneIsARun(w: World, r: nat, stored: bool, cmd: PlainCommand) returns (ms: seq<Occurrence>)
    requires r !in w.requests
    ensures forall m :: m in ms ==> m.r == r && !m.Break?
    ensures var end := AloneFrom(w.kind, w.tables, r, stored, Arrival(w.kind, w.tables, cmd));
            Acts(w, ms) == World(w.kind, end.0, w.requests[r := end.1])
  {
    hide Onward, Onwards, Arrival, Act;
    var p0 := (w.tables, Arrival(w.kind, w.tables, cmd));
    var p1 := Onward(w.kind, r, stored, p0);
    var p2 := Onward(w.kind, r, stored, p1);
    var p3 := Onward(w.kind, r, stored, p2);
    ArrivalStep(w, r, cmd);
    OnwardStep(Act(w, Arrive(r, cmd)), w.requests, r, stored, p0);
    OnwardStep(World(w.kind, p1.0, w.requests[r := p1.1]), w.requests, r, stored, p1);
    OnwardStep(World(w.kind, p2.0, w.requests[r := p2.1]), w.requests, r, stored, p2);
    OnwardStep(World(w.kind, p3.0, w.requests[r := p3.1]), w.requests, r, stored, p3);
    OwnOccurrence(p0.1, r, stored);
    OwnOccurrence(p1.1, r, stored);
    OwnOccurrence(p2.1, r, stored);
    OwnOccurrence(p3.1, r, stored);
    assert Acts(w, []) == w;
    ms := [];
    ActsSnoc(w, ms, Arrive(r, cmd));
    ms := ms + [Arrive(r, cmd)];
    ActsSnoc(w, ms, Onwards(p0.1, r, stored));
    ms := ms + [Onwards(p0.1, r, stored)];
    ActsSnoc(w, ms, Onwards(p1.1, r, stored));
    ms := ms + [Onwards(p1.1, r, stored)];
    ActsSnoc(w, ms, Onwards(p2.1, r, stored));
    ms := ms + [Onwards(p2.1, r, stored)];
    ActsSnoc(w, ms, Onwards(p3.1, r, stored));
    ms := ms + [Onwards(p3.1, r, stored)];
  }

  lemma ArrivalStep(w: World, r: nat, cmd: PlainCommand)
    requires r !in w.requests
    ensures Act(w, Arrive(r, cmd)) == World(w.kind, w.tables, w.requests[r := Arrival(w.kind, w.tables, cmd)])
  {
    hide Arrival;
  }

  lemma OwnOccurrence(phase: PlainPhase, r: nat, stored: bool)
    ensures Onwards(phase, r, stored).r == r && !Onwards(phase, r, stored).Break?
  {
  }
}

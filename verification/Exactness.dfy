/** Exactly which edits can rely on the version guard, over every run of the interleaved
    system and whatever versions the other clients send. */
module Exactness {
  import opened Records
  import opened Transactions
  import opened Services
  import opened Statuses
  import opened Protocol
  import opened Invariants
  import opened Runs
  import opened Refinement
  import opened Refusals
  import opened Duties
  import opened Staleness
  import opened Realization

  /** The next step of a request that is ready to commit does to the tables what the whole
      request would do atomically at this instant; if that is refused, it changes nothing. */
  predicate FaithfulAt(s: State, r: nat)
    requires r in s.requests && s.requests[r].Checked?
  {
    match Atomic(s.db, s.requests[r].cmd)
    case Ok(after) => Step(s, Next(r)).db == after
    case Err(_) => Step(s, Next(r)).db == s.db
  }

  /** ... in every run, at every moment at which the request is ready to commit. */
  ghost predicate AlwaysFaithful(s: State, r: nat) {
    forall es :: r in Run(s, es).requests && Run(s, es).requests[r].Checked? ==> FaithfulAt(Run(s, es), r)
  }

  // If: the early read is the present row whenever the guard holds.

  /** What is left of the row query while the request is under way. */
  predicate ReadOf(phase: Phase, cmd: Command, rec: Record) {
    && phase.cmd == cmd
    && (phase.Loading? || phase.Loaded? ==> phase.item == rec)
    && (phase.Checked? ==> phase.before == rec && Decide(cmd, rec) == Ok(phase.item))
    && (phase.Deleting? ==> phase.before == rec)
  }

  lemma StepReadOf(s: State, e: Event, r: nat, cmd: Command, rec: Record)
    requires r in s.requests && ReadOf(s.requests[r], cmd, rec)
    ensures r in Step(s, e).requests && ReadOf(Step(s, e).requests[r], cmd, rec)
  {
    hide Decide, Commit, LogOf, CreateVersion, SoftDelete;
  }

  lemma {:induction false} RunReadOf(s: State, es: seq<Event>, r: nat, cmd: Command, rec: Record)
    requires r in s.requests && ReadOf(s.requests[r], cmd, rec)
    ensures r in Run(s, es).requests && ReadOf(Run(s, es).requests[r], cmd, rec)
  {
    if es != [] {
      RunReadOf(s, es[..|es| - 1], r, cmd, rec);
      StepReadOf(Run(s, es[..|es| - 1]), es[|es| - 1], r, cmd, rec);
    }
  }

  lemma FaithfulWhenCurrent(s: State, r: nat)
    requires Inv(s) && r in s.requests && s.requests[r].Checked?
    requires s.requests[r].cmd.expected <= s.requests[r].before.version
    ensures FaithfulAt(s, r)
  {
    hide Decide, LogOf;
    var phase := s.requests[r];
    if Commit(s.db, phase.cmd, phase.before, phase.item).Ok? {
      CommitIsCurrent(s.db, phase.cmd, phase.before, phase.item);
    } else {
      CommitRefused(s.db, phase.cmd, phase.before, phase.item);
    }
  }

  // Only if: a chain of requests that all read the same row and guess consecutive versions.

  /** Where a record must go to refuse what could be decided on it. */
  function Elsewhere(rec: Record): Status {
    match rec.status
    case Draft => if rec.Kind() == Certificate then Valid else Review
    case Review => Draft
    case _ => Revoked
  }

  /** A transition prepared on `rec` that sends the version `i` past it. */
  function Guess(key: Key, rec: Record, i: nat): Command {
    Transition(key, rec.version + i, Elsewhere(rec), MOTIVE, Outsider(rec))
  }

  /** The requests number `first`, `first + 1`, ... read the record. */
  function Readings(key: Key, rec: Record, first: nat, n: nat): seq<Event> {
    if n == 0 then [] else Readings(key, rec, first, n - 1) + Reading(first + n - 1, Guess(key, rec, n - 1))
  }

  /** ... and commit, in the order of the versions they guessed. */
  function Commits(first: nat, n: nat): seq<Event> {
    if n == 0 then [] else Commits(first, n - 1) + [Next(first + n - 1)]
  }

  predicate Decidable(key: Key, rec: Record) {
    && rec.Kind() == key.kind
    && (rec.status == Draft || (rec.status == Review && rec.Kind() == Authorization)
        || (Settled(rec.Kind(), rec.status) && Headroom(rec.status) > 0))
  }

  lemma GuessDecides(key: Key, rec: Record, i: nat)
    requires Decidable(key, rec)
    ensures Gate(Guess(key, rec, i)) && Decide(Guess(key, rec, i), rec).Ok?
    ensures var item := Decide(Guess(key, rec, i), rec).value;
            item.version == rec.version + i + 1 && item.status == Elsewhere(rec)
            && item.code == rec.code && item.Kind() == rec.Kind()
  {
    assert |Outsider(rec).actor| > 0;
    if rec.signoff.Prepared? {
      assert |Outsider(rec).actor| != |rec.signoff.preparedBy|;
    } else {
      assert |Outsider(rec).actor| != |rec.signoff.submittedBy|;
    }
  }

  predicate Waits(s: State, key: Key, rec: Record, first: nat, i: nat) {
    && first + i in s.requests && Decide(Guess(key, rec, i), rec).Ok?
    && s.requests[first + i] == Checked(Guess(key, rec, i), rec, Decide(Guess(key, rec, i), rec).value)
  }

  /** The guesses number `from` to `n` wait for their commit; everyone else is as in `s`. */
  ghost predicate Waiting(s: State, mid: State, key: Key, rec: Record, first: nat, from: nat, n: nat) {
    && (forall q :: q in s.requests ==> q in mid.requests && mid.requests[q] == s.requests[q])
    && (forall q :: q in mid.requests && q !in s.requests ==> first <= q < first + n)
    && (forall i: nat :: from <= i < n ==> Waits(mid, key, rec, first, i))
  }

  lemma {:induction false} ReadingsRun(s: State, key: Key, rec: Record, first: nat, n: nat)
    requires Live(s.db, key) && s.db.rows[key].record == rec && Decidable(key, rec)
    requires forall q :: q in s.requests ==> q < first
    ensures Run(s, Readings(key, rec, first, n)).db == s.db
    ensures Waiting(s, Run(s, Readings(key, rec, first, n)), key, rec, first, 0, n)
  {
    hide Decide, Gate, Guess, Reading, Decidable, Live, Step;
    if n > 0 {
      ReadingsRun(s, key, rec, first, n - 1);
      var mid := Run(s, Readings(key, rec, first, n - 1));
      OneMoreWaits(s, mid, key, rec, first, n - 1);
      RunConcat(s, Readings(key, rec, first, n - 1), Reading(first + n - 1, Guess(key, rec, n - 1)));
    }
  }

  lemma OneMoreWaits(s: State, mid: State, key: Key, rec: Record, first: nat, n: nat)
    requires Live(mid.db, key) && mid.db.rows[key].record == rec && Decidable(key, rec)
    requires Waiting(s, mid, key, rec, first, 0, n) && forall q :: q in s.requests ==> q < first
    ensures Run(mid, Reading(first + n, Guess(key, rec, n))).db == mid.db
    ensures Waiting(s, Run(mid, Reading(first + n, Guess(key, rec, n))), key, rec, first, 0, n + 1)
  {
    hide Decide, Gate, Guess, Reading, Decidable, Live, Step, Run;
    GuessReads(mid, first + n, key, rec, n);
    var end := Run(mid, Reading(first + n, Guess(key, rec, n)));
    forall i: nat | i < n + 1 ensures Waits(end, key, rec, first, i) {
      assert i < n ==> Waits(mid, key, rec, first, i);
    }
  }

  lemma GuessReads(s: State, r: nat, key: Key, rec: Record, i: nat)
    requires Live(s.db, key) && s.db.rows[key].record == rec && Decidable(key, rec) && r !in s.requests
    ensures Decide(Guess(key, rec, i), rec).Ok?
    ensures Run(s, Reading(r, Guess(key, rec, i)))
         == State(s.db, s.requests[r := Checked(Guess(key, rec, i), rec, Decide(Guess(key, rec, i), rec).value)])
  {
    hide Decide, Gate, Reading;
    GuessDecides(key, rec, i);
    ReadingRun(s, r, Guess(key, rec, i));
  }

  /** What the first `n` guesses leave in the row. */
  function Guessed(key: Key, rec: Record, n: nat): Record
    requires Decidable(key, rec)
  {
    if n == 0 then rec
    else
      GuessDecides(key, rec, n - 1);
      Decide(Guess(key, rec, n - 1), rec).value
  }

  lemma GuessCommits(db: Db, others: map<nat, Phase>, r: nat, key: Key, rec: Record, i: nat)
    requires Decidable(key, rec) && Live(db, key) && db.rows[key].record == Guessed(key, rec, i)
    requires Decide(Guess(key, rec, i), rec).Ok? && r in others
    requires others[r] == Checked(Guess(key, rec, i), rec, Decide(Guess(key, rec, i), rec).value)
    ensures var s := Step(State(db, others), Next(r));
            && Live(s.db, key) && s.db.rows[key].record == Guessed(key, rec, i + 1)
            && s.requests == others[r := Written(Guess(key, rec, i), key)]
  {
    hide Decide, LogOf;
    GuessDecides(key, rec, i);
    if i > 0 {
      GuessDecides(key, rec, i - 1);
    }
    var cmd := Guess(key, rec, i);
    var item := Decide(cmd, rec).value;
    assert item.(code := Guessed(key, rec, i).code) == item;
    assert Commit(db, cmd, rec, item).Ok?;
  }

  lemma {:induction false} CommitsRun(s: State, mid: State, key: Key, rec: Record, first: nat, n: nat, k: nat)
    requires Decidable(key, rec) && Live(mid.db, key) && mid.db.rows[key].record == rec && k <= n
    requires Waiting(s, mid, key, rec, first, 0, n)
    requires forall q :: q in s.requests ==> q < first
    ensures var end := Run(mid, Commits(first, k));
            && Waiting(s, end, key, rec, first, k, n)
            && Live(end.db, key) && end.db.rows[key].record == Guessed(key, rec, k)
  {
    hide Decide, Guess, Live, Decidable, Step;
    if k > 0 {
      CommitsRun(s, mid, key, rec, first, n, k - 1);
      var before := Run(mid, Commits(first, k - 1));
      OneFewerWaits(s, before, key, rec, first, k - 1, n);
      RunSnoc(mid, Commits(first, k - 1), Next(first + k - 1));
    }
  }

  lemma OneFewerWaits(s: State, mid: State, key: Key, rec: Record, first: nat, k: nat, n: nat)
    requires Decidable(key, rec) && Live(mid.db, key) && mid.db.rows[key].record == Guessed(key, rec, k) && k < n
    requires Waiting(s, mid, key, rec, first, k, n) && forall q :: q in s.requests ==> q < first
    ensures var end := Step(mid, Next(first + k));
            && Waiting(s, end, key, rec, first, k + 1, n)
            && Live(end.db, key) && end.db.rows[key].record == Guessed(key, rec, k + 1)
  {
    hide Decide, Guess, Live, Decidable, Step, Guessed;
    assert Waits(mid, key, rec, first, k) && mid == State(mid.db, mid.requests);
    GuessCommits(mid.db, mid.requests, first + k, key, rec, k);
    var end := Step(mid, Next(first + k));
    forall i: nat | k + 1 <= i < n ensures Waits(end, key, rec, first, i) {
      assert Waits(mid, key, rec, first, i);
    }
  }

  lemma Refuses(cmd: Command, key: Key, rec: Record, n: nat)
    requires Edits(cmd) && Decide(cmd, rec).Ok? && Decidable(key, rec) && n > 0
    ensures Decide(cmd, Guessed(key, rec, n)).Err?
    ensures Guessed(key, rec, n).version == rec.version + n
  {
    hide Decide;
    GuessDecides(key, rec, n - 1);
    RefusedElsewhere(cmd, rec, Guessed(key, rec, n));
  }

  /** The commit that the guard lets through on a row that refuses it. */
  lemma Unfaithful(s: State, r: nat)
    requires r in s.requests && s.requests[r].Checked?
    requires var cmd := s.requests[r].cmd;
             Live(s.db, cmd.key) && s.db.rows[cmd.key].record.version == cmd.expected
             && Decide(cmd, s.db.rows[cmd.key].record).Err?
    ensures !FaithfulAt(s, r)
  {
    hide Decide, LogOf;
    var phase := s.requests[r];
    assert |Commit(s.db, phase.cmd, phase.before, phase.item).value.revisions| > |s.db.revisions|;
  }

  /** From the moment a request is ready, guesses can overtake it. */
  lemma Overtaken(s: State, r: nat) returns (es: seq<Event>)
    requires Inv(s) && r in s.requests && s.requests[r].Checked?
    requires var phase := s.requests[r];
             Live(s.db, phase.cmd.key) && s.db.rows[phase.cmd.key].record == phase.before
             && phase.before.version < phase.cmd.expected
    ensures var end := Run(s, es);
            r in end.requests && end.requests[r].Checked? && !FaithfulAt(end, r)
  {
    hide Decide, Decidable, Guess, FaithfulAt, Live, Step, Guessed;
    var phase := s.requests[r];
    var key, rec := phase.cmd.key, phase.before;
    ReadyIsDecidable(s, r);
    var first := Above(s.requests.Keys);
    var n := phase.cmd.expected - rec.version;
    var mid := Run(s, Readings(key, rec, first, n));
    ReadingsRun(s, key, rec, first, n);
    CommitsRun(s, mid, key, rec, first, n, n);
    es := Readings(key, rec, first, n) + Commits(first, n);
    RunConcat(s, Readings(key, rec, first, n), Commits(first, n));
    Refuses(phase.cmd, key, rec, n);
    assert Run(s, es).requests[r] == phase;
    Unfaithful(Run(s, es), r);
  }

  lemma ReadyIsDecidable(s: State, r: nat)
    requires Inv(s) && r in s.requests && s.requests[r].Checked?
    requires Live(s.db, s.requests[r].cmd.key) && s.db.rows[s.requests[r].cmd.key].record == s.requests[r].before
    ensures Decidable(s.requests[r].cmd.key, s.requests[r].before)
    ensures Decide(s.requests[r].cmd, s.requests[r].before).Ok?
  {
    hide Decide;
    assert PhaseOk(s.db, s.requests[r]);
    DecidableStatus(s.requests[r].cmd, s.requests[r].before);
  }

  lemma ReadingSplit(s: State, r: nat, cmd: Command)
    requires r !in s.requests && Edits(cmd) && Gate(cmd) && Live(s.db, cmd.key)
    requires Decide(cmd, s.db.rows[cmd.key].record).Ok?
    ensures Run(Step(s, Begin(r, cmd)), [Next(r), Next(r)]) == Checked3(s, r, cmd, s.db.rows[cmd.key].record)
  {
    hide Decide, Gate, Step;
    ReadingRun(s, r, cmd);
    RunSnoc(s, [], Begin(r, cmd));
    RunConcat(s, [] + [Begin(r, cmd)], [Next(r), Next(r)]);
    assert Reading(r, cmd) == [] + [Begin(r, cmd)] + [Next(r), Next(r)];
  }

  /** Exactness. An edit arrives and reads its record. In every run that follows, whatever
      requests and versions the others send, its commit does what the whole request would do
      atomically, if and only if the version it sent is not ahead of the one it reads - or it
      is refused on that read, and never comes to commit. */
  lemma SafeExactlyWhenNotAhead(s: State, r: nat, cmd: Command)
    requires Inv(s) && r !in s.requests && Edits(cmd) && Gate(cmd) && Live(s.db, cmd.key)
    ensures var read := s.db.rows[cmd.key].record;
            AlwaysFaithful(Step(s, Begin(r, cmd)), r) <==> cmd.expected <= read.version || Decide(cmd, read).Err?
  {
    hide Decide, FaithfulAt, Gate, Step, LogOf;
    var read, arrived := s.db.rows[cmd.key].record, Step(s, Begin(r, cmd));
    FirstQueryStep(s, r, cmd);
    StepOk(s, Begin(r, cmd));
    if cmd.expected <= read.version || Decide(cmd, read).Err? {
      forall es | r in Run(arrived, es).requests && Run(arrived, es).requests[r].Checked?
        ensures FaithfulAt(Run(arrived, es), r)
      {
        RunReadOf(arrived, es, r, cmd, read);
        RunOk(arrived, es);
        FaithfulWhenCurrent(Run(arrived, es), r);
      }
    } else {
      ReadingRun(s, r, cmd);
      RunOk(s, Reading(r, cmd));
      var es := Overtaken(Checked3(s, r, cmd, read), r);
      ReadingSplit(s, r, cmd);
      RunConcat(arrived, [Next(r), Next(r)], es);
      assert !FaithfulAt(Run(arrived, [Next(r), Next(r)] + es), r);
    }
  }
}

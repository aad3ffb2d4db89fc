/** What an answer shows: the record as one query found it and its log as a later one did, both
    after the request arrived. */
module Answers {
  import opened Records
  import opened Transactions
  import opened Services
  import opened Protocol
  import opened Refinement
  import opened Refusals

  /** A row query of the request, at moment `k`, found this record. */
  ghost predicate ReadOnce(s: State, es: seq<Event>, r: nat, key: Key, item: Record) {
    exists k: nat :: ReadAt(s, es, k, r, key, item)
  }

  predicate ReadThen(s: State, es: seq<Event>, k: nat, l: nat, r: nat, key: Key, view: View) {
    k <= l < |es| && ReadAt(s, es, k, r, key, view.item) && view.log == LogOf(Run(s, es[..l]).db.revisions, key)
  }

  /** ... and a revision query, at the same moment or later, this log. */
  ghost predicate ReadTwice(s: State, es: seq<Event>, r: nat, key: Key, view: View) {
    exists k: nat, l: nat :: ReadThen(s, es, k, l, r, key, view)
  }

  /** The request committed its transaction on this record. */
  predicate Wrote(ops: seq<Op>, r: nat, key: Key) {
    exists i :: 0 <= i < |ops| && ops[i].Exec? && ops[i].r == r && ops[i].key == key
  }

  /** The record that an answer is about: the one asked for, or the one the request wrote. */
  predicate Concerns(s: State, es: seq<Event>, r: nat, cmd: Command, key: Key) {
    if cmd.Create? || Edits(cmd) then Wrote(Linearize(s, es), r, key) else key == cmd.key
  }

  ghost predicate Shows(s: State, es: seq<Event>, r: nat, cmd: Command, view: View) {
    exists key: Key :: Concerns(s, es, r, cmd, key) && ReadTwice(s, es, r, key, view)
  }

  ghost predicate Told(s: State, es: seq<Event>, r: nat, phase: Phase) {
    match phase
    case Loading(cmd, item) => ReadOnce(s, es, r, cmd.key, item)
    case Loaded(cmd, item, log) => ReadTwice(s, es, r, cmd.key, View(item, log))
    case Answering(cmd, key, item) => Wrote(Linearize(s, es), r, key) && ReadOnce(s, es, r, key, item)
    case Done(cmd, outcome) => outcome.Ok? && outcome.value.Shown? ==> Shows(s, es, r, cmd, outcome.value.view)
    case _ => true
  }

  lemma ReadOnceLonger(s: State, es: seq<Event>, r: nat, key: Key, item: Record)
    requires es != [] && ReadOnce(s, es[..|es| - 1], r, key, item)
    ensures ReadOnce(s, es, r, key, item)
  {
    hide Run;
    var k: nat :| ReadAt(s, es[..|es| - 1], k, r, key, item);
    Prefixes(es, k);
    assert ReadAt(s, es, k, r, key, item);
  }

  lemma ReadTwiceLonger(s: State, es: seq<Event>, r: nat, key: Key, view: View)
    requires es != [] && ReadTwice(s, es[..|es| - 1], r, key, view)
    ensures ReadTwice(s, es, r, key, view)
  {
    hide Run, LogOf;
    var k: nat, l: nat :| ReadThen(s, es[..|es| - 1], k, l, r, key, view);
    Prefixes(es, k);
    Prefixes(es, l);
    assert ReadThen(s, es, k, l, r, key, view);
  }

  lemma WroteLonger(s: State, es: seq<Event>, r: nat, key: Key)
    requires es != [] && Wrote(Linearize(s, es[..|es| - 1]), r, key)
    ensures Wrote(Linearize(s, es), r, key)
  {
    hide OpsOf;
    var ops := Linearize(s, es[..|es| - 1]);
    var i :| 0 <= i < |ops| && ops[i].Exec? && ops[i].r == r && ops[i].key == key;
    assert Linearize(s, es)[i] == ops[i];
  }

  lemma ToldLonger(s: State, es: seq<Event>, r: nat, phase: Phase)
    requires es != [] && Told(s, es[..|es| - 1], r, phase)
    ensures Told(s, es, r, phase)
  {
    hide ReadOnce, ReadTwice, Wrote, Linearize;
    match phase
    case Loading(cmd, item) => ReadOnceLonger(s, es, r, cmd.key, item);
    case Loaded(cmd, item, log) => ReadTwiceLonger(s, es, r, cmd.key, View(item, log));
    case Answering(cmd, key, item) =>
      WroteLonger(s, es, r, key);
      ReadOnceLonger(s, es, r, key, item);
    case Done(cmd, outcome) =>
      if outcome.Ok? && outcome.value.Shown? {
        var key: Key :|
          Concerns(s, es[..|es| - 1], r, cmd, key) && ReadTwice(s, es[..|es| - 1], r, key, outcome.value.view);
        ReadTwiceLonger(s, es, r, key, outcome.value.view);
        if cmd.Create? || Edits(cmd) {
          WroteLonger(s, es, r, key);
        }
      }
    case _ =>
  }

  /** A row query made by the last event. */
  lemma ReadNow(s: State, es: seq<Event>, r: nat, key: Key)
    requires es != [] && r in Run(s, es).requests && Live(Run(s, es[..|es| - 1]).db, key)
    ensures ReadOnce(s, es, r, key, Run(s, es[..|es| - 1]).db.rows[key].record)
  {
    hide Run;
    var k := |es| - 1;
    assert es[..k + 1] == es;
    assert ReadAt(s, es, k, r, key, Run(s, es[..k]).db.rows[key].record);
  }

  /** A revision query made by the last event, after an earlier row query. */
  lemma LogNow(s: State, es: seq<Event>, r: nat, key: Key, item: Record)
    requires es != [] && ReadOnce(s, es, r, key, item)
    ensures ReadTwice(s, es, r, key, View(item, LogOf(Run(s, es[..|es| - 1]).db.revisions, key)))
  {
    hide Run, LogOf;
    var k: nat :| ReadAt(s, es, k, r, key, item);
    assert ReadThen(s, es, k, |es| - 1, r, key, View(item, LogOf(Run(s, es[..|es| - 1]).db.revisions, key)));
  }

  lemma WrittenWrote(s: State, es: seq<Event>, r: nat)
    requires s.requests == map[] && r in Run(s, es).requests && Run(s, es).requests[r].Written?
    ensures Wrote(Linearize(s, es), r, Run(s, es).requests[r].key)
  {
    CommitsOnce(s, es);
    var ops := Linearize(s, es);
    var i :| 0 <= i < |ops| && ops[i].Exec? && ops[i].r == r;
    assert About(ops[i], Run(s, es).requests);
  }

  lemma OwnStepTold(s: State, es: seq<Event>, r: nat)
    requires s.requests == map[] && es != [] && es[|es| - 1] == Next(r) && r in Run(s, es[..|es| - 1]).requests
    requires Told(s, es, r, Run(s, es[..|es| - 1]).requests[r])
    ensures Told(s, es, r, Run(s, es).requests[r])
  {
    hide ReadOnce, ReadTwice, Wrote, Linearize, Decide, CreateVersion, UpdateVersion, SoftDelete, LogOf;
    var mid := Run(s, es[..|es| - 1]);
    var phase := mid.requests[r];
    assert Run(s, es) == Step(mid, Next(r));
    match phase
    case Loading(cmd, item) => LogNow(s, es, r, cmd.key, item);
    case Loaded(cmd, item, log) =>
      if cmd.Fetch? {
        assert Concerns(s, es, r, cmd, cmd.key);
      }
    case Written(cmd, key) =>
      if Live(mid.db, key) {
        WrittenWrote(s, es[..|es| - 1], r);
        WroteLonger(s, es, r, key);
        ReadNow(s, es, r, key);
      }
    case Answering(cmd, key, item) =>
      LogNow(s, es, r, key, item);
      assert Concerns(s, es, r, cmd, key);
    case _ =>
  }

  lemma {:induction false} RunTold(s: State, es: seq<Event>, r: nat)
    requires s.requests == map[] && r in Run(s, es).requests
    ensures Told(s, es, r, Run(s, es).requests[r])
  {
    hide Advance, ReadOnce, ReadTwice, Wrote, Linearize, Shows;
    var init, e := es[..|es| - 1], es[|es| - 1];
    var mid := Run(s, init);
    if r in mid.requests {
      RunTold(s, init, r);
      ToldLonger(s, es, r, mid.requests[r]);
      if e == Next(r) {
        OwnStepTold(s, es, r);
      }
    } else if !e.cmd.Create? && Live(mid.db, e.cmd.key) {
      ReadNow(s, es, r, e.cmd.key);
    }
  }

  /** Every answer with a record is what two queries of its request found, after it arrived and
      one after the other: the live row of the record asked for, or of the record that the
      request itself wrote, and then the whole log of that record. */
  lemma AnswerIsTwoQueries(s: State, es: seq<Event>, r: nat)
    requires s.requests == map[]
    requires r in Run(s, es).requests && Run(s, es).requests[r].Done? && Run(s, es).requests[r].outcome.Ok?
    requires Run(s, es).requests[r].outcome.value.Shown?
    ensures var cmd, view := Run(s, es).requests[r].cmd, Run(s, es).requests[r].outcome.value.view;
            exists key: Key, k: nat, l: nat ::
              && (if cmd.Create? || Edits(cmd) then Wrote(Linearize(s, es), r, key) else key == cmd.key)
              && ReadThen(s, es, k, l, r, key, view)
  {
    RunTold(s, es, r);
    var cmd, view := Run(s, es).requests[r].cmd, Run(s, es).requests[r].outcome.value.view;
    var key: Key :| Concerns(s, es, r, cmd, key) && ReadTwice(s, es, r, key, view);
    var k: nat, l: nat :| ReadThen(s, es, k, l, r, key, view);
  }
}

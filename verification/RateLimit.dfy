/** The fixed-window limiter of backend/internal/middleware/ratelimit.go: a shared counter that
    may fail at any call, and a local map of buckets, pruned when it grows, that takes over
    for the calls on which the shared counter failed. A request is one or two counter events
    and a verdict; the events of other requests may come between them. */
module RateLimit {

  /** Windows are minutes, numbered; a window is the minute its instant falls in. */
  type Window = int

  const NANOS_PER_MINUTE := 60_000_000_000

  /** How long the shared store keeps a counter after its last increment. */
  const LIFETIME := 2 * NANOS_PER_MINUTE

  function WindowOf(instant: int): Window {
    instant / NANOS_PER_MINUTE
  }

  /** Windows are the minutes of the clock, and the store keeps a counter for two of them. */
  lemma WindowsAreMinutes(instant: int, w: Window)
    ensures WindowOf(instant) == w <==> w * 60_000_000_000 <= instant < (w + 1) * 60_000_000_000
    ensures LIFETIME == 120_000_000_000
  {
  }

  /** One call that a counter has counted. */
  datatype Hit = Hit(window: Window, key: string)

  /** The reference counter: how often a key was hit in a window, with nothing ever deleted. */
  function CountHits(hits: seq<Hit>, hit: Hit): nat {
    if hits == [] then 0
    else CountHits(hits[..|hits| - 1], hit) + (if hits[|hits| - 1] == hit then 1 else 0)
  }

  lemma CountHitsAppend(hits: seq<Hit>, last: Hit, hit: Hit)
    ensures CountHits(hits + [last], hit) == CountHits(hits, hit) + (if last == hit then 1 else 0)
  {
    assert (hits + [last])[..|hits|] == hits;
  }

  lemma CountHitsGrow(hits: seq<Hit>, last: Hit)
    ensures forall hit :: CountHits(hits, hit) <= CountHits(hits + [last], hit)
  {
    forall hit ensures CountHits(hits, hit) <= CountHits(hits + [last], hit) {
      CountHitsAppend(hits, last, hit);
    }
  }

  lemma {:induction false} CountHitsZero(hits: seq<Hit>, hit: Hit)
    requires hit !in hits
    ensures CountHits(hits, hit) == 0
  {
    if hits != [] {
      assert hits[|hits| - 1] in hits;
      CountHitsZero(hits[..|hits| - 1], hit);
    }
  }

  datatype Backend = Shared | Local

  /** The count that one request got from one counter: what its verdict will be based on. */
  datatype Ticket = Ticket(backend: Backend, hit: Hit, count: nat)

  /** How many verdicts on a counter's tickets for one key and window admitted the request. */
  function Admitted(judged: seq<Ticket>, limit: int, backend: Backend, hit: Hit): nat {
    if judged == [] then 0
    else
      var last := judged[|judged| - 1];
      Admitted(judged[..|judged| - 1], limit, backend, hit)
      + (if last.backend == backend && last.hit == hit && last.count <= limit then 1 else 0)
  }

  lemma AdmittedAppend(judged: seq<Ticket>, last: Ticket, limit: int, backend: Backend, hit: Hit)
    ensures Admitted(judged + [last], limit, backend, hit)
         == Admitted(judged, limit, backend, hit)
            + (if last.backend == backend && last.hit == hit && last.count <= limit then 1 else 0)
  {
    assert (judged + [last])[..|judged|] == judged;
  }

  /** The counts on which they were admitted. */
  function AdmittedCounts(judged: seq<Ticket>, limit: int, backend: Backend, hit: Hit): set<nat> {
    set t | t in judged && t.backend == backend && t.hit == hit && t.count <= limit :: t.count
  }

  ghost predicate Distinct(judged: seq<Ticket>, backend: Backend) {
    forall i, j :: 0 <= i < j < |judged| && judged[i].backend == backend ==> judged[i] != judged[j]
  }

  lemma OneMoreCount(judged: seq<Ticket>, last: Ticket, limit: int, backend: Backend, hit: Hit)
    requires last.backend == backend ==> last !in judged
    ensures var counts := AdmittedCounts(judged, limit, backend, hit);
            if last.backend == backend && last.hit == hit && last.count <= limit then
              last.count !in counts && AdmittedCounts(judged + [last], limit, backend, hit) == counts + {last.count}
            else
              AdmittedCounts(judged + [last], limit, backend, hit) == counts
  {
    forall t ensures t in judged + [last] <==> t in judged || t == last {
    }
  }

  lemma {:induction false} AdmittedOnDistinctCounts(judged: seq<Ticket>, limit: int, backend: Backend, hit: Hit)
    requires Distinct(judged, backend)
    ensures Admitted(judged, limit, backend, hit) == |AdmittedCounts(judged, limit, backend, hit)|
  {
    hide AdmittedCounts;
    if judged == [] {
      NoCounts(limit, backend, hit);
    } else {
      var init, last := judged[..|judged| - 1], judged[|judged| - 1];
      AdmittedOnDistinctCounts(init, limit, backend, hit);
      assert judged == init + [last];
      OneMoreCount(init, last, limit, backend, hit);
    }
  }

  lemma NoCounts(limit: int, backend: Backend, hit: Hit)
    ensures AdmittedCounts([], limit, backend, hit) == {}
  {
  }

  lemma {:induction false} AtMost(counts: set<nat>, limit: nat)
    requires forall count :: count in counts ==> 1 <= count <= limit
    ensures |counts| <= limit
  {
    if limit == 0 {
      assert counts == {};
    } else {
      AtMost(counts - {limit}, limit - 1);
      assert |counts| <= |counts - {limit}| + 1;
    }
  }

  /** What the shared store does on one call: it may be unreachable, it may count and then
      fail to answer, or it may answer. */
  datatype Health = Unreachable | LostAnswer | Healthy

  datatype Bucket = Bucket(window: Window, count: nat)

  /** Every bucket counts the hits of its window, and each key that was hit in the newest
      window has a bucket for it. */
  ghost predicate Exact(local: map<string, Bucket>, newest: Window, hits: seq<Hit>) {
    && (forall key :: key in local ==> local[key].window <= newest)
    && (forall hit :: hit in hits ==> hit.window <= newest)
    && (forall key :: key in local ==> CountHits(hits, Hit(local[key].window, key)) == local[key].count)
    && (forall key :: CountHits(hits, Hit(newest, key)) > 0 ==> key in local && local[key].window == newest)
  }

  lemma ExactLater(local: map<string, Bucket>, newest: Window, hits: seq<Hit>, now: Window)
    requires Exact(local, newest, hits) && newest <= now
    ensures Exact(local, now, hits)
  {
    if newest < now {
      forall key ensures CountHits(hits, Hit(now, key)) == 0 {
        CountHitsZero(hits, Hit(now, key));
      }
    }
  }

  /** Dropping buckets of past windows loses nothing that a later count needs. */
  lemma ExactPruned(local: map<string, Bucket>, kept: map<string, Bucket>, now: Window, hits: seq<Hit>)
    requires Exact(local, now, hits)
    requires forall key :: key in kept ==> key in local && kept[key] == local[key]
    requires forall key :: key in local && local[key].window >= now ==> key in kept
    ensures Exact(kept, now, hits)
  {
  }

  /** The count held for a key in the current window. */
  function Held(local: map<string, Bucket>, now: Window, key: string): nat {
    if key in local && local[key].window == now then local[key].count else 0
  }

  lemma HeldIsCount(local: map<string, Bucket>, now: Window, hits: seq<Hit>, key: string)
    requires Exact(local, now, hits)
    ensures Held(local, now, key) == CountHits(hits, Hit(now, key))
  {
  }

  lemma ExactHit(local: map<string, Bucket>, now: Window, hits: seq<Hit>, key: string)
    requires Exact(local, now, hits)
    ensures Held(local, now, key) == CountHits(hits, Hit(now, key))
    ensures Exact(local[key := Bucket(now, Held(local, now, key) + 1)], now, hits + [Hit(now, key)])
    ensures CountHits(hits + [Hit(now, key)], Hit(now, key)) == CountHits(hits, Hit(now, key)) + 1
  {
    hide CountHits, Held;
    HeldIsCount(local, now, hits, key);
    var local' := local[key := Bucket(now, Held(local, now, key) + 1)];
    forall k
      ensures k in local' ==> CountHits(hits + [Hit(now, key)], Hit(local'[k].window, k)) == local'[k].count
      ensures CountHits(hits + [Hit(now, key)], Hit(now, k)) > 0 ==> k in local' && local'[k].window == now
    {
      CountHitsAppend(hits, Hit(now, key), Hit(now, k));
      if k in local' {
        CountHitsAppend(hits, Hit(now, key), Hit(local'[k].window, k));
      }
    }
  }

  /** A counter of the shared store, and the instant from which it is gone. */
  datatype Counter = Counter(count: nat, expires: int)

  /** What a command that reaches the store at this instant finds. */
  function Found(shared: map<Hit, Counter>, hit: Hit, at: int): nat {
    if hit in shared && at < shared[hit].expires then shared[hit].count else 0
  }

  /** The store after the counters that have run out are gone. */
  function Unexpired(shared: map<Hit, Counter>, at: int): map<Hit, Counter> {
    map hit | hit in shared && at < shared[hit].expires :: shared[hit]
  }

  /** The instant from which no call that reads its clock in the window reaches the store any
      more within a minute of the reading. */
  function Closed(hit: Hit): int {
    (hit.window + 2) * NANOS_PER_MINUTE
  }

  /** Until then, the store holds the reference count, for at least as long. */
  ghost predicate Kept(shared: map<Hit, Counter>, clock: int, hits: seq<Hit>) {
    forall hit :: clock < Closed(hit) ==>
      if CountHits(hits, hit) == 0 then hit !in shared
      else hit in shared && shared[hit].count == CountHits(hits, hit) && Closed(hit) <= shared[hit].expires
  }

  /** Every ticket of a counter was issued for a different hit of it, and is judged once. */
  ghost predicate Issued(backend: Backend, judged: seq<Ticket>, pending: set<Ticket>, hits: seq<Hit>) {
    && Distinct(judged, backend)
    && (forall t :: t in judged && t.backend == backend ==> t !in pending)
    && (forall t :: (t in judged || t in pending) && t.backend == backend ==> 1 <= t.count <= CountHits(hits, t.hit))
  }

  /** Counting more keeps the tickets good. */
  lemma IssuedCounting(backend: Backend, judged: seq<Ticket>, pending: set<Ticket>, hits: seq<Hit>, hit: Hit)
    requires Issued(backend, judged, pending, hits)
    ensures Issued(backend, judged, pending, hits + [hit])
  {
    hide CountHits;
    CountHitsGrow(hits, hit);
  }

  /** A hit gives a ticket that no request has. */
  lemma IssuedTicket(judged: seq<Ticket>, pending: set<Ticket>, hits: seq<Hit>, ticket: Ticket)
    requires Issued(ticket.backend, judged, pending, hits) && ticket.count == CountHits(hits, ticket.hit) + 1
    ensures ticket !in pending
    ensures Issued(ticket.backend, judged, pending + {ticket}, hits + [ticket.hit])
  {
    hide CountHits;
    IssuedCounting(ticket.backend, judged, pending, hits, ticket.hit);
    CountHitsAppend(hits, ticket.hit, ticket.hit);
  }

  /** What the local counter does on one call, after the pruning. */
  lemma LocalCall(local: map<string, Bucket>, kept: map<string, Bucket>, newest: Window, now: Window, hits: seq<Hit>,
                  key: string, judged: seq<Ticket>, pending: set<Ticket>)
    requires Exact(local, newest, hits) && newest <= now && Issued(Local, judged, pending, hits)
    requires forall k :: k in kept ==> k in local && kept[k] == local[k]
    requires forall k :: k in local && local[k].window >= now ==> k in kept
    ensures var hit, count := Hit(now, key), Held(kept, now, key) + 1;
            && count == CountHits(hits, hit) + 1 == CountHits(hits + [hit], hit)
            && Exact(kept[key := Bucket(now, count)], now, hits + [hit])
            && Ticket(Local, hit, count) !in pending
            && Issued(Local, judged, pending + {Ticket(Local, hit, count)}, hits + [hit])
  {
    hide CountHits, Exact, Issued, Held;
    ExactLater(local, newest, hits, now);
    ExactPruned(local, kept, now, hits);
    ExactHit(kept, now, hits, key);
    IssuedTicket(judged, pending, hits, Ticket(Local, Hit(now, key), Held(kept, now, key) + 1));
  }

  /** A ticket of one counter is nothing to the other. */
  lemma IssuedElsewhere(backend: Backend, judged: seq<Ticket>, pending: set<Ticket>, hits: seq<Hit>, ticket: Ticket)
    requires Issued(backend, judged, pending, hits) && ticket.backend != backend
    ensures Issued(backend, judged, pending + {ticket}, hits)
  {
  }

  /** A call that reaches the store within a minute of reading its clock never meets a counter
      that has run out: it finds the reference count, and leaves the store keeping it. */
  lemma PromptCall(shared: map<Hit, Counter>, clock: int, hits: seq<Hit>, key: string, read: int, arrives: int)
    requires Kept(shared, clock, hits) && clock <= arrives && read <= arrives <= read + NANOS_PER_MINUTE
    ensures var hit := Hit(WindowOf(read), key);
            && Found(shared, hit, arrives) == CountHits(hits, hit)
            && Kept(Unexpired(shared, arrives)[hit := Counter(CountHits(hits, hit) + 1, arrives + LIFETIME)],
                    arrives, hits + [hit])
  {
    hide CountHits;
    var hit := Hit(WindowOf(read), key);
    assert arrives < Closed(hit) <= arrives + LIFETIME;
    forall other ensures CountHits(hits + [hit], other) == CountHits(hits, other) + (if hit == other then 1 else 0) {
      CountHitsAppend(hits, hit, other);
    }
  }

  /** ... and its ticket is its own, whether or not the call learns of it. */
  lemma SharedCall(shared: map<Hit, Counter>, clock: int, hits: seq<Hit>, key: string, read: int, arrives: int,
                   judged: seq<Ticket>, pending: set<Ticket>)
    requires Kept(shared, clock, hits) && Issued(Shared, judged, pending, hits)
    requires clock <= arrives && read <= arrives <= read + NANOS_PER_MINUTE
    ensures var hit := Hit(WindowOf(read), key);
            var count := Found(shared, hit, arrives) + 1;
            && count == CountHits(hits, hit) + 1 == CountHits(hits + [hit], hit)
            && Kept(Unexpired(shared, arrives)[hit := Counter(count, arrives + LIFETIME)], arrives, hits + [hit])
            && Ticket(Shared, hit, count) !in pending
            && Issued(Shared, judged, pending, hits + [hit])
            && Issued(Shared, judged, pending + {Ticket(Shared, hit, count)}, hits + [hit])
  {
    hide CountHits, Kept, Issued, WindowOf, Found;
    var hit := Hit(WindowOf(read), key);
    PromptCall(shared, clock, hits, key, read, arrives);
    CountHitsAppend(hits, hit, hit);
    IssuedCounting(Shared, judged, pending, hits, hit);
    IssuedTicket(judged, pending, hits, Ticket(Shared, hit, Found(shared, hit, arrives) + 1));
  }

  class Limiter {
    const limit: int
    var local: map<string, Bucket>
    var shared: map<Hit, Counter>
    /** The newest window the local counter has seen, and the last instant of the shared store. */
    ghost var newest: Window
    ghost var clock: int
    ghost var localHits: seq<Hit>
    ghost var sharedHits: seq<Hit>
    /** Every call so far reached the shared store within a minute of reading its clock. */
    ghost var prompt: bool
    /** The requests between their count and their verdict, and those that have had it. */
    ghost var pending: set<Ticket>
    ghost var judged: seq<Ticket>

    ghost predicate LocalExact()
      reads this
    {
      Exact(local, newest, localHits) && Issued(Local, judged, pending, localHits)
    }

    ghost predicate SharedExact()
      reads this
    {
      Kept(shared, clock, sharedHits) && Issued(Shared, judged, pending, sharedHits)
    }

    ghost predicate Valid()
      reads this
    {
      LocalExact() && (prompt ==> SharedExact())
    }

    constructor (limit: int, ghost start: Window, ghost clock: int)
      ensures Valid() && prompt && this.limit == limit && newest == start && this.clock == clock
      ensures local == map[] && shared == map[] && localHits == [] && sharedHits == []
      ensures judged == [] && pending == {}
    {
      this.limit := limit;
      local, shared := map[], map[];
      this.clock, prompt := clock, true;
      newest, localHits, sharedHits, judged, pending := start, [], [], [], {};
    }

    /** Drops the buckets of past windows once there are 512 or more. */
    method CleanupLocal(currentWindow: Window)
      modifies this`local
      ensures forall key :: key in local ==> key in old(local) && local[key] == old(local)[key]
      ensures forall key :: key in old(local) && old(local)[key].window >= currentWindow ==> key in local
      ensures |old(local)| < 512 ==> local == old(local)
      ensures |old(local)| >= 512 ==> forall key :: key in local ==> local[key].window >= currentWindow
    {
      if |local| < 512 {
        return;
      }
      var todo := local.Keys;
      while todo != {}
        invariant todo <= local.Keys <= old(local).Keys
        invariant forall key :: key in local ==> local[key] == old(local)[key]
        invariant forall key :: key in old(local) && old(local)[key].window >= currentWindow ==> key in local
        invariant forall key :: key in local && key !in todo ==> local[key].window >= currentWindow
        decreases todo
      {
        var key :| key in todo;
        todo := todo - {key};
        if local[key].window < currentWindow {
          local := local - {key};
        }
      }
    }

    /** Pruning is invisible: with a clock that does not go back, the count returned is the
        reference count of this key in this window, the present call included. */
    method IncrementLocal(key: string, now: Window) returns (count: nat)
      requires Valid() && now >= newest
      modifies this`local, this`newest, this`localHits, this`pending
      ensures Valid()
      ensures localHits == old(localHits) + [Hit(now, key)] && newest == now
      ensures count == CountHits(localHits, Hit(now, key)) == CountHits(old(localHits), Hit(now, key)) + 1
      ensures Ticket(Local, Hit(now, key), count) !in old(pending)
      ensures pending == old(pending) + {Ticket(Local, Hit(now, key), count)}
    {
      hide CountHits, Exact, Kept, Issued;
      CleanupLocal(now);
      LocalCall(old(local), local, newest, now, localHits, key, judged, pending);
      if prompt {
        IssuedElsewhere(Shared, judged, pending, sharedHits, Ticket(Local, Hit(now, key), Held(local, now, key) + 1));
      }
      var value := if key in local then local[key] else Bucket(now, 0);
      if value.window != now {
        value := Bucket(now, 0);
      }
      value := value.(count := value.count + 1);
      local := local[key := value];
      localHits, newest := localHits + [Hit(now, key)], now;
      count := value.count;
      pending := pending + {Ticket(Local, Hit(now, key), count)};
    }

    /** The shared store drops the counters that nobody has incremented for two minutes. */
    method Expire(at: int)
      requires Valid() && clock <= at
      modifies this`shared, this`clock
      ensures Valid() && clock == at && shared == Unexpired(old(shared), at)
    {
      hide CountHits, Exact, Issued;
      shared := Unexpired(shared, at);
      clock := at;
    }

    /** The two commands of the pipeline, which the store runs as one. */
    method IncrAndExpire(hit: Hit, at: int) returns (count: nat)
      modifies this`shared
      ensures count == Found(old(shared), hit, at) + 1
      ensures shared == Unexpired(old(shared), at)[hit := Counter(count, at + LIFETIME)]
    {
      shared := Unexpired(shared, at);
      count := (if hit in shared then shared[hit].count else 0) + 1;
      shared := shared[hit := Counter(count, at + LIFETIME)];
    }

    /** The shared counter, read at one instant and reached at another. An error tells the
        caller nothing about whether it has counted. An answer is one more than what the store
        held, which is the reference count as long as every call is prompt. */
    method Increment(key: string, read: int, arrives: int, health: Health) returns (answer: int)
      requires Valid() && clock <= arrives && read <= arrives
      modifies this`shared, this`sharedHits, this`pending, this`prompt, this`clock
      ensures Valid()
      ensures prompt == (old(prompt) && (health == Unreachable || arrives <= read + NANOS_PER_MINUTE))
      ensures clock == if health == Unreachable then old(clock) else arrives
      ensures var hit := Hit(WindowOf(read), key);
              var count := Found(old(shared), hit, arrives) + 1;
              && sharedHits == old(sharedHits) + (if health == Unreachable then [] else [hit])
              && shared == (if health == Unreachable then old(shared)
                            else Unexpired(old(shared), arrives)[hit := Counter(count, arrives + LIFETIME)])
              && answer == (if health == Healthy then count else -1)
              && pending == old(pending) + (if health == Healthy then {Ticket(Shared, hit, count)} else {})
              && (prompt && health != Unreachable ==>
                    count == CountHits(sharedHits, hit) == CountHits(old(sharedHits), hit) + 1
                    && Ticket(Shared, hit, count) !in old(pending))
    {
      hide CountHits, Exact, Kept, Issued, WindowOf, Found, Unexpired;
      if health == Unreachable {
        return -1;
      }
      var hit := Hit(WindowOf(read), key);
      ghost var count := Found(shared, hit, arrives) + 1;
      IssuedElsewhere(Local, judged, pending, localHits, Ticket(Shared, hit, count));
      if prompt && arrives <= read + NANOS_PER_MINUTE {
        SharedCall(shared, clock, sharedHits, key, read, arrives, judged, pending);
      }
      prompt := prompt && arrives <= read + NANOS_PER_MINUTE;
      var stored := IncrAndExpire(hit, arrives);
      clock, sharedHits := arrives, sharedHits + [hit];
      if health == Healthy {
        answer := stored;
        pending := pending + {Ticket(Shared, hit, stored)};
      } else {
        answer := -1;
      }
    }

    /** The verdict on a request, any time after its count. */
    method Judge(backend: Backend, hit: Hit, count: nat) returns (admitted: bool)
      requires Valid() && Ticket(backend, hit, count) in pending
      modifies this`pending, this`judged
      ensures Valid()
      ensures admitted <==> count <= limit
      ensures judged == old(judged) + [Ticket(backend, hit, count)]
      ensures pending == old(pending) - {Ticket(backend, hit, count)}
    {
      hide CountHits, Exact, Kept;
      admitted := !(count > limit);
      judged := judged + [Ticket(backend, hit, count)];
      pending := pending - {Ticket(backend, hit, count)};
    }

    /** One request through the middleware, with no other between its events. The two clock
        readings may fall in different minutes; `health` is whatever the shared store does on
        this call. The request is judged on exactly one counter. */
    method Handle(key: string, read: int, arrives: int, localNow: int, health: Health) returns (admitted: bool)
      requires Valid() && clock <= arrives && read <= arrives && newest <= WindowOf(localNow)
      modifies this
      ensures Valid()
      ensures prompt == (old(prompt) && (health == Unreachable || arrives <= read + NANOS_PER_MINUTE))
      ensures var hit := Hit(WindowOf(if health == Healthy then read else localNow), key);
              var count := if health == Healthy then Found(old(shared), hit, arrives) + 1
                           else CountHits(old(localHits), hit) + 1;
              && (admitted <==> count <= limit)
              && judged == old(judged) + [Ticket(if health == Healthy then Shared else Local, hit, count)]
              && (prompt && health == Healthy ==> count == CountHits(old(sharedHits), hit) + 1)
      ensures prompt || health != Healthy ==> pending == old(pending)
      ensures localHits == old(localHits) + (if health == Healthy then [] else [Hit(WindowOf(localNow), key)])
      ensures sharedHits == old(sharedHits) + (if health == Unreachable then [] else [Hit(WindowOf(read), key)])
      ensures clock == (if health == Unreachable then old(clock) else arrives)
      ensures newest == (if health == Healthy then old(newest) else WindowOf(localNow))
      ensures health == Healthy ==>
                shared == Unexpired(old(shared), arrives)[
                  Hit(WindowOf(read), key) :=
                    Counter(Found(old(shared), Hit(WindowOf(read), key), arrives) + 1, arrives + LIFETIME)]
    {
      hide CountHits, Exact, Kept, Issued;
      var answer := Increment(key, read, arrives, health);
      if answer < 0 {
        var window := WindowOf(localNow);
        var count := IncrementLocal(key, window);
        admitted := Judge(Local, Hit(window, key), count);
      } else {
        admitted := Judge(Shared, Hit(WindowOf(read), key), answer);
      }
      assert prompt || health != Healthy ==> pending == old(pending);
    }
  }

  /** The minute is sharp: for every longer stall there is a run in which all calls but the
      stalled one reach the store at once, and one counter admits more than the limit. */
  method StallOvershoots(limit: nat, key: string, stall: int) returns (limiter: Limiter)
    requires limit >= 1 && stall > NANOS_PER_MINUTE
    ensures fresh(limiter) && limiter.limit == limit && limiter.Valid()
    ensures Admitted(limiter.judged, limit, Shared, Hit(0, key)) == limit + 1
  {
    hide CountHits, Exact, Kept, Issued;
    var hit := Hit(0, key);
    limiter := new Limiter(limit, 0, 0);
    for i := 0 to limit
      invariant limiter.Valid() && limiter.limit == limit && limiter.clock == 0 && limiter.newest == 0
      invariant limiter.prompt && fresh(limiter)
      invariant Found(limiter.shared, hit, 0) == i && (i > 0 ==> limiter.shared[hit].expires == LIFETIME)
      invariant i > 0 ==> hit in limiter.shared
      invariant i == 0 ==> limiter.shared == map[]
      invariant Admitted(limiter.judged, limit, Shared, hit) == i
    {
      ghost var before := limiter.judged;
      var _ := limiter.Handle(key, 0, 0, 0, Healthy);
      AdmittedAppend(before, Ticket(Shared, hit, i + 1), limit, Shared, hit);
    }
    ghost var before := limiter.judged;
    var read := NANOS_PER_MINUTE - 1;
    assert WindowOf(read) == 0;
    var _ := limiter.Handle(key, read, read + stall, read, Healthy);
    AdmittedAppend(before, Ticket(Shared, hit, 1), limit, Shared, hit);
  }

  // What the invariant bounds.

  /** Neither counter has admitted more than `cap` requests for any key and window. */
  ghost predicate EachWithin(judged: seq<Ticket>, limit: int, cap: nat) {
    forall backend, hit :: Admitted(judged, limit, backend, hit) <= cap
  }

  /** Admitted requests of a key judged, on either counter, in the windows from..to. */
  function AdmittedIn(judged: seq<Ticket>, limit: int, key: string, from: Window, to: Window): nat {
    if judged == [] then 0
    else
      var last := judged[|judged| - 1];
      AdmittedIn(judged[..|judged| - 1], limit, key, from, to)
      + (if last.count <= limit && last.hit.key == key && from <= last.hit.window <= to then 1 else 0)
  }

  lemma {:induction false} AdmittedInOne(judged: seq<Ticket>, limit: int, key: string, w: Window)
    ensures AdmittedIn(judged, limit, key, w, w)
         == Admitted(judged, limit, Shared, Hit(w, key)) + Admitted(judged, limit, Local, Hit(w, key))
  {
    if judged != [] {
      AdmittedInOne(judged[..|judged| - 1], limit, key, w);
    }
  }

  lemma {:induction false} AdmittedInSplit(judged: seq<Ticket>, limit: int, key: string,
                                           from: Window, mid: Window, to: Window)
    requires from <= mid <= to
    ensures AdmittedIn(judged, limit, key, from, to)
         == AdmittedIn(judged, limit, key, from, mid) + AdmittedIn(judged, limit, key, mid + 1, to)
  {
    if judged != [] {
      AdmittedInSplit(judged[..|judged| - 1], limit, key, from, mid, to);
    }
  }

  /** Failover bound: whatever the pattern of failures, at most twice the limit is admitted
      per key and window, and at most four times the limit is judged in the windows that an
      interval of sixty seconds meets. */
  lemma FailoverBound(judged: seq<Ticket>, limit: int, cap: nat, key: string, start: int)
    requires EachWithin(judged, limit, cap)
    ensures forall w :: AdmittedIn(judged, limit, key, w, w) <= 2 * cap
    ensures AdmittedIn(judged, limit, key, WindowOf(start), WindowOf(start + NANOS_PER_MINUTE - 1)) <= 4 * cap
  {
    forall w ensures AdmittedIn(judged, limit, key, w, w) <= 2 * cap {
      AdmittedInOne(judged, limit, key, w);
    }
    var from, to := WindowOf(start), WindowOf(start + NANOS_PER_MINUTE - 1);
    assert from <= to <= from + 1;
    if from < to {
      AdmittedInSplit(judged, limit, key, from, from, to);
    }
  }

  /** The local counter keeps its limit in every state of the limiter, however the counts,
      failures, expiries and verdicts of its requests interleave; the shared one does while
      every call is prompt, and then so do both together. */
  lemma ValidLimiterBounds(limiter: Limiter, key: string, start: int)
    requires limiter.Valid()
    ensures var cap, judged := (if limiter.limit < 0 then 0 else limiter.limit), limiter.judged;
            && (forall hit :: Admitted(judged, limiter.limit, Local, hit) <= cap)
            && (limiter.prompt ==>
                  && EachWithin(judged, limiter.limit, cap)
                  && (forall w :: AdmittedIn(judged, limiter.limit, key, w, w) <= 2 * cap)
                  && AdmittedIn(judged, limiter.limit, key,
                                WindowOf(start), WindowOf(start + NANOS_PER_MINUTE - 1)) <= 4 * cap)
  {
    hide CountHits, Admitted, AdmittedIn, WindowOf, Exact, Kept;
    var cap := if limiter.limit < 0 then 0 else limiter.limit;
    forall backend, hit ensures backend == Local || limiter.prompt ==>
                                  Admitted(limiter.judged, limiter.limit, backend, hit) <= cap {
      if backend == Local || limiter.prompt {
        AdmittedOnDistinctCounts(limiter.judged, limiter.limit, backend, hit);
        AtMost(AdmittedCounts(limiter.judged, limiter.limit, backend, hit), cap);
      }
    }
    if limiter.prompt {
      FailoverBound(limiter.judged, limiter.limit, cap, key, start);
    }
  }
}

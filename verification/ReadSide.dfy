/** The read side of backend/internal/repository: paging, counting by status, and the loop that
    attaches revisions to the items of a page. SQL sorting and grouping are described by what
    they return, not by how the database computes it. */
module ReadSide {
  import opened Records
  import opened Statuses
  import opened Invariants

  // Sorted sequences.

  ghost predicate StrictOrder<T(!new)>(less: (T, T) -> bool) {
    && (forall x :: !less(x, x))
    && (forall x, y, z :: less(x, y) && less(y, z) ==> less(x, z))
  }

  ghost predicate Sorted<T>(less: (T, T) -> bool, s: seq<T>) {
    forall i, j :: 0 <= i < j < |s| ==> less(s[i], s[j])
  }

  lemma MultisetLast<T>(s: seq<T>)
    requires s != []
    ensures multiset(s) == multiset(s[..|s| - 1]) + multiset{s[|s| - 1]}
  {
    assert s == s[..|s| - 1] + [s[|s| - 1]];
  }

  lemma SameLast<T>(a: seq<T>, b: seq<T>)
    requires a != [] && b != [] && a[|a| - 1] == b[|b| - 1] && multiset(a) == multiset(b)
    ensures multiset(a[..|a| - 1]) == multiset(b[..|b| - 1])
  {
    MultisetLast(a);
    MultisetLast(b);
    assert multiset(a[..|a| - 1]) == multiset(a) - multiset{a[|a| - 1]};
  }

  lemma SameLength<T>(a: seq<T>, b: seq<T>)
    requires multiset(a) == multiset(b)
    ensures |a| == |b|
  {
    assert |a| == |multiset(a)|;
  }

  lemma IndexOf<T>(a: seq<T>, b: seq<T>, i: nat) returns (j: nat)
    requires multiset(a) == multiset(b) && i < |a|
    ensures j < |b| && b[j] == a[i]
  {
    assert a[i] in multiset(a);
    j :| 0 <= j < |b| && b[j] == a[i];
  }

  lemma LastIsGreatest<T(!new)>(less: (T, T) -> bool, a: seq<T>, b: seq<T>)
    requires StrictOrder(less) && Sorted(less, a) && Sorted(less, b)
    requires multiset(a) == multiset(b) && a != [] && b != []
    ensures a[|a| - 1] == b[|b| - 1]
  {
    var j := IndexOf(a, b, |a| - 1);
    var i := IndexOf(b, a, |b| - 1);
    assert j < |b| - 1 ==> less(b[j], b[|b| - 1]);
    assert i < |a| - 1 ==> less(a[i], a[|a| - 1]);
  }

  /** A set of rows has one sorted listing. */
  lemma {:induction false} SortedUnique<T(!new)>(less: (T, T) -> bool, a: seq<T>, b: seq<T>)
    requires StrictOrder(less) && Sorted(less, a) && Sorted(less, b) && multiset(a) == multiset(b)
    ensures a == b
  {
    SameLength(a, b);
    if a != [] {
      LastIsGreatest(less, a, b);
      SameLast(a, b);
      SortedUnique(less, a[..|a| - 1], b[..|b| - 1]);
      assert a == a[..|a| - 1] + [a[|a| - 1]] && b == b[..|b| - 1] + [b[|b| - 1]];
    }
  }

  // Paging.

  /** A live row as a list query sees it. */
  datatype Item = Item(id: nat, updatedAt: int, status: Status, text: string)

  datatype StatusFilter = AnyStatus | Only(status: Status)

  /** `found` is the search condition on code and name; an empty search finds everything. */
  predicate Matches(item: Item, found: Item -> bool, filter: StatusFilter) {
    found(item) && (filter.Only? ==> item.status == filter.status)
  }

  /** The rows a query selects, in table order. */
  function Select(table: seq<Item>, found: Item -> bool, filter: StatusFilter): seq<Item> {
    if table == [] then []
    else
      var rest, last := Select(table[..|table| - 1], found, filter), table[|table| - 1];
      if Matches(last, found, filter) then rest + [last] else rest
  }

  /** ORDER BY updated_at DESC, id DESC. */
  predicate NewerFirst(a: Item, b: Item) {
    a.updatedAt > b.updatedAt || (a.updatedAt == b.updatedAt && a.id > b.id)
  }

  /** What the database answers to the ordered query: the selected rows, each once, sorted. */
  ghost predicate ListingOf(listing: seq<Item>, table: seq<Item>, found: Item -> bool, filter: StatusFilter) {
    multiset(listing) == multiset(Select(table, found, filter)) && Sorted(NewerFirst, listing)
  }

  lemma NewerFirstIsStrict()
    ensures StrictOrder(NewerFirst)
  {
  }

  /** The listing is determined by the table and the query. */
  lemma ListingUnique(a: seq<Item>, b: seq<Item>, table: seq<Item>, found: Item -> bool, filter: StatusFilter)
    requires ListingOf(a, table, found, filter) && ListingOf(b, table, found, filter)
    ensures a == b
  {
    NewerFirstIsStrict();
    SortedUnique(NewerFirst, a, b);
  }

  method NormalizePage(page: int, pageSize: int) returns (page': nat, pageSize': nat)
    ensures page' == if page < 1 then 1 else page
    ensures 1 <= pageSize' <= 100
    ensures pageSize' == if pageSize < 1 then 20 else if pageSize > 100 then 100 else pageSize
  {
    var p, s := page, pageSize;
    if p < 1 {
      p := 1;
    }
    if s < 1 {
      s := 20;
    }
    if s > 100 {
      s := 100;
    }
    page', pageSize' := p, s;
  }

  function Min(a: nat, b: nat): nat {
    if a <= b then a else b
  }

  /** OFFSET (page - 1) * size LIMIT size. */
  function PageOf(listing: seq<Item>, page: nat, size: nat): seq<Item>
    requires page >= 1
  {
    listing[Min((page - 1) * size, |listing|)..][..Min(size, |listing| - Min((page - 1) * size, |listing|))]
  }

  function FirstPages(listing: seq<Item>, size: nat, n: nat): seq<Item> {
    if n == 0 then [] else FirstPages(listing, size, n - 1) + PageOf(listing, n, size)
  }

  lemma PageAt(listing: seq<Item>, page: nat, size: nat, from: nat)
    requires page >= 1 && from == (page - 1) * size
    ensures PageOf(listing, page, size) == listing[Min(from, |listing|)..Min(from + size, |listing|)]
  {
  }

  lemma Joined(listing: seq<Item>, from: nat, to: nat)
    requires from <= to <= |listing|
    ensures listing[..from] + listing[from..to] == listing[..to]
  {
  }

  lemma {:induction false} FirstPagesArePrefix(listing: seq<Item>, size: nat, n: nat)
    ensures FirstPages(listing, size, n) == listing[..Min(n * size, |listing|)]
  {
    if n > 0 {
      hide PageOf;
      FirstPagesArePrefix(listing, size, n - 1);
      var from := (n - 1) * size;
      assert n * size == from + size;
      PageAt(listing, n, size, from);
      Joined(listing, Min(from, |listing|), Min(from + size, |listing|));
    }
  }

  /** Pages partition the listing: one after the other, enough pages give every selected row
      exactly once, in order, with no gap and no repeat. */
  lemma PagesPartition(listing: seq<Item>, table: seq<Item>, found: Item -> bool, filter: StatusFilter,
                       size: nat, n: nat)
    requires ListingOf(listing, table, found, filter) && n * size >= |listing|
    ensures FirstPages(listing, size, n) == listing
    ensures multiset(FirstPages(listing, size, n)) == multiset(Select(table, found, filter))
  {
    FirstPagesArePrefix(listing, size, n);
    assert listing[..|listing|] == listing;
  }

  // The list query.

  function TotalOf(table: seq<Item>, found: Item -> bool, filter: StatusFilter): nat {
    |Select(table, found, filter)|
  }

  /** Rows have distinct primary keys. */
  predicate DistinctIds(items: seq<Item>) {
    forall i, j :: 0 <= i < j < |items| ==> items[i].id != items[j].id
  }

  function Place(item: Item, listing: seq<Item>): seq<Item> {
    if listing == [] || NewerFirst(item, listing[0]) then [item] + listing
    else [listing[0]] + Place(item, listing[1..])
  }

  function Order(items: seq<Item>): seq<Item> {
    if items == [] then [] else Place(items[|items| - 1], Order(items[..|items| - 1]))
  }

  lemma {:induction false} PlaceKeepsOrder(item: Item, listing: seq<Item>)
    requires Sorted(NewerFirst, listing) && forall other :: other in listing ==> other.id != item.id
    ensures Sorted(NewerFirst, Place(item, listing))
    ensures multiset(Place(item, listing)) == multiset(listing) + multiset{item}
  {
    if listing == [] {
    } else if NewerFirst(item, listing[0]) {
      assert forall j :: 0 < j < |listing| ==> NewerFirst(listing[0], listing[j]);
    } else {
      var rest := listing[1..];
      PlaceKeepsOrder(item, rest);
      assert listing == [listing[0]] + rest;
      forall other | other in Place(item, rest) ensures NewerFirst(listing[0], other) {
        assert other in multiset(Place(item, rest));
        assert other != item ==> other in rest;
      }
    }
  }

  lemma {:induction false} OrderIsListing(items: seq<Item>)
    requires DistinctIds(items)
    ensures Sorted(NewerFirst, Order(items)) && multiset(Order(items)) == multiset(items)
  {
    if items != [] {
      var init, last := items[..|items| - 1], items[|items| - 1];
      OrderIsListing(init);
      forall other | other in Order(init) ensures other.id != last.id {
        assert other in multiset(Order(init));
      }
      PlaceKeepsOrder(last, Order(init));
      MultisetLast(items);
    }
  }

  lemma {:induction false} SelectKeepsIds(table: seq<Item>, found: Item -> bool, filter: StatusFilter)
    requires DistinctIds(table)
    ensures DistinctIds(Select(table, found, filter))
    ensures forall item :: item in Select(table, found, filter) ==> item in table
  {
    if table != [] {
      var init, last := table[..|table| - 1], table[|table| - 1];
      SelectKeepsIds(init, found, filter);
      forall item | item in Select(init, found, filter) ensures item.id != last.id {
        assert item in init;
      }
    }
  }

  /** A selection keeps every row that satisfies the search and the status, as often as it is in
      the table, and no other. */
  lemma {:induction false} SelectExactly(table: seq<Item>, found: Item -> bool, filter: StatusFilter, item: Item)
    ensures multiset(Select(table, found, filter))[item]
         == if found(item) && (filter.Only? ==> item.status == filter.status) then multiset(table)[item] else 0
  {
    if table != [] {
      SelectExactly(table[..|table| - 1], found, filter, item);
      MultisetLast(table);
      var rest, last := Select(table[..|table| - 1], found, filter), table[|table| - 1];
      assert multiset(rest + [last]) == multiset(rest) + multiset{last};
    }
  }

  /** The places of the rows that satisfy the search and the status. */
  function Places(table: seq<Item>, found: Item -> bool, filter: StatusFilter): set<nat> {
    set i: nat | i < |table| && found(table[i]) && (filter.Only? ==> table[i].status == filter.status)
  }

  lemma {:induction false} SelectCount(table: seq<Item>, found: Item -> bool, filter: StatusFilter)
    ensures |Select(table, found, filter)| == |Places(table, found, filter)|
  {
    if table == [] {
      assert Places(table, found, filter) == {};
    } else {
      var init, last := table[..|table| - 1], table[|table| - 1];
      SelectCount(init, found, filter);
      var places: set<nat> := Places(init, found, filter);
      if found(last) && (filter.Only? ==> last.status == filter.status) {
        assert Places(table, found, filter) == places + {|init|};
      } else {
        assert Places(table, found, filter) == places;
      }
    }
  }

  lemma {:induction false} OneOfEach(table: seq<Item>, item: Item)
    requires DistinctIds(table)
    ensures multiset(table)[item] == if item in table then 1 else 0
  {
    if table != [] {
      OneOfEach(table[..|table| - 1], item);
      MultisetLast(table);
    }
  }

  /** At most `size` rows, from the row at the offset on. */
  function Cut(listing: seq<Item>, from: int, size: nat): seq<Item> {
    if from < 0 || from >= |listing| then []
    else if from + size >= |listing| then listing[from..]
    else listing[from..from + size]
  }

  /** List: a count, and then a page of the ordered selection. The two queries run one after
      the other, so the table may have changed between them. `listing` is what the page is cut
      from: each row that satisfies the search and the status once, newest first. */
  method List(counted: seq<Item>, table: seq<Item>, found: Item -> bool, filter: StatusFilter, page: int, pageSize: int)
      returns (items: seq<Item>, total: nat, page': nat, pageSize': nat, ghost listing: seq<Item>)
    requires DistinctIds(table)
    ensures page' == if page < 1 then 1 else page
    ensures pageSize' == if pageSize < 1 then 20 else if pageSize > 100 then 100 else pageSize
    ensures total == |set i: nat | i < |counted| && found(counted[i])
                                   && (filter.Only? ==> counted[i].status == filter.status)|
    ensures forall item :: multiset(listing)[item] ==
              if item in table && found(item) && (filter.Only? ==> item.status == filter.status) then 1 else 0
    ensures forall i, j :: 0 <= i < j < |listing| ==>
              || listing[i].updatedAt > listing[j].updatedAt
              || (listing[i].updatedAt == listing[j].updatedAt && listing[i].id > listing[j].id)
    ensures items == Cut(listing, (page' - 1) * pageSize', pageSize')
    ensures forall item :: item in items ==>
              item in table && found(item) && (filter.Only? ==> item.status == filter.status)
    ensures total == TotalOf(counted, found, filter)
    ensures ListingOf(listing, table, found, filter) && items == PageOf(listing, page', pageSize')
    ensures forall other :: ListingOf(other, table, found, filter) ==> other == listing
  {
    page', pageSize' := NormalizePage(page, pageSize);
    SelectCount(counted, found, filter);
    total := |Select(counted, found, filter)|;
    var selected := Select(table, found, filter);
    var ordered := Order(selected);
    items := PageOf(ordered, page', pageSize');
    listing := ordered;
    SelectKeepsIds(table, found, filter);
    OrderIsListing(selected);
    forall item ensures multiset(listing)[item] ==
              if item in table && found(item) && (filter.Only? ==> item.status == filter.status) then 1 else 0 {
      SelectExactly(table, found, filter, item);
      OneOfEach(table, item);
    }
    forall other | ListingOf(other, table, found, filter) ensures other == listing {
      ListingUnique(other, listing, table, found, filter);
    }
    PageCut(listing, page', pageSize');
    forall item | item in items
      ensures item in table && found(item) && (filter.Only? ==> item.status == filter.status)
    {
      assert item in multiset(listing);
    }
  }

  lemma SliceIsCut(listing: seq<Item>, from: nat, size: nat)
    ensures listing[Min(from, |listing|)..Min(from + size, |listing|)] == Cut(listing, from, size)
  {
  }

  lemma PageCut(listing: seq<Item>, page: nat, size: nat)
    requires page >= 1
    ensures PageOf(listing, page, size) == Cut(listing, (page - 1) * size, size)
  {
    hide PageOf, Cut;
    var from := (page - 1) * size;
    PageAt(listing, page, size, from);
    SliceIsCut(listing, from, size);
  }

  // Counting by status.

  /** One row of SELECT status, COUNT(*) ... GROUP BY status. */
  datatype Group = Group(status: Status, total: nat)

  predicate Everything(item: Item) { true }

  /** The status column of a table. */
  function StatusesOf(table: seq<Item>): seq<Status> {
    seq(|table|, i requires 0 <= i < |table| => table[i].status)
  }

  /** The grouped query: the distinct values of the status column, each with its multiplicity. */
  ghost predicate GroupsOf(groups: seq<Group>, table: seq<Item>) {
    && (forall i, j :: 0 <= i < j < |groups| ==> groups[i].status != groups[j].status)
    && (forall i :: 0 <= i < |groups| ==>
          groups[i].status in StatusesOf(table) && groups[i].total == multiset(StatusesOf(table))[groups[i].status])
    && (forall status :: status in StatusesOf(table) ==> exists i :: 0 <= i < |groups| && groups[i].status == status)
  }

  /** The multiplicity of a status is the Total that List reports for it. */
  lemma {:induction false} MultiplicityIsTotal(table: seq<Item>, status: Status)
    ensures multiset(StatusesOf(table))[status] == TotalOf(table, Everything, Only(status))
  {
    if table == [] {
      assert StatusesOf(table) == [];
    } else {
      MultiplicityIsTotal(table[..|table| - 1], status);
      assert StatusesOf(table) == StatusesOf(table[..|table| - 1]) + [table[|table| - 1].status];
    }
  }

  /** The row loop of CountByStatus: a status has an entry exactly when some row has it, and
      the entry is the Total that List reports for that status. */
  method CountByStatus(groups: seq<Group>, ghost table: seq<Item>) returns (counts: map<Status, nat>)
    requires GroupsOf(groups, table)
    ensures forall status :: status in counts <==> TotalOf(table, Everything, Only(status)) > 0
    ensures forall status :: status in counts ==> counts[status] == TotalOf(table, Everything, Only(status))
  {
    counts := map[];
    for i := 0 to |groups|
      invariant forall status :: status in counts <==> exists k :: 0 <= k < i && groups[k].status == status
      invariant forall k :: 0 <= k < i ==> groups[k].status in counts && counts[groups[k].status] == groups[k].total
    {
      counts := counts[groups[i].status := groups[i].total];
    }
    forall status
      ensures multiset(StatusesOf(table))[status] == TotalOf(table, Everything, Only(status))
    {
      MultiplicityIsTotal(table, status);
    }
    assert forall status :: status in StatusesOf(table) <==> multiset(StatusesOf(table))[status] > 0;
  }

  /** The entries of a map, added up in the order given. */
  function SumOver(counts: map<Status, nat>, order: seq<Status>): nat
    requires forall status :: status in order ==> status in counts
  {
    if order == [] then 0 else SumOver(counts, order[..|order| - 1]) + counts[order[|order| - 1]]
  }

  /** The rows whose status is listed. */
  function Covered(table: seq<Item>, order: seq<Status>): nat {
    if table == [] then 0
    else Covered(table[..|table| - 1], order) + (if table[|table| - 1].status in order then 1 else 0)
  }

  lemma {:induction false} CoveredOneMore(table: seq<Item>, order: seq<Status>, last: Status)
    requires last !in order
    ensures Covered(table, order + [last]) == Covered(table, order) + TotalOf(table, Everything, Only(last))
  {
    if table != [] {
      CoveredOneMore(table[..|table| - 1], order, last);
    }
  }

  lemma {:induction false} NothingCovered(table: seq<Item>)
    ensures Covered(table, []) == 0
  {
    if table != [] {
      NothingCovered(table[..|table| - 1]);
    }
  }

  lemma {:induction false} AllCovered(table: seq<Item>, order: seq<Status>)
    requires forall item :: item in table ==> item.status in order
    ensures Covered(table, order) == |table|
  {
    if table != [] {
      assert table[|table| - 1] in table;
      AllCovered(table[..|table| - 1], order);
    }
  }

  lemma {:induction false} SumIsCovered(table: seq<Item>, counts: map<Status, nat>, order: seq<Status>)
    requires forall i, j :: 0 <= i < j < |order| ==> order[i] != order[j]
    requires forall status :: status in order ==>
               status in counts && counts[status] == TotalOf(table, Everything, Only(status))
    ensures SumOver(counts, order) == Covered(table, order)
  {
    if order == [] {
      NothingCovered(table);
    } else {
      var init, last := order[..|order| - 1], order[|order| - 1];
      SumIsCovered(table, counts, init);
      assert order == init + [last];
      CoveredOneMore(table, init, last);
    }
  }

  /** The counts that CountByStatus returns, added up in any order in which a map may be read,
      are the unfiltered total. */
  lemma TotalsAddUp(counts: map<Status, nat>, table: seq<Item>, order: seq<Status>)
    requires forall status :: status in counts <==> TotalOf(table, Everything, Only(status)) > 0
    requires forall status :: status in counts ==> counts[status] == TotalOf(table, Everything, Only(status))
    requires forall i, j :: 0 <= i < j < |order| ==> order[i] != order[j]
    requires forall status :: status in order <==> status in counts
    ensures SumOver(counts, order) == |table| == TotalOf(table, Everything, AnyStatus)
  {
    SumIsCovered(table, counts, order);
    forall item | item in table ensures item.status in order {
      var k :| 0 <= k < |table| && table[k] == item;
      assert StatusesOf(table)[k] == item.status;
      MultiplicityIsTotal(table, item.status);
      assert item.status in multiset(StatusesOf(table));
    }
    AllCovered(table, order);
    SelectEverything(table);
  }

  lemma {:induction false} SelectEverything(table: seq<Item>)
    ensures Select(table, Everything, AnyStatus) == table
  {
    if table != [] {
      SelectEverything(table[..|table| - 1]);
      assert table == table[..|table| - 1] + [table[|table| - 1]];
    }
  }

  // Attaching revisions to a page.

  /** An item of a page of certificates or authorizations. */
  datatype Listed = Listed(key: Key, item: Record, revisions: seq<Revision>)

  predicate OlderVersion(a: Revision, b: Revision) { a.version < b.version }

  /** WHERE foreign key IN ids ORDER BY foreign key, version: the revisions of the listed
      records, each once, and those of one record by ascending version. */
  ghost predicate RevisionsFetched(fetched: seq<Revision>, revisions: seq<Revision>, keys: set<Key>) {
    && (forall r :: multiset(fetched)[r] == if r.key in keys then multiset(revisions)[r] else 0)
    && (forall i, j :: 0 <= i < j < |fetched| && fetched[i].key == fetched[j].key ==>
          fetched[i].version <= fetched[j].version)
  }

  lemma {:induction false} LogMultiset(revisions: seq<Revision>, key: Key, r: Revision)
    ensures multiset(LogOf(revisions, key))[r] == if r.key == key then multiset(revisions)[r] else 0
  {
    if revisions != [] {
      LogMultiset(revisions[..|revisions| - 1], key, r);
      MultisetLast(revisions);
      var rest, last := LogOf(revisions[..|revisions| - 1], key), revisions[|revisions| - 1];
      assert multiset(rest + [last]) == multiset(rest) + multiset{last};
    }
  }

  /** The fetched revisions of one record keep their order. */
  lemma {:induction false} LogAscends(fetched: seq<Revision>, key: Key)
    requires forall i, j :: 0 <= i < j < |fetched| && fetched[i].key == fetched[j].key ==>
               fetched[i].version <= fetched[j].version
    ensures forall i, j :: 0 <= i < j < |LogOf(fetched, key)| ==>
              LogOf(fetched, key)[i].version <= LogOf(fetched, key)[j].version
    ensures forall r :: r in LogOf(fetched, key) ==> r in fetched && r.key == key
  {
    if fetched != [] {
      LogAscends(fetched[..|fetched| - 1], key);
    }
  }

  lemma {:induction false} AscendingTwins(a: seq<Revision>, b: seq<Revision>)
    requires multiset(a) == multiset(b) && Sorted(OlderVersion, b)
    requires forall i, j :: 0 <= i < j < |a| ==> a[i].version <= a[j].version
    ensures a == b
  {
    SameLength(a, b);
    if a != [] {
      var j := IndexOf(a, b, |a| - 1);
      var i := IndexOf(b, a, |b| - 1);
      assert a[|a| - 1] == b[|b| - 1];
      SameLast(a, b);
      AscendingTwins(a[..|a| - 1], b[..|b| - 1]);
      assert a == a[..|a| - 1] + [a[|a| - 1]] && b == b[..|b| - 1] + [b[|b| - 1]];
    }
  }

  /** For a record whose log is numbered, the rows fetched for a whole page and filtered to the
      record are the rows Get would fetch for it alone. */
  lemma FetchedLog(fetched: seq<Revision>, revisions: seq<Revision>, keys: set<Key>, key: Key)
    requires RevisionsFetched(fetched, revisions, keys) && key in keys && Numbered(LogOf(revisions, key))
    ensures LogOf(fetched, key) == LogOf(revisions, key)
  {
    forall r ensures multiset(LogOf(fetched, key))[r] == multiset(LogOf(revisions, key))[r] {
      LogMultiset(fetched, key, r);
      LogMultiset(revisions, key, r);
    }
    LogAscends(fetched, key);
    AscendingTwins(LogOf(fetched, key), LogOf(revisions, key));
  }

  /** The grouping loop of List. */
  method GroupByRecord(fetched: seq<Revision>) returns (byRecord: map<Key, seq<Revision>>)
    ensures forall key :: (if key in byRecord then byRecord[key] else []) == LogOf(fetched, key)
  {
    byRecord := map[];
    for i := 0 to |fetched|
      invariant forall key :: (if key in byRecord then byRecord[key] else []) == LogOf(fetched[..i], key)
    {
      var revision := fetched[i];
      assert fetched[..i + 1] == fetched[..i] + [revision];
      forall key ensures LogOf(fetched[..i + 1], key)
                      == LogOf(fetched[..i], key) + (if revision.key == key then [revision] else []) {
        LogOfAppend(fetched[..i], revision, key);
      }
      var group := if revision.key in byRecord then byRecord[revision.key] else [];
      byRecord := byRecord[revision.key := group + [revision]];
    }
    assert fetched[..|fetched|] == fetched;
  }

  /** The loop of List that writes each item's group into the page, in place: each item ends
      with the revisions that Get returns for it. */
  method AttachRevisions(page: array<Listed>, fetched: seq<Revision>, ghost db: Db)
    requires Shaped(db)
    requires RevisionsFetched(fetched, db.revisions, set i | 0 <= i < page.Length :: page[i].key)
    modifies page
    ensures forall i :: 0 <= i < page.Length ==>
              page[i] == old(page[i]).(revisions := LogOf(db.revisions, old(page[i]).key))
  {
    hide LogOf, RevisionsFetched, Numbered;
    ghost var keys := set i | 0 <= i < page.Length :: page[i].key;
    forall i | 0 <= i < page.Length ensures LogOf(fetched, page[i].key) == LogOf(db.revisions, page[i].key) {
      assert ShapedAt(db, page[i].key);
      FetchedLog(fetched, db.revisions, keys, page[i].key);
    }
    var byRecord := GroupByRecord(fetched);
    for index := 0 to page.Length
      invariant forall i :: 0 <= i < index ==> page[i] == old(page[i]).(revisions := LogOf(fetched, old(page[i]).key))
      invariant forall i :: index <= i < page.Length ==> page[i] == old(page[i])
    {
      var key := page[index].key;
      page[index] := page[index].(revisions := if key in byRecord then byRecord[key] else []);
    }
  }
}

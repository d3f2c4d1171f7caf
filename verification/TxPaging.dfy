/** The paged transaction list: `getTxList` and the reducer that shows it. */
module TxPaging {
  import opened Options

  datatype TxRecord = TxRecord(id: int, blockid: int, hash: string, net: string, createdt: int, creator: string)

  datatype Query = Query(net: string, hash: string, blockNum: int, txid: int, from: int, to: int, orgs: seq<string>)

  /** The rows the caller asks for. */
  predicate Wanted(q: Query, r: TxRecord) {
    && r.blockid >= q.blockNum && r.id >= q.txid
    && r.hash == q.hash && r.net == q.net
    && q.from <= r.createdt <= q.to
    && (q.orgs != [] ==> r.creator in q.orgs)
  }

  // ----------------------------------------------------------- query building

  datatype Param = Number(n: int) | Text(s: string) | Texts(list: seq<string>)

  /** A condition of the WHERE clause with the numbers of its placeholders, as in `$1`. */
  datatype Cond =
    | BlockFrom(p: nat)
    | IdFrom(p: nat)
    | HashIs(p: nat)
    | NetIs(p: nat)
    | CreatedBetween(p: nat, upper: nat)
    | CreatorAny(p: nat)

  /** A statement and the values bound to it. */
  datatype Statement = Statement(conds: seq<Cond>, values: seq<Param>)

  function Bound(values: seq<Param>, p: nat): Param {
    if 0 < p <= |values| then values[p - 1] else Text("")
  }

  predicate Meets(c: Cond, values: seq<Param>, r: TxRecord) {
    match c
    case BlockFrom(p) => Bound(values, p).Number? && r.blockid >= Bound(values, p).n
    case IdFrom(p) => Bound(values, p).Number? && r.id >= Bound(values, p).n
    case HashIs(p) => Bound(values, p) == Text(r.hash)
    case NetIs(p) => Bound(values, p) == Text(r.net)
    case CreatedBetween(p, upper) =>
      Bound(values, p).Number? && Bound(values, upper).Number? && Bound(values, p).n <= r.createdt <= Bound(values, upper).n
    case CreatorAny(p) => Bound(values, p).Texts? && r.creator in Bound(values, p).list
  }

  predicate Selects(s: Statement, r: TxRecord) {
    forall c <- s.conds :: Meets(c, s.values, r)
  }

  /** Both statements, built step by step: the page and size sit between the filter and the
      organisations in the list statement, so the organisations are `$7` there and `$9` here. Whatever
      the query, both statements select exactly the wanted rows. */
  method BuildStatements(q: Query, page: int, size: int) returns (count: Statement, list: Statement)
    ensures forall r :: Selects(count, r) <==> Wanted(q, r)
    ensures forall r :: Selects(list, r) <==> Wanted(q, r)
    ensures Bound(list.values, 7) == Number(page) && Bound(list.values, 8) == Number(size)
    ensures |count.values| == (if q.orgs == [] then 6 else 7) && |list.values| == (if q.orgs == [] then 8 else 9)
  {
    var where := [BlockFrom(1), IdFrom(2), HashIs(3), NetIs(4), CreatedBetween(5, 6)];
    var filterValues := [Number(q.blockNum), Number(q.txid), Text(q.hash), Text(q.net), Number(q.from), Number(q.to)];
    var values := filterValues + [Number(page), Number(size)];
    var countWhere, listWhere := where, where;
    if q.orgs != [] {
      countWhere := countWhere + [CreatorAny(7)];
      filterValues := filterValues + [Texts(q.orgs)];
      listWhere := listWhere + [CreatorAny(9)];
      values := values + [Texts(q.orgs)];
    }
    count, list := Statement(countWhere, filterValues), Statement(listWhere, values);
    forall r
      ensures Selects(count, r) <==> Wanted(q, r)
      ensures Selects(list, r) <==> Wanted(q, r)
    {
      BasicConds(count, q, r, 7);
      BasicConds(list, q, r, 9);
    }
  }

  lemma BasicConds(s: Statement, q: Query, r: TxRecord, at: nat)
    requires |s.values| >= 6
    requires s.values[..6] == [Number(q.blockNum), Number(q.txid), Text(q.hash), Text(q.net), Number(q.from), Number(q.to)]
    requires s.conds == [BlockFrom(1), IdFrom(2), HashIs(3), NetIs(4), CreatedBetween(5, 6)]
                        + (if q.orgs == [] then [] else [CreatorAny(at)])
    requires q.orgs != [] ==> at >= 1 && Bound(s.values, at) == Texts(q.orgs)
    ensures Selects(s, r) <==> Wanted(q, r)
  {
    var v := s.values;
    assert forall i :: 0 <= i < 6 ==> v[i] == v[..6][i];
    var cs := s.conds;
    if Selects(s, r) {
      assert cs[0] in cs && cs[1] in cs && cs[2] in cs && cs[3] in cs && cs[4] in cs;
      assert q.orgs != [] ==> cs[5] in cs;
    }
  }

  // ------------------------------------------------------------------- pages

  function Filter(rows: seq<TxRecord>, q: Query): seq<TxRecord> {
    if rows == [] then []
    else (if Wanted(q, rows[0]) then [rows[0]] else []) + Filter(rows[1..], q)
  }

  lemma {:induction false} FilterExact(rows: seq<TxRecord>, q: Query, r: TxRecord)
    ensures multiset(Filter(rows, q))[r] == if Wanted(q, r) then multiset(rows)[r] else 0
  {
    if rows != [] {
      FilterExact(rows[1..], q, r);
      assert rows == [rows[0]] + rows[1..];
      assert multiset(rows) == multiset{rows[0]} + multiset(rows[1..]);
    }
  }

  /** One order the database may return the filtered rows in: `order by createdt desc`. */
  ghost predicate IsListing(l: seq<TxRecord>, rows: seq<TxRecord>, q: Query) {
    multiset(l) == multiset(Filter(rows, q)) && Descending(l)
  }

  predicate Descending(l: seq<TxRecord>) {
    forall i, j :: 0 <= i < j < |l| ==> l[i].createdt >= l[j].createdt
  }

  function Clamp(n: nat, max: nat): nat {
    if n < max then n else max
  }

  /** `LIMIT size OFFSET (page - 1) * size`. */
  function Page(l: seq<TxRecord>, page: nat, size: nat): seq<TxRecord>
    requires page >= 1
  {
    var offset := Clamp((page - 1) * size, |l|);
    l[offset..Clamp(offset + size, |l|)]
  }

  /** `Math.ceil(count / size)`; absent when the quotient is not a finite number. */
  function PageCount(count: Option<nat>, size: int): Option<nat> {
    if count.None? || size <= 0 then None else Some((count.value + size - 1) / size)
  }

  datatype TxList = TxList(txnsData: seq<TxRecord>, noOfpages: Option<nat>)

  /** `getTxList` for one order of the listing: page 1 alone carries a page count; a negative offset or
      limit is a query error. */
  function GetTxList(listing: seq<TxRecord>, page: int, size: int): Option<TxList> {
    if size < 0 || (page - 1) * size < 0 then None
    else if page < 1 then Some(TxList([], PageCount(None, size)))
    else Some(TxList(Page(listing, page, size), PageCount(if page == 1 then Some(|listing|) else None, size)))
  }

  /** The rows of the answer for a page; none for an error. */
  function Rows(l: seq<TxRecord>, page: int, size: int): seq<TxRecord> {
    match GetTxList(l, page, size)
    case None => []
    case Some(answer) => answer.txnsData
  }

  /** The rows of the answers for pages 1 to n, one after the other. */
  function Answers(l: seq<TxRecord>, n: nat, size: nat): seq<TxRecord> {
    if n == 0 then [] else Answers(l, n - 1, size) + Rows(l, n, size)
  }

  lemma RowsArePage(l: seq<TxRecord>, page: nat, size: nat)
    requires page >= 1
    ensures GetTxList(l, page, size).Some? && Rows(l, page, size) == Page(l, page, size)
  {
    assert (page - 1) * size >= 0;
  }

  lemma {:induction false} AnswersArePrefix(l: seq<TxRecord>, n: nat, size: nat)
    ensures Answers(l, n, size) == l[..Clamp(n * size, |l|)]
  {
    if n > 0 {
      AnswersArePrefix(l, n - 1, size);
      RowsArePage(l, n, size);
      assert n * size == (n - 1) * size + size;
    }
  }

  lemma CeilingBounds(count: nat, size: nat)
    requires size > 0
    ensures var n := (count + size - 1) / size; n * size >= count && (n > 0 ==> (n - 1) * size < count)
  {
    var n := (count + size - 1) / size;
    assert count + size - 1 == n * size + (count + size - 1) % size;
    if n > 0 {
      assert (n - 1) * size == n * size - size;
    }
  }

  /** A page is empty exactly when it starts at or past the end. */
  lemma EmptyPage(l: seq<TxRecord>, page: nat, size: nat)
    requires page >= 1 && size > 0
    ensures Page(l, page, size) == [] <==> (page - 1) * size >= |l|
  {
  }

  lemma MultiplesOrder(a: int, b: int, size: nat)
    requires a <= b
    ensures a * size <= b * size
  {
  }

  /** The answers for pages 1 to the count reported with page 1 concatenate to the whole listing, none of them
      empty or longer than a page; the answer for every later page is empty, and none but the first reports
      a count. */
  lemma PagesCoverListing(l: seq<TxRecord>, size: nat, page: nat)
    requires size > 0 && page >= 1
    ensures GetTxList(l, 1, size).Some? && GetTxList(l, 1, size).value.noOfpages.Some?
    ensures var n := GetTxList(l, 1, size).value.noOfpages.value;
      && Answers(l, n, size) == l
      && GetTxList(l, page, size).Some?
      && (GetTxList(l, page, size).value.txnsData == [] <==> page > n)
      && |GetTxList(l, page, size).value.txnsData| <= size
      && (page > 1 ==> GetTxList(l, page, size).value.noOfpages.None?)
  {
    var n := (|l| + size - 1) / size;
    CeilingBounds(|l|, size);
    AnswersArePrefix(l, n, size);
    RowsArePage(l, 1, size);
    RowsArePage(l, page, size);
    EmptyPage(l, page, size);
    if page > n {
      MultiplesOrder(n, page - 1, size);
    } else {
      MultiplesOrder(page - 1, n - 1, size);
    }
  }

  /** A row of a page sits in the page's stretch of the listing. */
  lemma PageIndex(l: seq<TxRecord>, page: nat, size: nat, r: TxRecord) returns (i: nat)
    requires page >= 1 && r in Page(l, page, size)
    ensures i < |l| && l[i] == r && (page - 1) * size <= i < page * size
  {
    assert page * size == (page - 1) * size + size;
    var k :| 0 <= k < |Page(l, page, size)| && Page(l, page, size)[k] == r;
    i := (page - 1) * size + k;
  }

  /** No row is in the answers for two pages. */
  lemma PagesAreDisjoint(l: seq<TxRecord>, size: nat, p: nat, q: nat, r: TxRecord)
    requires 1 <= p < q && r in Rows(l, p, size)
    requires forall i, j :: 0 <= i < j < |l| ==> l[i].id != l[j].id
    ensures r !in Rows(l, q, size)
  {
    RowsArePage(l, p, size);
    RowsArePage(l, q, size);
    var i := PageIndex(l, p, size, r);
    if r in Page(l, q, size) {
      var j := PageIndex(l, q, size, r);
      MultiplesOrder(p, q - 1, size);
    }
  }

  lemma OffsetSign(page: int, size: nat)
    ensures (page - 1) * size < 0 <==> page < 1 && size != 0
  {
    if page >= 1 {
      assert (page - 1) * size >= 0;
    } else {
      assert (1 - page) * size >= size;
      assert (page - 1) * size == -((1 - page) * size);
    }
  }

  /** The query fails exactly for a negative size, and for a page before the first unless the size is zero; page
      and size come unchecked from the request. */
  lemma ListFailsIff(l: seq<TxRecord>, page: int, size: int)
    ensures GetTxList(l, page, size) == None <==> size < 0 || (page < 1 && size != 0)
  {
    if size >= 0 {
      OffsetSign(page, size);
    }
  }

  // ------------------------------------------- one order for every page's query

  predicate DistinctTimes(l: seq<TxRecord>) {
    forall i, j :: 0 <= i < j < |l| ==> l[i].createdt != l[j].createdt
  }

  /** A listing exists whatever the rows: the filtered rows, sorted by insertion. */
  lemma ListingExists(rows: seq<TxRecord>, q: Query) returns (l: seq<TxRecord>)
    ensures IsListing(l, rows, q)
    ensures forall r :: multiset(l)[r] == if Wanted(q, r) then multiset(rows)[r] else 0
    ensures forall i, j :: 0 <= i < j < |l| ==> l[i].createdt >= l[j].createdt
  {
    l := Sorted(Filter(rows, q));
    SortedIsDescending(Filter(rows, q));
    forall r
      ensures multiset(l)[r] == if Wanted(q, r) then multiset(rows)[r] else 0
    {
      FilterExact(rows, q, r);
    }
  }

  function Inserted(r: TxRecord, l: seq<TxRecord>): seq<TxRecord> {
    if l == [] || r.createdt >= l[0].createdt then [r] + l else [l[0]] + Inserted(r, l[1..])
  }

  function Sorted(l: seq<TxRecord>): seq<TxRecord> {
    if l == [] then [] else Inserted(l[0], Sorted(l[1..]))
  }

  lemma {:induction false} InsertedAddsOne(r: TxRecord, l: seq<TxRecord>)
    ensures multiset(Inserted(r, l)) == multiset(l) + multiset{r}
  {
    if l != [] && r.createdt < l[0].createdt {
      InsertedAddsOne(r, l[1..]);
      TailMultiset(l);
    }
  }

  lemma {:induction false} InsertedIsDescending(r: TxRecord, l: seq<TxRecord>)
    requires Descending(l)
    ensures Descending(Inserted(r, l)) && Inserted(r, l) != []
    ensures Inserted(r, l)[0] == r || (l != [] && Inserted(r, l)[0] == l[0])
  {
    if l != [] && r.createdt < l[0].createdt {
      InsertedIsDescending(r, l[1..]);
    }
  }

  lemma {:induction false} SortedIsDescending(l: seq<TxRecord>)
    ensures Descending(Sorted(l)) && multiset(Sorted(l)) == multiset(l)
  {
    if l != [] {
      SortedIsDescending(l[1..]);
      InsertedIsDescending(l[0], Sorted(l[1..]));
      InsertedAddsOne(l[0], Sorted(l[1..]));
      TailMultiset(l);
    }
  }

  lemma FirstAgree(a: seq<TxRecord>, b: seq<TxRecord>)
    requires a != [] && multiset(a) == multiset(b) && Descending(a) && Descending(b) && DistinctTimes(a)
    ensures b != [] && a[0] == b[0]
  {
    assert a[0] in multiset(b);
    assert b != [];
    assert b[0] in multiset(a);
    var i :| 0 <= i < |b| && b[i] == a[0];
    var k :| 0 <= k < |a| && a[k] == b[0];
  }

  lemma TailMultiset(a: seq<TxRecord>)
    requires a != []
    ensures multiset(a) == multiset{a[0]} + multiset(a[1..])
  {
    assert a == [a[0]] + a[1..];
  }

  lemma TailsAgree(a: seq<TxRecord>, b: seq<TxRecord>)
    requires a != [] && multiset(a) == multiset(b) && Descending(a) && Descending(b) && DistinctTimes(a)
    ensures b != [] && a[0] == b[0] && multiset(a[1..]) == multiset(b[1..])
    ensures Descending(a[1..]) && Descending(b[1..]) && DistinctTimes(a[1..])
  {
    FirstAgree(a, b);
    TailMultiset(a);
    TailMultiset(b);
    assert multiset(a[1..]) == multiset(a) - multiset{a[0]} == multiset(b[1..]);
  }

  lemma {:induction false} SameOrder(a: seq<TxRecord>, b: seq<TxRecord>)
    requires multiset(a) == multiset(b) && Descending(a) && Descending(b) && DistinctTimes(a)
    ensures a == b
  {
    if a == [] {
      assert |multiset(b)| == 0;
    } else {
      TailsAgree(a, b);
      SameOrder(a[1..], b[1..]);
      HeadAndTail(a, b);
    }
  }

  lemma HeadAndTail(a: seq<TxRecord>, b: seq<TxRecord>)
    requires a != [] && b != [] && a[0] == b[0] && a[1..] == b[1..]
    ensures a == b
  {
    assert a == [a[0]] + a[1..];
    assert b == [b[0]] + b[1..];
  }

  /** Some neighbours tie when some two rows do. */
  lemma AdjacentTie(l: seq<TxRecord>, i: nat, j: nat)
    requires Descending(l) && i < j < |l| && l[i].createdt == l[j].createdt
    ensures l[i].createdt == l[i + 1].createdt
  {
  }

  function Swapped(l: seq<TxRecord>, i: nat): seq<TxRecord>
    requires i + 1 < |l|
  {
    l[i := l[i + 1]][i + 1 := l[i]]
  }

  lemma SwappedDescends(l: seq<TxRecord>, i: nat)
    requires Descending(l) && i + 1 < |l| && l[i].createdt == l[i + 1].createdt
    ensures Descending(Swapped(l, i))
  {
    var m := Swapped(l, i);
    assert forall k :: 0 <= k < |l| ==> m[k].createdt == l[k].createdt;
  }

  lemma SwappedKeepsRows(l: seq<TxRecord>, i: nat)
    requires i + 1 < |l|
    ensures multiset(Swapped(l, i)) == multiset(l)
  {
    assert l == l[..i] + [l[i]] + [l[i + 1]] + l[i + 2..];
    assert Swapped(l, i) == l[..i] + [l[i + 1]] + [l[i]] + l[i + 2..];
  }

  /** Each page is a query of its own. All of them see one order, whatever the server does with ties,
      exactly when no two of the filtered rows were created at the same time. */
  lemma OneOrderIffDistinctTimes(l: seq<TxRecord>, rows: seq<TxRecord>, q: Query)
    requires IsListing(l, rows, q) && forall i, j :: 0 <= i < j < |l| ==> l[i].id != l[j].id
    ensures (forall m | IsListing(m, rows, q) :: m == l) <==> DistinctTimes(l)
  {
    if DistinctTimes(l) {
      forall m | IsListing(m, rows, q)
        ensures m == l
      {
        SameOrder(l, m);
      }
    } else {
      var m := OtherOrder(l, rows, q);
    }
  }

  lemma OtherOrder(l: seq<TxRecord>, rows: seq<TxRecord>, q: Query) returns (m: seq<TxRecord>)
    requires IsListing(l, rows, q) && !DistinctTimes(l)
    requires forall i, j :: 0 <= i < j < |l| ==> l[i].id != l[j].id
    ensures IsListing(m, rows, q) && m != l
  {
    var i, j :| 0 <= i < j < |l| && l[i].createdt == l[j].createdt;
    AdjacentTie(l, i, j);
    SwappedDescends(l, i);
    SwappedKeepsRows(l, i);
    m := Swapped(l, i);
    assert m[i].id != l[i].id;
  }

  // ----------------------------------------------------------------- reducer

  /** The slice `transactionListSearch`; an absent count is `undefined`, `null` or not yet set. */
  datatype SearchState = SearchState(rows: Option<seq<TxRecord>>, noOfpages: Option<nat>, loaded: bool, query: string)

  datatype SearchAction = TransactionListSearch(response: Option<TxList>, query: string) | OtherAction

  /** `a || b` on page counts: zero and absent are falsy. */
  function Or(a: Option<nat>, b: Option<nat>): Option<nat> {
    if a.Some? && a.value != 0 then a else b
  }

  /** `transactionListSearchReducer`. */
  function Reduce(state: SearchState, action: SearchAction): SearchState {
    match action
    case OtherAction => state
    case TransactionListSearch(response, query) =>
      SearchState(if response.Some? then Some(response.value.txnsData) else None,
                  Or(if response.Some? then response.value.noOfpages else None, state.noOfpages), true, query)
  }

  function ReduceAll(state: SearchState, actions: seq<SearchAction>): SearchState {
    if actions == [] then state else Reduce(ReduceAll(state, actions[..|actions| - 1]), actions[|actions| - 1])
  }

  /** An answer to a request for a page after the first, an error, or an unrelated action. */
  ghost predicate LaterPage(a: SearchAction) {
    a.TransactionListSearch? ==>
      exists l: seq<TxRecord>, page: int, size: int :: page != 1 && a.response == GetTxList(l, page, size)
  }

  /** The count reported with page 1 stays through any number of later pages. */
  lemma {:induction false} CountSurvivesPaging(state: SearchState, actions: seq<SearchAction>)
    requires forall a <- actions :: LaterPage(a)
    ensures ReduceAll(state, actions).noOfpages == state.noOfpages
  {
    if actions != [] {
      var last := actions[|actions| - 1];
      assert last in actions;
      CountSurvivesPaging(state, actions[..|actions| - 1]);
    }
  }

  /** After a first page the shown count is the reported one exactly when there is a row to show or the
      count shown before was zero: an empty result leaves the previous search's count in place. */
  lemma FirstPageCountShown(state: SearchState, listing: seq<TxRecord>, size: nat, query: string)
    requires size > 0
    ensures var answer := GetTxList(listing, 1, size);
      Reduce(state, TransactionListSearch(answer, query)).noOfpages == answer.value.noOfpages
      <==> listing != [] || state.noOfpages == Some(0)
  {
    CeilingBounds(|listing|, size);
  }

  /** What a search shows is its answer: the rows of it, or none after an error, and its query. */
  lemma SearchShowsAnswer(state: SearchState, response: Option<TxList>, query: string)
    ensures var shown := Reduce(state, TransactionListSearch(response, query));
      && shown.loaded && shown.query == query
      && (response.None? ==> shown.rows.None? && shown.noOfpages == state.noOfpages)
      && (response.Some? ==> shown.rows == Some(response.value.txnsData))
    ensures Reduce(state, OtherAction) == state
  {
  }
}

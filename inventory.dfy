/** The administrator's inventory and sales table (BookInventoryDialog):
    per-book sales folded from the order ledger, store-wide totals, the search
    box, the sort-column toggle and the sorted table. */
module Inventory {
  import opened Types
  import opened Text
  import opened Seqs
  import opened Sorting

  /** The two order fields the dialog adds up. */
  datatype Measure = Quantity | Revenue

  function Amount(o: Order, m: Measure): int {
    match m
    case Quantity => o.quantity
    case Revenue => o.totalPrice
  }

  /** orders.reduce((sum, o) => sum + o.quantity | o.totalPrice, 0) */
  function LedgerSum(orders: seq<Order>, m: Measure): int {
    if orders == [] then 0 else Amount(orders[0], m) + LedgerSum(orders[1..], m)
  }

  /** orders.filter(o => o.bookId === bookId) */
  function OrdersFor(orders: seq<Order>, bookId: string): (r: seq<Order>)
    ensures forall o :: o in r <==> o in orders && o.bookId == bookId
  {
    Filter(orders, (o: Order) => o.bookId == bookId)
  }

  /** A book row of the table: the book's own fields plus its sales. */
  datatype BookStats = BookStats(book: Book, totalSold: int, totalRevenue: int)

  function Stat(s: BookStats, m: Measure): int {
    match m
    case Quantity => s.totalSold
    case Revenue => s.totalRevenue
  }

  /** getBooksWithStats */
  function BooksWithStats(books: seq<Book>, orders: seq<Order>): (r: seq<BookStats>)
    ensures |r| == |books|
    ensures forall i :: 0 <= i < |r| ==> r[i].book == books[i]
    ensures forall i, m :: 0 <= i < |r| ==> Stat(r[i], m) == LedgerSum(OrdersFor(orders, books[i].id), m)
  {
    seq(|books|, i requires 0 <= i < |books| =>
      BookStats(books[i],
                LedgerSum(OrdersFor(orders, books[i].id), Quantity),
                LedgerSum(OrdersFor(orders, books[i].id), Revenue)))
  }

  /** The four statistics cards at the top of the dialog. */
  datatype StoreTotals = StoreTotals(totalBooks: int, currentTotalStock: int, totalSoldUnits: int, totalRevenueAll: int)

  function Totals(books: seq<Book>, orders: seq<Order>): StoreTotals {
    StoreTotals(|books|, StockSum(books), LedgerSum(orders, Quantity), LedgerSum(orders, Revenue))
  }

  function StatsSum(stats: seq<BookStats>, m: Measure): int {
    if stats == [] then 0 else Stat(stats[0], m) + StatsSum(stats[1..], m)
  }

  predicate Listed(books: seq<Book>, bookId: string) {
    exists i :: 0 <= i < |books| && books[i].id == bookId
  }

  /** What one order adds to the per-book column of measure m, summed over the books. */
  function HitAmount(books: seq<Book>, o: Order, m: Measure): int {
    if books == [] then 0
    else (if books[0].id == o.bookId then Amount(o, m) else 0) + HitAmount(books[1..], o, m)
  }

  /** Sum over the books of their per-book fold of measure m. */
  function PerBookSum(books: seq<Book>, orders: seq<Order>, m: Measure): int {
    if books == [] then 0
    else LedgerSum(OrdersFor(orders, books[0].id), m) + PerBookSum(books[1..], orders, m)
  }

  lemma {:induction false} StatsSumIsPerBook(books: seq<Book>, orders: seq<Order>, m: Measure)
    ensures StatsSum(BooksWithStats(books, orders), m) == PerBookSum(books, orders, m)
  {
    if books != [] {
      StatsSumIsPerBook(books[1..], orders, m);
      assert BooksWithStats(books, orders)[1..] == BooksWithStats(books[1..], orders);
    }
  }

  lemma OrdersForHead(o: Order, rest: seq<Order>, bookId: string, m: Measure)
    ensures LedgerSum(OrdersFor([o] + rest, bookId), m)
         == (if o.bookId == bookId then Amount(o, m) else 0) + LedgerSum(OrdersFor(rest, bookId), m)
  {
    assert ([o] + rest)[1..] == rest;
    var tail := OrdersFor(rest, bookId);
    if o.bookId == bookId {
      assert OrdersFor([o] + rest, bookId) == [o] + tail;
      assert ([o] + tail)[1..] == tail;
    } else {
      assert OrdersFor([o] + rest, bookId) == tail;
    }
  }

  lemma {:induction false} PerBookSumHead(books: seq<Book>, o: Order, rest: seq<Order>, m: Measure)
    ensures PerBookSum(books, [o] + rest, m) == HitAmount(books, o, m) + PerBookSum(books, rest, m)
  {
    if books != [] {
      PerBookSumHead(books[1..], o, rest, m);
      OrdersForHead(o, rest, books[0].id, m);
    }
  }

  lemma {:induction false} PerBookSumNoOrders(books: seq<Book>, m: Measure)
    ensures PerBookSum(books, [], m) == 0
  {
    if books != [] {
      PerBookSumNoOrders(books[1..], m);
    }
  }

  /** With unique ids, an order for a listed book is counted in exactly one row. */
  lemma {:induction false} HitAmountUnique(books: seq<Book>, o: Order, m: Measure)
    requires UniqueIds(books)
    ensures HitAmount(books, o, m) == if Listed(books, o.bookId) then Amount(o, m) else 0
  {
    if books != [] {
      HitAmountUnique(books[1..], o, m);
      if books[0].id == o.bookId {
        assert !Listed(books[1..], o.bookId) by {
          forall i | 0 <= i < |books[1..]| ensures books[1..][i].id != o.bookId {
            assert books[1..][i] == books[i + 1];
          }
        }
      } else if Listed(books, o.bookId) {
        var i :| 0 <= i < |books| && books[i].id == o.bookId;
        assert books[1..][i - 1].id == o.bookId;
      } else {
        assert !Listed(books[1..], o.bookId) by {
          forall i | 0 <= i < |books[1..]| ensures books[1..][i].id != o.bookId {
            assert books[1..][i] == books[i + 1];
          }
        }
      }
    }
  }

  /** Conservation: when ids are unique and every order names a listed book,
      the per-book columns add up to the store-wide totals. */
  lemma {:induction false} Conservation(books: seq<Book>, orders: seq<Order>, m: Measure)
    requires UniqueIds(books)
    requires forall k :: 0 <= k < |orders| ==> Listed(books, orders[k].bookId)
    ensures StatsSum(BooksWithStats(books, orders), m) == LedgerSum(orders, m)
    ensures StatsSum(BooksWithStats(books, orders), Quantity) == Totals(books, orders).totalSoldUnits
    ensures StatsSum(BooksWithStats(books, orders), Revenue) == Totals(books, orders).totalRevenueAll
  {
    PerBookSumConserved(books, orders, Quantity);
    PerBookSumConserved(books, orders, Revenue);
    PerBookSumConserved(books, orders, m);
    StatsSumIsPerBook(books, orders, Quantity);
    StatsSumIsPerBook(books, orders, Revenue);
    StatsSumIsPerBook(books, orders, m);
  }

  lemma {:induction false} PerBookSumConserved(books: seq<Book>, orders: seq<Order>, m: Measure)
    requires UniqueIds(books)
    requires forall k :: 0 <= k < |orders| ==> Listed(books, orders[k].bookId)
    ensures PerBookSum(books, orders, m) == LedgerSum(orders, m)
  {
    if orders == [] {
      PerBookSumNoOrders(books, m);
    } else {
      assert orders == [orders[0]] + orders[1..];
      PerBookSumHead(books, orders[0], orders[1..], m);
      HitAmountUnique(books, orders[0], m);
      assert Listed(books, orders[0].bookId);
      PerBookSumConserved(books, orders[1..], m);
    }
  }

  // ---- search box ----

  /** The dialog's search: title, author, genre, or ISBN when present. */
  predicate MatchesSearch(s: BookStats, query: string) {
    var q := Lower(query);
    Contains(Lower(s.book.title), q) || Contains(Lower(s.book.author), q) || Contains(Lower(s.book.genre), q)
    || (s.book.isbn.Some? && Contains(Lower(s.book.isbn.value), q))
  }

  function SearchStats(stats: seq<BookStats>, query: string): (r: seq<BookStats>)
    ensures forall s :: s in r <==> s in stats && MatchesSearch(s, query)
  {
    Filter(stats, (s: BookStats) => MatchesSearch(s, query))
  }

  /** An empty search box keeps every row, in order. */
  lemma EmptySearchKeepsAll(stats: seq<BookStats>)
    ensures SearchStats(stats, "") == stats
  {
    forall i | 0 <= i < |stats| ensures MatchesSearch(stats[i], "") {
      ContainsEmpty(Lower(stats[i].book.title));
    }
    FilterKeepsAll(stats, (s: BookStats) => MatchesSearch(s, ""));
  }

  // ---- column sort ----

  datatype SortField = Title | Author | Genre | Isbn | Stock | TotalSold | TotalRevenue
  datatype Direction = Asc | Desc
  datatype SortState = SortState(sortBy: SortField, direction: Direction)

  /** The dialog opens sorted by title, ascending. */
  const InitialSort := SortState(Title, Asc)

  /** handleSort: the current column flips its direction; another column starts descending. */
  function HandleSort(st: SortState, field: SortField): (r: SortState)
    ensures r.sortBy == field
    ensures field == st.sortBy ==> r.direction != st.direction
    ensures field != st.sortBy ==> r.direction == Desc
  {
    if st.sortBy == field then SortState(field, if st.direction == Asc then Desc else Asc)
    else SortState(field, Desc)
  }

  /** Clicking the current column twice restores the sort state. */
  lemma HandleSortTwice(st: SortState)
    ensures HandleSort(HandleSort(st, st.sortBy), st.sortBy) == st
  {
  }

  predicate IsNumeric(f: SortField) {
    f == Stock || f == TotalSold || f == TotalRevenue
  }

  function NumKey(s: BookStats, f: SortField): int {
    match f
    case Stock => s.book.stock
    case TotalSold => s.totalSold
    case TotalRevenue => s.totalRevenue
    case _ => 0
  }

  /** `a[sortBy] ?? ''` for the text columns. */
  function TextKey(s: BookStats, f: SortField): string {
    match f
    case Title => s.book.title
    case Author => s.book.author
    case Genre => s.book.genre
    case Isbn => if s.book.isbn.Some? then s.book.isbn.value else ""
    case _ => ""
  }

  /** compare(a, b) <= 0 for the dialog's comparator. */
  predicate InventoryLe(st: SortState, a: BookStats, b: BookStats) {
    if IsNumeric(st.sortBy) then
      (if st.direction == Asc then NumKey(a, st.sortBy) <= NumKey(b, st.sortBy)
       else NumKey(b, st.sortBy) <= NumKey(a, st.sortBy))
    else
      (if st.direction == Asc then LexLe(TextKey(a, st.sortBy), TextKey(b, st.sortBy))
       else LexLe(TextKey(b, st.sortBy), TextKey(a, st.sortBy)))
  }

  /** [...filteredBooks].sort(comparator) */
  function SortRows(stats: seq<BookStats>, st: SortState): seq<BookStats> {
    Sort(stats, (a: BookStats, b: BookStats) => InventoryLe(st, a, b))
  }

  lemma InventoryLePreorder(st: SortState)
    ensures Total((a: BookStats, b: BookStats) => InventoryLe(st, a, b))
    ensures Transitive((a: BookStats, b: BookStats) => InventoryLe(st, a, b))
  {
    var le := (a: BookStats, b: BookStats) => InventoryLe(st, a, b);
    forall a: BookStats, b: BookStats ensures le(a, b) || le(b, a) {
      LexLeTotal(TextKey(a, st.sortBy), TextKey(b, st.sortBy));
    }
    forall a: BookStats, b: BookStats, c: BookStats | le(a, b) && le(b, c) ensures le(a, c) {
      if !IsNumeric(st.sortBy) {
        if st.direction == Asc {
          LexLeTransitive(TextKey(a, st.sortBy), TextKey(b, st.sortBy), TextKey(c, st.sortBy));
        } else {
          LexLeTransitive(TextKey(c, st.sortBy), TextKey(b, st.sortBy), TextKey(a, st.sortBy));
        }
      }
    }
  }

  /** The sorted table is a permutation of the filtered rows, ordered by the comparator;
      on a numeric column it is non-decreasing when ascending, non-increasing when descending. */
  lemma SortRowsCorrect(stats: seq<BookStats>, st: SortState)
    ensures multiset(SortRows(stats, st)) == multiset(stats)
    ensures Sorted(SortRows(stats, st), (a: BookStats, b: BookStats) => InventoryLe(st, a, b))
    ensures IsNumeric(st.sortBy) && st.direction == Asc ==>
      forall i, j :: 0 <= i < j < |SortRows(stats, st)| ==>
        NumKey(SortRows(stats, st)[i], st.sortBy) <= NumKey(SortRows(stats, st)[j], st.sortBy)
    ensures IsNumeric(st.sortBy) && st.direction == Desc ==>
      forall i, j :: 0 <= i < j < |SortRows(stats, st)| ==>
        NumKey(SortRows(stats, st)[i], st.sortBy) >= NumKey(SortRows(stats, st)[j], st.sortBy)
  {
    InventoryLePreorder(st);
    SortSorted(stats, (a: BookStats, b: BookStats) => InventoryLe(st, a, b));
  }

  /** The rows the dialog shows: stats of every book, searched, then sorted. */
  function Table(books: seq<Book>, orders: seq<Order>, query: string, st: SortState): seq<BookStats> {
    SortRows(SearchStats(BooksWithStats(books, orders), query), st)
  }

  /** A book's row is shown iff the book matches the search, and the table is sorted. */
  lemma TableCorrect(books: seq<Book>, orders: seq<Order>, query: string, st: SortState)
    ensures forall s :: s in Table(books, orders, query, st) <==>
      s in BooksWithStats(books, orders) && MatchesSearch(s, query)
    ensures Sorted(Table(books, orders, query, st), (a: BookStats, b: BookStats) => InventoryLe(st, a, b))
  {
    var filtered := SearchStats(BooksWithStats(books, orders), query);
    SortRowsCorrect(filtered, st);
    SameMembers(Table(books, orders, query, st), filtered);
  }

  /** On opening, with no query and the initial sort, every book has its row and the
      rows run in ascending title order. */
  lemma InitialTable(books: seq<Book>, orders: seq<Order>)
    ensures var r := Table(books, orders, "", InitialSort);
      && multiset(r) == multiset(BooksWithStats(books, orders))
      && forall i, j :: 0 <= i < j < |r| ==> LexLe(r[i].book.title, r[j].book.title)
  {
    var stats := BooksWithStats(books, orders);
    EmptySearchKeepsAll(stats);
    SortRowsCorrect(stats, InitialSort);
    var r := Table(books, orders, "", InitialSort);
    forall i, j | 0 <= i < j < |r| ensures LexLe(r[i].book.title, r[j].book.title) {
      assert InventoryLe(InitialSort, r[i], r[j]);
    }
  }
}

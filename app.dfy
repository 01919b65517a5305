/** The catalogue screen (App): the component state and its handlers for
    purchase, selection, password change and book replacement, and the
    filtered, sorted, paginated book list. */
module App {
  import opened Types
  import opened Text
  import opened Seqs
  import opened Sorting
  import Inventory
  import BookDetail

  /** itemsPerPage */
  const PageSize: nat := 10

  /** The genre filter value that keeps every genre ('전체', "all"). */
  const AllGenres: string := "\U{C804}\U{CCB4}"

  datatype CatalogueSort = ByTitle | ByYear | ByAuthor

  // ---- lookups and replace-by-id ----

  /** books.findIndex(b => b.id === id) */
  function BookIndex(books: seq<Book>, id: string): int {
    FirstIndex(books, (b: Book) => b.id == id)
  }

  /** books.find(b => b.id === id) */
  function FindBook(books: seq<Book>, id: string): Option<Book> {
    var k := BookIndex(books, id);
    if k < 0 then None else Some(books[k])
  }

  /** books.map(b => b.id === id ? replacement : b) */
  function ReplaceById(books: seq<Book>, id: string, replacement: Book): (r: seq<Book>)
    ensures |r| == |books|
    ensures forall i :: 0 <= i < |r| ==> r[i] == if books[i].id == id then replacement else books[i]
  {
    seq(|books|, i requires 0 <= i < |books| => if books[i].id == id then replacement else books[i])
  }

  /** Replacing a listed book by a record with the same id keeps the ids unique,
      and looking the id up afterwards finds the replacement. */
  lemma ReplaceByIdFound(books: seq<Book>, replacement: Book)
    requires UniqueIds(books) && FindBook(books, replacement.id).Some?
    ensures UniqueIds(ReplaceById(books, replacement.id, replacement))
    ensures FindBook(ReplaceById(books, replacement.id, replacement), replacement.id) == Some(replacement)
  {
    var r := ReplaceById(books, replacement.id, replacement);
    assert forall i :: 0 <= i < |r| ==> r[i].id == books[i].id;
  }

  lemma {:induction false} StockSumReplace(books: seq<Book>, k: nat, replacement: Book)
    requires UniqueIds(books) && k < |books|
    ensures StockSum(ReplaceById(books, books[k].id, replacement))
         == StockSum(books) - books[k].stock + replacement.stock
  {
    var id := books[k].id;
    assert ReplaceById(books, id, replacement)[1..] == ReplaceById(books[1..], id, replacement);
    if k == 0 {
      StockSumUntouched(books[1..], id, replacement);
    } else {
      assert books[1..][k - 1].id == id;
      StockSumReplace(books[1..], k - 1, replacement);
    }
  }

  lemma {:induction false} StockSumUntouched(books: seq<Book>, id: string, replacement: Book)
    requires forall i :: 0 <= i < |books| ==> books[i].id != id
    ensures StockSum(ReplaceById(books, id, replacement)) == StockSum(books)
  {
    if books != [] {
      assert ReplaceById(books, id, replacement)[1..] == ReplaceById(books[1..], id, replacement);
      StockSumUntouched(books[1..], id, replacement);
    }
  }

  /** The order record handlePurchase prepends. */
  function NewOrder(orderId: string, bookId: string, userId: string, quantity: int, totalPrice: int, now: int): Order {
    Order(orderId, bookId, userId, quantity, totalPrice, now)
  }

  /** A purchase moves units from the shelves to the ledger: current total stock plus
      units sold (the inventory dialog's cards) is the same before and after. */
  lemma PurchaseConserves(books: seq<Book>, orders: seq<Order>, bookId: string, quantity: int,
                          order: Order)
    requires UniqueIds(books) && FindBook(books, bookId).Some?
    requires order.bookId == bookId && order.quantity == quantity
    ensures var b := FindBook(books, bookId).value;
      var after := Inventory.Totals(ReplaceById(books, bookId, b.(stock := b.stock - quantity)), [order] + orders);
      var before := Inventory.Totals(books, orders);
      after.currentTotalStock + after.totalSoldUnits == before.currentTotalStock + before.totalSoldUnits
      && after.totalBooks == before.totalBooks
  {
    var k := BookIndex(books, bookId);
    StockSumReplace(books, k, books[k].(stock := books[k].stock - quantity));
    assert ([order] + orders)[1..] == orders;
  }

  /** No book of the list has a negative stock. */
  predicate StockNonNegative(books: seq<Book>) {
    forall i :: 0 <= i < |books| ==> books[i].stock >= 0
  }

  /** A purchase of no more copies than the book has keeps every stock non-negative. */
  lemma CheckedPurchaseKeepsStock(books: seq<Book>, bookId: string, quantity: int)
    requires StockNonNegative(books) && FindBook(books, bookId).Some?
    requires quantity <= FindBook(books, bookId).value.stock
    ensures var b := FindBook(books, bookId).value;
      StockNonNegative(ReplaceById(books, bookId, b.(stock := b.stock - quantity)))
  {
  }

  // ---- selection ----

  /** handleSelectBook's update: remove the id when present, else append it. */
  function Toggle(selected: seq<string>, id: string): (r: seq<string>)
    ensures id in selected ==> id !in r && forall x :: x in r <==> x in selected && x != id
    ensures id in selected ==> r == Filter(selected, (x: string) => x != id)
    ensures id !in selected ==> r == selected + [id]
  {
    if id in selected then Filter(selected, (x: string) => x != id) else selected + [id]
  }

  /** Toggling an unselected id twice restores the selection. */
  lemma ToggleTwice(selected: seq<string>, id: string)
    requires id !in selected
    ensures Toggle(Toggle(selected, id), id) == selected
  {
    var p := (x: string) => x != id;
    FilterAppend(selected, [id], p);
    FilterKeepsAll(selected, p);
    assert Filter([id], p) == [];
  }

  /** currentIds.every(id => selected.includes(id)) */
  predicate AllSelected(selected: seq<string>, ids: seq<string>) {
    forall i :: 0 <= i < |ids| ==> ids[i] in selected
  }

  /** The forEach of handleSelectAll: append each id not yet present. */
  function AddMissing(acc: seq<string>, ids: seq<string>): (r: seq<string>)
    ensures |acc| <= |r| && r[..|acc|] == acc
    ensures forall x :: x in r <==> x in acc || x in ids
    ensures forall i :: |acc| <= i < |r| ==> r[i] !in acc && r[i] in ids
    ensures NoDup(r[|acc|..])
    ensures Subsequence(r[|acc|..], ids)
    decreases |ids|
  {
    if ids == [] then assert acc[|acc|..] == []; acc
    else if ids[0] in acc then AddMissing(acc, ids[1..])
    else
      var next := acc + [ids[0]];
      assert next[..|acc|] == acc;
      var r := AddMissing(next, ids[1..]);
      assert r[|acc|..] == [ids[0]] + r[|next|..];
      assert ids[0] !in r[|next|..] by {
        forall k | 0 <= k < |r[|next|..]| ensures r[|next|..][k] != ids[0] {
          assert r[|next|..][k] == r[|next| + k];
          assert ids[0] in next;
        }
      }
      NoDupCons(ids[0], r[|next|..]);
      assert ([ids[0]] + r[|next|..])[1..] == r[|next|..];
      r
  }

  /** handleSelectAll's loop: the selection is kept in order and the missing
      page ids are appended, each once and none already selected. */
  method AppendMissing(selected: seq<string>, pageIds: seq<string>) returns (newIds: seq<string>)
    ensures newIds == AddMissing(selected, pageIds)
    ensures |selected| <= |newIds| && newIds[..|selected|] == selected
    ensures forall x :: x in newIds <==> x in selected || x in pageIds
    ensures forall i :: |selected| <= i < |newIds| ==> newIds[i] !in selected
    ensures NoDup(newIds[|selected|..])
  {
    newIds := selected;
    var i := 0;
    while i < |pageIds|
      invariant 0 <= i <= |pageIds|
      invariant AddMissing(newIds, pageIds[i..]) == AddMissing(selected, pageIds)
    {
      var id := pageIds[i];
      assert pageIds[i..][0] == id && pageIds[i..][1..] == pageIds[i + 1..];
      if id !in newIds {
        newIds := newIds + [id];
      }
      i := i + 1;
    }
    assert pageIds[i..] == [];
  }

  /** handleSelectAll's new selection for the ids of the current page. */
  function SelectAll(selected: seq<string>, ids: seq<string>): (r: seq<string>)
    ensures AllSelected(selected, ids) ==> forall x :: x in r <==> x in selected && x !in ids
    ensures AllSelected(selected, ids) ==> r == Filter(selected, (x: string) => x !in ids)
    ensures !AllSelected(selected, ids) ==>
      |selected| <= |r| && r[..|selected|] == selected && forall x :: x in r <==> x in selected || x in ids
  {
    if AllSelected(selected, ids) then Filter(selected, (x: string) => x !in ids)
    else AddMissing(selected, ids)
  }

  /** After "select all" the page is fully selected, and a second "select all"
      leaves exactly the ids that were selected outside the page, in order. */
  lemma SelectAllTwice(selected: seq<string>, ids: seq<string>)
    requires !AllSelected(selected, ids)
    ensures AllSelected(SelectAll(selected, ids), ids)
    ensures SelectAll(SelectAll(selected, ids), ids) == Filter(selected, (x: string) => x !in ids)
  {
    var p := (x: string) => x !in ids;
    var r := AddMissing(selected, ids);
    assert AllSelected(r, ids) by {
      forall i | 0 <= i < |ids| ensures ids[i] in r {
        assert ids[i] in ids;
      }
    }
    assert SelectAll(r, ids) == Filter(r, p);
    var tail := r[|selected|..];
    assert r == selected + tail;
    FilterAppend(selected, tail, p);
    forall k | 0 <= k < |tail| ensures !p(tail[k]) {
      assert r[|selected| + k] == tail[k];
    }
    FilterDropsAll(tail, p);
  }

  // ---- password ----

  /** users.map(u => u.id === id ? { ...u, password } : u) */
  function WithPassword(users: seq<User>, id: string, password: string): (r: seq<User>)
    ensures |r| == |users|
    ensures forall i :: 0 <= i < |r| ==>
      r[i] == if users[i].id == id then users[i].(password := Some(password)) else users[i]
  {
    seq(|users|, i requires 0 <= i < |users| =>
      if users[i].id == id then users[i].(password := Some(password)) else users[i])
  }

  // ---- filter, sort, pages ----

  predicate MatchesCatalogue(b: Book, query: string, genre: string) {
    var q := Lower(query);
    (Contains(Lower(b.title), q) || Contains(Lower(b.author), q) || Contains(Lower(b.description), q))
    && (genre == AllGenres || b.genre == genre)
  }

  /** compare(a, b) <= 0 for the catalogue's comparator. */
  predicate CatalogueLe(sortBy: CatalogueSort, a: Book, b: Book) {
    match sortBy
    case ByTitle => LexLe(a.title, b.title)
    case ByYear => b.publishedYear - a.publishedYear <= 0
    case ByAuthor => LexLe(a.author, b.author)
  }

  function FilteredBooks(books: seq<Book>, query: string, genre: string, sortBy: CatalogueSort): seq<Book> {
    Sort(Filter(books, (b: Book) => MatchesCatalogue(b, query, genre)),
         (a: Book, b: Book) => CatalogueLe(sortBy, a, b))
  }

  lemma CatalogueLePreorder(sortBy: CatalogueSort)
    ensures Total((a: Book, b: Book) => CatalogueLe(sortBy, a, b))
    ensures Transitive((a: Book, b: Book) => CatalogueLe(sortBy, a, b))
  {
    forall a: Book, b: Book ensures CatalogueLe(sortBy, a, b) || CatalogueLe(sortBy, b, a) {
      LexLeTotal(a.title, b.title);
      LexLeTotal(a.author, b.author);
    }
    forall a: Book, b: Book, c: Book | CatalogueLe(sortBy, a, b) && CatalogueLe(sortBy, b, c)
      ensures CatalogueLe(sortBy, a, c)
    {
      if sortBy == ByTitle { LexLeTransitive(a.title, b.title, c.title); }
      if sortBy == ByAuthor { LexLeTransitive(a.author, b.author, c.author); }
    }
  }

  /** filteredBooks keeps exactly the matching books, all of them, ordered by the
      chosen key (newest year first for ByYear). */
  lemma FilteredBooksCorrect(books: seq<Book>, query: string, genre: string, sortBy: CatalogueSort)
    ensures var r := FilteredBooks(books, query, genre, sortBy);
      && multiset(r) == multiset(Filter(books, (b: Book) => MatchesCatalogue(b, query, genre)))
      && (forall b :: b in r <==> b in books && MatchesCatalogue(b, query, genre))
      && Sorted(r, (a: Book, b: Book) => CatalogueLe(sortBy, a, b))
      && (sortBy == ByYear ==> forall i, j :: 0 <= i < j < |r| ==> r[i].publishedYear >= r[j].publishedYear)
  {
    var kept := Filter(books, (b: Book) => MatchesCatalogue(b, query, genre));
    var r := FilteredBooks(books, query, genre, sortBy);
    CatalogueLePreorder(sortBy);
    SortSorted(kept, (a: Book, b: Book) => CatalogueLe(sortBy, a, b));
    SameMembers(r, kept);
    if sortBy == ByYear {
      forall i, j | 0 <= i < j < |r| ensures r[i].publishedYear >= r[j].publishedYear {
        assert CatalogueLe(sortBy, r[i], r[j]);
      }
    }
  }

  /** Two books tie under the chosen key. */
  predicate SameKey(sortBy: CatalogueSort, a: Book, b: Book) {
    match sortBy
    case ByTitle => a.title == b.title
    case ByYear => a.publishedYear == b.publishedYear
    case ByAuthor => a.author == b.author
  }

  /** The sort is stable: books that tie with `a` on the key keep their order in the book list. */
  lemma FilteredBooksStable(books: seq<Book>, query: string, genre: string, sortBy: CatalogueSort, a: Book)
    ensures Filter(FilteredBooks(books, query, genre, sortBy), (b: Book) => SameKey(sortBy, a, b))
         == Filter(Filter(books, (b: Book) => MatchesCatalogue(b, query, genre)), (b: Book) => SameKey(sortBy, a, b))
  {
    var tie := (b: Book) => SameKey(sortBy, a, b);
    var le := (x: Book, y: Book) => CatalogueLe(sortBy, x, y);
    forall x: Book, y: Book | tie(x) && tie(y) ensures le(x, y) {
      LexLeTotal(x.title, y.title);
      LexLeTotal(x.author, y.author);
    }
    SortStable(Filter(books, (b: Book) => MatchesCatalogue(b, query, genre)), le, tie);
  }

  /** Math.ceil(n / itemsPerPage) */
  function TotalPages(n: nat): (r: nat)
    ensures n <= r * PageSize
    ensures n > 0 ==> (r - 1) * PageSize < n
    ensures n == 0 <==> r == 0
  {
    (n + PageSize - 1) / PageSize
  }

  /** How Array.prototype.slice reads an index: negative counts from the end; clipped to the list. */
  function SliceIndex(i: int, len: nat): (r: nat)
    ensures r <= len
  {
    if i < 0 then (if len + i < 0 then 0 else len + i) else if i < len then i else len
  }

  function Slice<T>(s: seq<T>, start: int, end: int): seq<T> {
    var a := SliceIndex(start, |s|);
    var b := SliceIndex(end, |s|);
    if a < b then s[a..b] else []
  }

  /** getCurrentPageBooks for page number `page`. */
  function Page<T>(s: seq<T>, page: int): seq<T> {
    Slice(s, (page - 1) * PageSize, (page - 1) * PageSize + PageSize)
  }

  function Min(a: int, b: int): int { if a < b then a else b }

  /** Page p >= 1 is the window [(p-1)*10, p*10) clipped to the list. */
  lemma PageWindow<T>(s: seq<T>, page: int)
    requires page >= 1
    ensures Page(s, page) == s[Min((page - 1) * PageSize, |s|)..Min(page * PageSize, |s|)]
    ensures |Page(s, page)| <= PageSize
  {
  }

  /** Pages 1 through k, concatenated. */
  function JoinPages<T>(s: seq<T>, k: nat): seq<T> {
    if k == 0 then [] else JoinPages(s, k - 1) + Page(s, k)
  }

  lemma {:induction false} JoinPagesPrefix<T>(s: seq<T>, k: nat)
    ensures JoinPages(s, k) == s[..Min(k * PageSize, |s|)]
  {
    if k > 0 {
      JoinPagesPrefix(s, k - 1);
      PageWindow(s, k);
      var a := Min((k - 1) * PageSize, |s|);
      var b := Min(k * PageSize, |s|);
      assert s[..a] + s[a..b] == s[..b];
    }
  }

  /** Pages 1 through totalPages, concatenated, give back the whole list. */
  lemma PagesCoverList<T>(s: seq<T>)
    ensures JoinPages(s, TotalPages(|s|)) == s
  {
    JoinPagesPrefix(s, TotalPages(|s|));
  }

  function Ids(books: seq<Book>): (ids: seq<string>)
    ensures |ids| == |books| && forall i :: 0 <= i < |ids| ==> ids[i] == books[i].id
  {
    seq(|books|, i requires 0 <= i < |books| => books[i].id)
  }

  // ---- the component state ----

  class Storefront {
    var users: seq<User>
    var currentUser: Option<User>
    var books: seq<Book>
    var orders: seq<Order>
    var selectedBookIds: seq<string>
    var selectedBook: Option<Book>
    var searchQuery: string
    var selectedGenre: string
    var sortBy: CatalogueSort
    var currentPage: int

    /** The initial state: the loaded user list, book list and order ledger. */
    constructor (users0: seq<User>, books0: seq<Book>, orders0: seq<Order>)
      ensures users == users0 && books == books0 && orders == orders0
      ensures currentUser == None && selectedBookIds == [] && selectedBook == None
      ensures searchQuery == "" && selectedGenre == AllGenres && sortBy == ByTitle && currentPage == 1
    {
      users, books, orders := users0, books0, orders0;
      currentUser := None;
      selectedBookIds := [];
      selectedBook := None;
      searchQuery, selectedGenre, sortBy, currentPage := "", AllGenres, ByTitle, 1;
    }

    /** The books of the page being shown. */
    function CurrentPageBooks(): seq<Book>
      reads this
    {
      Page(FilteredBooks(books, searchQuery, selectedGenre, sortBy), currentPage)
    }

    /** handlePurchase: with a user logged in and a known book, subtract the
        quantity from its stock (without clamping) and prepend one order. */
    method HandlePurchase(bookId: string, quantity: int, totalPrice: int, orderId: string, now: int)
      modifies this`books, this`orders, this`selectedBook
      ensures old(currentUser).None? || FindBook(old(books), bookId).None? ==>
        books == old(books) && orders == old(orders) && selectedBook == old(selectedBook)
      ensures old(currentUser).Some? && FindBook(old(books), bookId).Some? ==>
        var b := FindBook(old(books), bookId).value;
        && books == ReplaceById(old(books), bookId, b.(stock := b.stock - quantity))
        && selectedBook == Some(b.(stock := b.stock - quantity))
        && orders == [NewOrder(orderId, bookId, old(currentUser).value.id, quantity, totalPrice, now)] + old(orders)
    {
      if currentUser.None? { return; }
      var found := FindBook(books, bookId);
      if found.None? { return; }
      var book := found.value;
      var updatedBook := book.(stock := book.stock - quantity);
      books := ReplaceById(books, bookId, updatedBook);
      selectedBook := Some(updatedBook);
      var newOrder := NewOrder(orderId, bookId, currentUser.value.id, quantity, totalPrice, now);
      orders := [newOrder] + orders;
    }

    /** handlePurchase with the stock check it lacks: a purchase of more copies than
        the book has is refused and changes nothing. */
    method HandleCheckedPurchase(bookId: string, quantity: int, totalPrice: int, orderId: string, now: int)
      returns (accepted: bool)
      modifies this`books, this`orders, this`selectedBook
      ensures accepted <==>
        old(currentUser).Some? && FindBook(old(books), bookId).Some? && quantity <= FindBook(old(books), bookId).value.stock
      ensures !accepted ==> books == old(books) && orders == old(orders) && selectedBook == old(selectedBook)
      ensures accepted ==>
        var b := FindBook(old(books), bookId).value;
        && books == ReplaceById(old(books), bookId, b.(stock := b.stock - quantity))
        && selectedBook == Some(b.(stock := b.stock - quantity))
        && orders == [NewOrder(orderId, bookId, old(currentUser).value.id, quantity, totalPrice, now)] + old(orders)
      ensures StockNonNegative(old(books)) ==> StockNonNegative(books)
    {
      var found := FindBook(books, bookId);
      if currentUser.None? || found.None? || quantity > found.value.stock {
        return false;
      }
      if StockNonNegative(books) {
        CheckedPurchaseKeepsStock(books, bookId, quantity);
      }
      HandlePurchase(bookId, quantity, totalPrice, orderId, now);
      accepted := true;
    }

    /** handleSelectBook */
    method HandleSelectBook(id: string)
      modifies this`selectedBookIds
      ensures selectedBookIds == Toggle(old(selectedBookIds), id)
    {
      selectedBookIds := if id in selectedBookIds then Filter(selectedBookIds, (x: string) => x != id)
                         else selectedBookIds + [id];
    }

    /** handleSelectAll over the ids of the current page. */
    method HandleSelectAll()
      modifies this`selectedBookIds
      ensures selectedBookIds == SelectAll(old(selectedBookIds), Ids(CurrentPageBooks()))
    {
      var currentIds := Ids(CurrentPageBooks());
      if AllSelected(selectedBookIds, currentIds) {
        selectedBookIds := Filter(selectedBookIds, (x: string) => x !in currentIds);
      } else {
        selectedBookIds := AppendMissing(selectedBookIds, currentIds);
      }
    }

    /** handlePasswordChange: only the logged-in user's password changes. */
    method HandlePasswordChange(newPassword: string)
      modifies this`users, this`currentUser
      ensures old(currentUser).None? ==> users == old(users) && currentUser == old(currentUser)
      ensures old(currentUser).Some? ==>
        && users == WithPassword(old(users), old(currentUser).value.id, newPassword)
        && currentUser == Some(old(currentUser).value.(password := Some(newPassword)))
    {
      if currentUser.Some? {
        var u := currentUser.value;
        users := WithPassword(users, u.id, newPassword);
        currentUser := Some(u.(password := Some(newPassword)));
      }
    }

    /** onUpdateBook as the detail dialog calls it. */
    method OnUpdateBook(updatedBook: Book)
      modifies this`books, this`selectedBook
      ensures books == ReplaceById(old(books), updatedBook.id, updatedBook)
      ensures selectedBook == Some(updatedBook)
    {
      books := ReplaceById(books, updatedBook.id, updatedBook);
      selectedBook := Some(updatedBook);
    }
  }

  // ---- purchases through the detail dialog ----

  /** A book with five copies at 1000 each. */
  function SampleBook(): Book {
    Book("b1", "Title", "Author", "Genre", "", "", 2020, None, "admin", 0, 5, Some(1000), [], [])
  }

  /** A signed-in customer. */
  function SampleUser(): User {
    User("u1", Some("pass"), Member)
  }

  /** A storefront with the sample customer signed in and the sample book listed,
      and the sample book's detail dialog opened by that customer. */
  method OpenSample() returns (shop: Storefront, dialog: BookDetail.DetailDialog)
    ensures fresh(shop) && fresh(dialog)
    ensures shop.books == [SampleBook()] && shop.orders == [] && shop.currentUser == Some(SampleUser())
    ensures dialog.book == SampleBook() && dialog.userId == SampleUser().id && dialog.purchaseQuantity == 1
  {
    shop := new Storefront([SampleUser()], [SampleBook()], []);
    // Signing in is outside this model, so the customer is set directly.
    shop.currentUser := Some(SampleUser());
    dialog := new BookDetail.DetailDialog(SampleBook(), SampleUser().id);
  }

  /** The worked purchase: + pressed twice, then buy. Three copies at 1000 leave two on
      the shelf, and the ledger gains one order of 3 copies for 3000. */
  method PurchaseWalkthrough() returns (stockAfter: int, order: Order, quantityAfter: int)
    ensures stockAfter == 2 && quantityAfter == 3
    ensures order == Order("o1", "b1", "u1", 3, 3000, 0)
  {
    var shop, dialog := OpenSample();
    var _ := dialog.HandleIncreaseQty();
    var _ := dialog.HandleIncreaseQty();
    var args := dialog.PurchaseArgs();
    shop.HandlePurchase(args.0, args.1, args.2, "o1", 0);
    assert shop.books[0] == SampleBook().(stock := 2);
    stockAfter := shop.books[0].stock;
    order := shop.orders[0];
    quantityAfter := dialog.purchaseQuantity;
  }

  /** The dialog stays open on the updated book with its quantity kept, so a second
      buy of the same quantity goes through and drives the stock below zero. */
  method OverPurchase() returns (stockAfterFirst: int, quantityOkAfterFirst: bool, stockAfterSecond: int)
    ensures stockAfterFirst == 2 && !quantityOkAfterFirst && stockAfterSecond == -1
  {
    var shop, dialog := OpenSample();
    var _ := dialog.HandleIncreaseQty();
    var _ := dialog.HandleIncreaseQty();
    var args := dialog.PurchaseArgs();
    shop.HandlePurchase(args.0, args.1, args.2, "o1", 0);
    assert shop.books[0] == SampleBook().(stock := 2);
    dialog.book := shop.selectedBook.value;
    stockAfterFirst := dialog.book.stock;
    quantityOkAfterFirst := dialog.QuantityOk();
    args := dialog.PurchaseArgs();
    shop.HandlePurchase(args.0, args.1, args.2, "o2", 1);
    assert shop.books[0] == SampleBook().(stock := -1);
    stockAfterSecond := shop.books[0].stock;
  }

  /** The same two buys against the checked purchase: the second is refused and the
      stock stays at two. */
  method CheckedOverPurchase() returns (firstAccepted: bool, secondAccepted: bool, stockAfter: int)
    ensures firstAccepted && !secondAccepted && stockAfter == 2
  {
    var shop, dialog := OpenSample();
    var _ := dialog.HandleIncreaseQty();
    var _ := dialog.HandleIncreaseQty();
    var args := dialog.PurchaseArgs();
    firstAccepted := shop.HandleCheckedPurchase(args.0, args.1, args.2, "o1", 0);
    assert shop.books[0] == SampleBook().(stock := 2);
    dialog.book := shop.selectedBook.value;
    args := dialog.PurchaseArgs();
    secondAccepted := shop.HandleCheckedPurchase(args.0, args.1, args.2, "o2", 1);
    stockAfter := shop.books[0].stock;
  }
}

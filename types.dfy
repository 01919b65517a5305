/** The storefront's records, as declared in src/types.ts.
    Dates are integer timestamps (milliseconds); numbers are integers. */
module Types {

  datatype Option<+T> = None | Some(value: T)

  datatype Review = Review(id: string, userId: string, comment: string, timestamp: int)

  datatype Rating = Rating(userId: string, rating: int, timestamp: int)

  datatype Book = Book(
    id: string,
    title: string,
    author: string,
    genre: string,
    description: string,
    coverImage: string,
    publishedYear: int,
    isbn: Option<string>,
    createdBy: string,
    createdAt: int,
    stock: int,
    price: Option<int>,
    ratings: seq<Rating>,
    reviews: seq<Review>)

  /** The role union 'admin' | 'user'. */
  datatype Role = Admin | Member

  datatype User = User(id: string, password: Option<string>, role: Role)

  datatype Order = Order(
    id: string,
    bookId: string,
    userId: string,
    quantity: int,
    totalPrice: int,
    purchaseDate: int)

  /** No two books of the list share an id. */
  predicate UniqueIds(books: seq<Book>) {
    forall i, j :: 0 <= i < j < |books| ==> books[i].id != books[j].id
  }

  /** Sum of the stock counters of a book list. */
  function StockSum(books: seq<Book>): int {
    if books == [] then 0 else books[0].stock + StockSum(books[1..])
  }
}

/** The catalogue card (BookCard): click dispatch, stock badge and rating badge. */
module BookCard {
  import opened Types
  import opened Ratings

  /** Which callback a click invokes. */
  datatype ClickAction = SelectBook(id: string) | OpenBook(book: Book)

  /** handleClick: in selection mode onSelect(book.id), otherwise onBookClick(book). */
  function HandleClick(book: Book, isSelectionMode: bool): (a: ClickAction)
    ensures a.SelectBook? <==> isSelectionMode
    ensures a.SelectBook? ==> a.id == book.id
    ensures a.OpenBook? ==> a.book == book
  {
    if isSelectionMode then SelectBook(book.id) else OpenBook(book)
  }

  datatype StockBadge = InStock(count: int) | SoldOut

  /** The card's stock line: the count while positive, "sold out" otherwise. */
  function StockLabel(book: Book): (b: StockBadge)
    ensures b.SoldOut? <==> book.stock <= 0
    ensures b.InStock? ==> b.count == book.stock && b.count > 0
  {
    if book.stock > 0 then InStock(book.stock) else SoldOut
  }

  /** `averageRating > 0`: the card shows the star badge. */
  predicate ShowsRating(book: Book) {
    AverageRating(book.ratings) > 0.0
  }

  /** With star ratings from 1 to 5 the badge shows exactly when the book has a rating. */
  lemma ShowsRatingIffRated(book: Book)
    requires RatingsWithin(book.ratings, 1, 5)
    ensures ShowsRating(book) <==> |book.ratings| > 0
  {
    if |book.ratings| > 0 {
      AverageWithin(book.ratings, 1, 5);
    }
  }
}

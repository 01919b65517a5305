/** The book detail dialog (BookDetailDialog): rating upsert, the review list
    updates that follow the comment requests, the purchase-quantity stepper,
    the administrator's stock buttons and the price shown and charged. */
module BookDetail {
  import opened Types
  import opened Text
  import opened Seqs
  import opened Ratings

  // ---- price ----

  /** The unit price used when a book has no (or a zero) price. */
  const DefaultPrice := 15000

  /** BOOK_PRICE = book.price || 15000 */
  function UnitPrice(price: Option<int>): (p: int)
    ensures price.Some? && price.value != 0 ==> p == price.value
    ensures price.None? || price.value == 0 ==> p == DefaultPrice
    ensures p != 0
  {
    if price.Some? && price.value != 0 then price.value else DefaultPrice
  }

  /** The order total passed to onPurchase. */
  function OrderTotal(book: Book, quantity: int): int {
    UnitPrice(book.price) * quantity
  }

  // ---- ratings ----

  /** ratings.findIndex(r => r.userId === userId) */
  function RatingIndex(ratings: seq<Rating>, userId: string): int {
    FirstIndex(ratings, (r: Rating) => r.userId == userId)
  }

  /** ratings.find(r => r.userId === userId) */
  function FindRating(ratings: seq<Rating>, userId: string): Option<Rating> {
    var k := RatingIndex(ratings, userId);
    if k < 0 then None else Some(ratings[k])
  }

  /** The new ratings list of handleRating: the user's first entry overwritten in
      place, or one entry appended; every other entry unchanged. */
  function UpsertRating(ratings: seq<Rating>, userId: string, rating: int, now: int): (r: seq<Rating>)
    ensures var k := RatingIndex(ratings, userId);
      && (k >= 0 ==> |r| == |ratings| && r[k] == Rating(userId, rating, now)
                     && forall i :: 0 <= i < |r| && i != k ==> r[i] == ratings[i])
      && (k < 0 ==> |r| == |ratings| + 1 && r[..|ratings|] == ratings && r[|ratings|] == Rating(userId, rating, now))
  {
    var k := RatingIndex(ratings, userId);
    if k >= 0 then ratings[k := Rating(userId, rating, now)] else ratings + [Rating(userId, rating, now)]
  }

  /** After rating, the user's rating as `find` sees it is the new one. */
  lemma UpsertThenFind(ratings: seq<Rating>, userId: string, rating: int, now: int)
    ensures FindRating(UpsertRating(ratings, userId, rating, now), userId) == Some(Rating(userId, rating, now))
  {
    var r := UpsertRating(ratings, userId, rating, now);
    var k := RatingIndex(ratings, userId);
    var k' := RatingIndex(r, userId);
    if k >= 0 {
      assert r[k].userId == userId;
      assert k' == k;
    } else {
      assert r[|ratings|].userId == userId;
      assert k' == |ratings|;
    }
  }

  /** Each user has at most one rating. */
  predicate OnePerUser(ratings: seq<Rating>) {
    forall i, j :: 0 <= i < j < |ratings| ==> ratings[i].userId != ratings[j].userId
  }

  /** Rating keeps "one rating per user". */
  lemma UpsertKeepsOnePerUser(ratings: seq<Rating>, userId: string, rating: int, now: int)
    requires OnePerUser(ratings)
    ensures OnePerUser(UpsertRating(ratings, userId, rating, now))
  {
    var r := UpsertRating(ratings, userId, rating, now);
    var k := RatingIndex(ratings, userId);
    assert forall i :: 0 <= i < |ratings| ==> r[i].userId == ratings[i].userId;
  }

  // ---- reviews ----

  /** The new review list after a successful POST: the server's review first. */
  function PrependReview(reviews: seq<Review>, review: Review): (r: seq<Review>)
    ensures |r| == |reviews| + 1 && r[0] == review && r[1..] == reviews
  {
    [review] + reviews
  }

  /** The list update after a successful PATCH: comment and timestamp replaced
      on the reviews with that id, every other review unchanged. */
  function EditReviews(reviews: seq<Review>, id: string, text: string, now: int): (r: seq<Review>)
    ensures |r| == |reviews|
    ensures forall i :: 0 <= i < |r| ==> r[i].id == reviews[i].id && r[i].userId == reviews[i].userId
    ensures forall i :: 0 <= i < |r| && reviews[i].id == id ==> r[i].comment == Trim(text) && r[i].timestamp == now
    ensures forall i :: 0 <= i < |r| && reviews[i].id != id ==> r[i] == reviews[i]
  {
    seq(|reviews|, i requires 0 <= i < |reviews| =>
      if reviews[i].id == id then reviews[i].(comment := Trim(text), timestamp := now) else reviews[i])
  }

  /** The list update after a 204 DELETE. */
  function DeleteReviews(reviews: seq<Review>, id: string): (r: seq<Review>)
    ensures forall x :: x in r <==> x in reviews && x.id != id
  {
    Filter(reviews, (x: Review) => x.id != id)
  }

  predicate UniqueReviewIds(reviews: seq<Review>) {
    forall i, j :: 0 <= i < j < |reviews| ==> reviews[i].id != reviews[j].id
  }

  /** Deleting removes exactly the reviews with that id and keeps the rest in order:
      from a list with unique ids, deleting a present id removes one review. */
  lemma {:induction false} DeleteOne(reviews: seq<Review>, k: nat)
    requires UniqueReviewIds(reviews) && k < |reviews|
    ensures DeleteReviews(reviews, reviews[k].id) == reviews[..k] + reviews[k + 1..]
  {
    var id := reviews[k].id;
    var p := (x: Review) => x.id != id;
    var pre, post := reviews[..k], reviews[k + 1..];
    assert reviews == pre + [reviews[k]] + post;
    forall i | 0 <= i < |pre| ensures p(pre[i]) {
      assert pre[i] == reviews[i];
    }
    forall i | 0 <= i < |post| ensures p(post[i]) {
      assert post[i] == reviews[k + 1 + i];
    }
    FilterDropsOne(pre, reviews[k], post, p);
  }

  /** What the server answered to the comment POST. */
  datatype CommentReply = Created(review: Review) | Failed

  /** `!token`: no access token, or an empty one. */
  predicate HasToken(token: Option<string>) {
    token.Some? && token.value != ""
  }

  /** The dialog's state. `book` stands for the prop that App replaces whenever the
      dialog calls onUpdateBook. */
  class DetailDialog {
    var book: Book
    const userId: string
    var purchaseQuantity: int
    var reviewText: string
    var editingReviewId: Option<string>
    var editingReviewText: string

    constructor (book0: Book, userId0: string)
      ensures book == book0 && userId == userId0 && purchaseQuantity == 1
      ensures reviewText == "" && editingReviewId == None && editingReviewText == ""
    {
      book, userId := book0, userId0;
      purchaseQuantity := 1;
      reviewText := "";
      editingReviewId, editingReviewText := None, "";
    }

    /** The stepper's invariant: at least one copy, and no more than the stock while it lasts. */
    predicate QuantityOk()
      reads this
    {
      1 <= purchaseQuantity && (book.stock >= 1 ==> purchaseQuantity <= book.stock)
    }

    /** handleRating: copy the list, overwrite the user's entry or push a new one. */
    method HandleRating(rating: int, now: int)
      modifies this`book
      ensures book == old(book).(ratings := UpsertRating(old(book).ratings, userId, rating, now))
    {
      var existing := RatingIndex(book.ratings, userId);
      var newRatings := book.ratings;
      if existing >= 0 {
        newRatings := newRatings[existing := Rating(userId, rating, now)];
      } else {
        newRatings := newRatings + [Rating(userId, rating, now)];
      }
      book := book.(ratings := newRatings);
    }

    /** handleSubmitReview, given the stored access token and the server's answer.
        Returns whether the POST was sent. */
    method HandleSubmitReview(token: Option<string>, reply: CommentReply) returns (sent: bool)
      modifies this`book, this`reviewText
      ensures sent <==> !AllSpace(old(reviewText)) && HasToken(token)
      ensures sent && reply.Created? ==>
        book == old(book).(reviews := PrependReview(old(book).reviews, reply.review)) && reviewText == ""
      ensures !(sent && reply.Created?) ==> book == old(book) && reviewText == old(reviewText)
    {
      TrimEmptyIff(reviewText);
      if Trim(reviewText) == "" {
        return false;
      }
      if !HasToken(token) {
        return false;
      }
      sent := true;
      if reply.Created? {
        book := book.(reviews := PrependReview(book.reviews, reply.review));
        reviewText := "";
      }
    }

    /** handleEditReview: enter edit mode on the first review with that id, if any. */
    method HandleEditReview(reviewId: string)
      modifies this`editingReviewId, this`editingReviewText
      ensures var k := FirstIndex(book.reviews, (r: Review) => r.id == reviewId);
        && (k >= 0 ==> editingReviewId == Some(reviewId) && editingReviewText == book.reviews[k].comment)
        && (k < 0 ==> editingReviewId == old(editingReviewId) && editingReviewText == old(editingReviewText))
    {
      var k := FirstIndex(book.reviews, (r: Review) => r.id == reviewId);
      if k >= 0 {
        editingReviewId := Some(reviewId);
        editingReviewText := book.reviews[k].comment;
      }
    }

    /** handleUpdateReview, given the stored token and whether the PATCH succeeded. */
    method HandleUpdateReview(token: Option<string>, patchOk: bool, now: int) returns (sent: bool)
      modifies this`book, this`editingReviewId, this`editingReviewText
      ensures sent <==> !AllSpace(old(editingReviewText)) && HasToken(token)
      ensures sent && patchOk ==>
        && book == old(book).(reviews :=
             if old(editingReviewId).Some?
             then EditReviews(old(book).reviews, old(editingReviewId).value, old(editingReviewText), now)
             else old(book).reviews)
        && editingReviewId == None && editingReviewText == ""
      ensures !(sent && patchOk) ==>
        book == old(book) && editingReviewId == old(editingReviewId) && editingReviewText == old(editingReviewText)
    {
      TrimEmptyIff(editingReviewText);
      if Trim(editingReviewText) == "" {
        return false;
      }
      if !HasToken(token) {
        return false;
      }
      sent := true;
      if patchOk {
        if editingReviewId.Some? {
          book := book.(reviews := EditReviews(book.reviews, editingReviewId.value, editingReviewText, now));
        }
        editingReviewId := None;
        editingReviewText := "";
      }
    }

    /** handleDeleteReview, given the confirmation answer, the stored token and the
        DELETE's status: only a 204 removes the review from the list. */
    method HandleDeleteReview(reviewId: string, confirmed: bool, token: Option<string>, status: int)
      returns (sent: bool)
      modifies this`book
      ensures sent <==> confirmed && HasToken(token)
      ensures sent && status == 204 ==> book == old(book).(reviews := DeleteReviews(old(book).reviews, reviewId))
      ensures !(sent && status == 204) ==> book == old(book)
    {
      if !confirmed { return false; }
      if !HasToken(token) { return false; }
      sent := true;
      if status == 204 {
        book := book.(reviews := DeleteReviews(book.reviews, reviewId));
      }
    }

    /** handleIncreaseQty; returns whether the "not enough stock" alert is shown. */
    method HandleIncreaseQty() returns (alerted: bool)
      modifies this`purchaseQuantity
      ensures old(purchaseQuantity) < book.stock ==> purchaseQuantity == old(purchaseQuantity) + 1 && !alerted
      ensures old(purchaseQuantity) >= book.stock ==> purchaseQuantity == old(purchaseQuantity) && alerted
      ensures old(QuantityOk()) ==> QuantityOk()
    {
      if purchaseQuantity < book.stock {
        purchaseQuantity := purchaseQuantity + 1;
        alerted := false;
      } else {
        alerted := true;
      }
    }

    /** handleDecreaseQty */
    method HandleDecreaseQty()
      modifies this`purchaseQuantity
      ensures purchaseQuantity == if old(purchaseQuantity) > 1 then old(purchaseQuantity) - 1 else old(purchaseQuantity)
      ensures old(QuantityOk()) ==> QuantityOk()
    {
      if purchaseQuantity > 1 {
        purchaseQuantity := purchaseQuantity - 1;
      }
    }

    /** handleAdminIncreaseStock */
    method HandleAdminIncreaseStock()
      modifies this`book
      ensures book == old(book).(stock := old(book).stock + 1)
    {
      book := book.(stock := book.stock + 1);
    }

    /** handleAdminDecreaseStock: a no-op at zero or below, so it never drives stock negative. */
    method HandleAdminDecreaseStock()
      modifies this`book
      ensures old(book).stock <= 0 ==> book == old(book)
      ensures old(book).stock > 0 ==> book == old(book).(stock := old(book).stock - 1)
      ensures old(book).stock >= 0 ==> book.stock >= 0
      ensures old(QuantityOk()) && old(purchaseQuantity) < old(book).stock ==> QuantityOk()
      ensures old(purchaseQuantity) == 1 ==> QuantityOk()
    {
      if book.stock <= 0 { return; }
      book := book.(stock := book.stock - 1);
    }

    /** The arguments of onPurchase: book id, quantity, unit price times quantity. */
    function PurchaseArgs(): (args: (string, int, int))
      reads this
      ensures args.0 == book.id && args.1 == purchaseQuantity
      ensures args.2 == UnitPrice(book.price) * purchaseQuantity
    {
      (book.id, purchaseQuantity, OrderTotal(book, purchaseQuantity))
    }
  }
}

/** The personal page (MyPage): the user's order history and the
    password-change form. */
module MyPage {
  import opened Types
  import opened Seqs
  import opened Sorting

  /** compare(a, b) <= 0 for `b.purchaseDate - a.purchaseDate`. */
  predicate NewerFirst(a: Order, b: Order) {
    b.purchaseDate - a.purchaseDate <= 0
  }

  /** myOrders: the user's orders, most recent first. */
  function MyOrders(orders: seq<Order>, userId: string): seq<Order> {
    Sort(Filter(orders, (o: Order) => o.userId == userId), (a: Order, b: Order) => NewerFirst(a, b))
  }

  /** The history holds only the user's orders, every one of them (a permutation
      of the filtered ledger), and is non-increasing in purchase date. */
  lemma MyOrdersCorrect(orders: seq<Order>, userId: string)
    ensures var r := MyOrders(orders, userId);
      && (forall i :: 0 <= i < |r| ==> r[i].userId == userId)
      && multiset(r) == multiset(Filter(orders, (o: Order) => o.userId == userId))
      && (forall o :: o in r <==> o in orders && o.userId == userId)
      && (forall i, j :: 0 <= i < j < |r| ==> r[i].purchaseDate >= r[j].purchaseDate)
  {
    var le := (a: Order, b: Order) => NewerFirst(a, b);
    var mine := Filter(orders, (o: Order) => o.userId == userId);
    var r := Sort(mine, le);
    SortSorted(mine, le);
    SameMembers(r, mine);
    forall i | 0 <= i < |r| ensures r[i].userId == userId {
      assert r[i] in mine;
    }
    forall i, j | 0 <= i < j < |r| ensures r[i].purchaseDate >= r[j].purchaseDate {
      assert le(r[i], r[j]);
    }
  }

  /** Counted against the whole ledger: each of the user's orders appears in the
      history as often as in the ledger, and nobody else's order appears. */
  lemma MyOrdersCounts(orders: seq<Order>, userId: string)
    ensures forall o :: multiset(MyOrders(orders, userId))[o] == if o.userId == userId then multiset(orders)[o] else 0
  {
    FilterMultiset(orders, (o: Order) => o.userId == userId);
  }

  /** newPassword.length must be at least this. */
  const MinPasswordLength := 4

  /** The message the form shows: none, or one of its three errors. */
  datatype PasswordError = NoError | WrongCurrentPassword | NewPasswordTooShort | ConfirmationMismatch

  /** The three checks of handlePasswordSubmit, in order; the first that fails decides. */
  function CheckPasswordChange(stored: Option<string>, current: string, newPassword: string, confirm: string): (e: PasswordError)
    ensures e == WrongCurrentPassword <==> stored != Some(current)
    ensures e == NewPasswordTooShort <==> stored == Some(current) && |newPassword| < MinPasswordLength
    ensures e == ConfirmationMismatch <==>
      stored == Some(current) && |newPassword| >= MinPasswordLength && newPassword != confirm
    ensures e == NoError <==>
      stored == Some(current) && |newPassword| >= MinPasswordLength && newPassword == confirm
  {
    if stored != Some(current) then WrongCurrentPassword
    else if |newPassword| < MinPasswordLength then NewPasswordTooShort
    else if newPassword != confirm then ConfirmationMismatch
    else NoError
  }

  /** The form's state; `changeRequests` records every onPasswordChange call. */
  class PasswordForm {
    var currentPassword: string
    var newPassword: string
    var confirmPassword: string
    var passwordError: PasswordError
    var passwordSuccess: bool
    var changeRequests: seq<string>

    constructor ()
      ensures currentPassword == "" && newPassword == "" && confirmPassword == ""
      ensures passwordError == NoError && !passwordSuccess && changeRequests == []
    {
      currentPassword, newPassword, confirmPassword := "", "", "";
      passwordError, passwordSuccess := NoError, false;
      changeRequests := [];
    }

    /** handlePasswordSubmit for a user whose stored password is `userPassword`. */
    method HandlePasswordSubmit(userPassword: Option<string>)
      modifies this
      ensures var e := CheckPasswordChange(userPassword, old(currentPassword), old(newPassword), old(confirmPassword));
        && passwordError == e
        && passwordSuccess == (e == NoError)
        && (e == NoError ==>
              && changeRequests == old(changeRequests) + [old(newPassword)]
              && currentPassword == "" && newPassword == "" && confirmPassword == "")
        && (e != NoError ==>
              && changeRequests == old(changeRequests)
              && currentPassword == old(currentPassword) && newPassword == old(newPassword)
              && confirmPassword == old(confirmPassword))
    {
      passwordError := NoError;
      passwordSuccess := false;
      if userPassword != Some(currentPassword) {
        passwordError := WrongCurrentPassword;
        return;
      }
      if |newPassword| < MinPasswordLength {
        passwordError := NewPasswordTooShort;
        return;
      }
      if newPassword != confirmPassword {
        passwordError := ConfirmationMismatch;
        return;
      }
      changeRequests := changeRequests + [newPassword];
      passwordSuccess := true;
      currentPassword := "";
      newPassword := "";
      confirmPassword := "";
    }
  }
}

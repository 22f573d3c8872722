/** The rules a placement is decided by. Money is an integer count of centavos. */
module OrderRules {
  import opened Options

  /** Ceiling of every INT column, and so of every id and size. */
  const MAX_INT4: int := 2147483647

  /** A row's side is a VARCHAR: the seed carries transfers too, and a text that is none
      of the four is a side no fold recognises. */
  datatype Side = Buy | Sell | CashIn | CashOut | UnknownSide

  type TradeSide = side: Side | side.Buy? || side.Sell? witness Buy

  datatype OrderType = Market | Limit

  datatype Status = New | Filled | Rejected | Cancelled

  predicate CanTransition(from: Status, to: Status) {
    from == New && to == Cancelled
  }

  /** The statuses a cancel may leave. */
  predicate Cancellable(status: Status)
    ensures Cancellable(status) <==> status == New
  {
    CanTransition(status, Cancelled)
  }

  datatype Sizing = Sized(size: int) | NotOneOf | BuysNoShare | BuysTooMany

  /** Whole shares out of a size or an amount. The bounds are checked on the operands, so
      the division is reached only with a positive price: no precondition is needed. */
  function ResolveSize(size: Option<int>, amount: Option<int>, price: int): (r: Sizing)
    ensures r.NotOneOf? <==> size.Some? == amount.Some?
    ensures size.Some? && amount.None? ==> r == Sized(size.value)
    ensures r.Sized? && amount.Some? ==>
              && price > 0
              && 1 <= r.size <= MAX_INT4
              && r.size * price <= amount.value < (r.size + 1) * price
  {
    if size.None? == amount.None? then NotOneOf
    else if size.Some? then Sized(size.value)
    else if amount.value < price then BuysNoShare
    else if amount.value >= price * (MAX_INT4 + 1) then BuysTooMany
    else
      DivideDown(amount.value, price);
      Sized(amount.value / price)
  }

  /** What the two bounds leave: a positive price and a quotient a column can hold. */
  lemma DivideDown(amount: int, price: int)
    requires price <= amount < price * (MAX_INT4 + 1)
    ensures price > 0
    ensures 1 <= amount / price <= MAX_INT4
    ensures (amount / price) * price <= amount < (amount / price + 1) * price
  {
    var n := amount / price;
    assert amount == n * price + amount % price;
  }

  /** An amount is sized exactly when some column-sized count of shares is its floor. */
  lemma SizedIffSomeCountFits(amount: int, price: int)
    ensures ResolveSize(None, Some(amount), price).Sized? <==>
            exists n :: 1 <= n <= MAX_INT4 && n * price <= amount < (n + 1) * price
  {
    if n :| 1 <= n <= MAX_INT4 && n * price <= amount < (n + 1) * price {
      assert price > 0 by {
        assert (n + 1) * price == n * price + price;
      }
      assert price <= n * price;
      assert (n + 1) * price <= (MAX_INT4 + 1) * price;
    }
  }

  datatype Decision = Decision(status: Status, price: int)

  function Decide(side: Side, otype: OrderType, price: Option<int>, close: int,
                  availableCash: int, heldShares: int, size: int): Decision
  {
    var executed := if otype.Limit? && price.Some? then price.value else close;
    var covered := if side.Buy? then availableCash >= executed * size else heldShares >= size;
    var accepted := if otype.Market? then Filled else New;
    Decision(if covered then accepted else Rejected, executed)
  }
}

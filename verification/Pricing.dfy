/** Checkout money: subtotal, promo discount, loyalty points and rounding, in exact
    arithmetic.  Amounts the source keeps in currency units are reals here; prices are
    two-decimal columns, so they are given in whole cents. */
module Pricing {
  import opened Basics

  datatype Line = Line(variantPrice: Option<nat>, productPrice: Option<nat>, quantity: nat)

  datatype Discount = Percentage | Fixed

  datatype Promo = Promo(kind: Discount, value: real, minOrder: Option<real>, maxUses: Option<nat>,
                         uses: nat, active: bool, expired: bool)

  datatype PromoError = Inactive | PromoExpired | UsedUp | BelowMinimum

  datatype Result<+T, +E> = Success(value: T) | Failure(error: E)

  /** `Math.round`: halves go up. */
  function Round(x: real): int {
    (x + 0.5).Floor
  }

  function Ceil(x: real): int {
    -(-x).Floor
  }

  function Cents(amount: real): int {
    Round(amount * 100.0)
  }

  function UnitPrice(line: Line): nat {
    match line.variantPrice
    case Some(p) => p
    case None => match line.productPrice case Some(p) => p case None => 0
  }

  function Subtotal(lines: seq<Line>): nat {
    if lines == [] then 0
    else Subtotal(lines[..|lines| - 1]) + UnitPrice(lines[|lines| - 1]) * lines[|lines| - 1].quantity
  }

  function Min(a: int, b: int): int {
    if a < b then a else b
  }

  function RawDiscount(promo: Promo, subtotal: nat): int {
    match promo.kind
    case Percentage => Round(subtotal as real * promo.value / 100.0)
    case Fixed => Cents(promo.value)
  }

  /** `validate`: the discount in cents, or the first condition that fails.  A maximum of zero
      uses counts as no maximum here. */
  function Validate(promo: Promo, subtotal: nat): Result<int, PromoError> {
    if !promo.active then Failure(Inactive)
    else if promo.expired then Failure(PromoExpired)
    else if promo.maxUses.Some? && promo.maxUses.value != 0 && promo.uses >= promo.maxUses.value then
      Failure(UsedUp)
    else if promo.minOrder.Some? && subtotal as real / 100.0 < promo.minOrder.value then
      Failure(BelowMinimum)
    else Success(Min(RawDiscount(promo, subtotal), subtotal))
  }

  lemma MultiplyMono(x: real, a: real, b: real)
    requires x >= 0.0 && a <= b
    ensures x * a <= x * b
  {
    assert x * (b - a) >= 0.0;
  }

  lemma DiscountWithinSubtotal(promo: Promo, subtotal: nat)
    requires promo.value >= 0.0
    ensures Validate(promo, subtotal).Success? ==> 0 <= Validate(promo, subtotal).value <= subtotal
    ensures Validate(promo, subtotal).Success? && promo.kind.Percentage? && promo.value >= 100.0 ==>
      Validate(promo, subtotal).value == subtotal
  {
    if promo.kind.Percentage? {
      var share := subtotal as real * promo.value / 100.0;
      MultiplyMono(subtotal as real, 0.0, promo.value);
      assert share >= 0.0;
      if promo.value >= 100.0 {
        MultiplyMono(subtotal as real, 100.0, promo.value);
        assert share >= subtotal as real;
      }
    }
  }

  /** Points charged and the amount they pay. */
  datatype Points = Points(spent: int, worth: real)

  /** How far a points balance goes towards an amount due: the fewest points that cover it,
      or all of them when they do not. */
  function PointsFor(due: real, balance: nat, ratio: real): Points
    requires ratio > 0.0
  {
    var p := if balance as real / ratio >= due then Points(Ceil(due * ratio), due)
             else Points(balance, balance as real / ratio);
    if p.spent > 0 then p else Points(0, 0.0)
  }

  /** The points charged never exceed the balance, are worth at least the discount they buy,
      by less than one point, and the discount never exceeds the amount due. */
  lemma PointsAreFair(due: real, balance: nat, ratio: real)
    requires ratio > 0.0 && due >= 0.0
    ensures var p := PointsFor(due, balance, ratio);
      && 0 <= p.spent <= balance
      && 0.0 <= p.worth <= due
      && p.worth <= p.spent as real / ratio < p.worth + 1.0 / ratio
      && (balance as real / ratio >= due ==> p.worth == due)
      && (balance as real / ratio < due ==> p.spent == balance)
  {
    var full := balance as real / ratio;
    WorthOfPoints(balance, full, ratio);
    if full >= due {
      MultiplyMono(ratio, due, full);
      WorthOfPoints(Ceil(due * ratio), due, ratio);
    }
  }

  /** Points that cover a worth, by less than one point. */
  lemma WorthOfPoints(points: int, worth: real, ratio: real)
    requires ratio > 0.0 && worth >= 0.0
    ensures points as real / ratio * ratio == points as real
    ensures points == Ceil(worth * ratio) ==>
      points >= 0 && worth <= points as real / ratio < worth + 1.0 / ratio && (points == 0 ==> worth == 0.0)
    ensures worth == points as real / ratio ==> worth * ratio == points as real && worth < worth + 1.0 / ratio
  {
    var need := worth * ratio;
    MultiplyMono(ratio, 0.0, worth);
    DivideMono(0.0, 1.0, ratio);
    if points == Ceil(need) {
      DivideMono(need, points as real, ratio);
      DivideMono(points as real, need + 1.0, ratio);
      DivideSum(need, 1.0, ratio);
      assert need / ratio == worth;
    }
  }

  lemma DivideSum(a: real, b: real, ratio: real)
    requires ratio > 0.0
    ensures (a + b) / ratio == a / ratio + b / ratio
  {
  }

  lemma DivideMono(a: real, b: real, ratio: real)
    requires ratio > 0.0
    ensures a <= b ==> a / ratio <= b / ratio
    ensures a < b ==> a / ratio < b / ratio
  {
    assert a / ratio * ratio == a && b / ratio * ratio == b;
  }

  predicate HalfCent(amount: real) {
    var cents := amount * 100.0;
    cents - cents.Floor as real == 0.5
  }

  /** What a checkout charges, in cents. */
  datatype Quote = Quote(subtotal: int, promo: int, points: Points, discount: int, total: int)

  function Max(a: int, b: int): int {
    if a > b then a else b
  }

  function QuoteFor(subtotal: nat, promo: int, usePoints: bool, balance: nat, ratio: real): Quote
    requires ratio > 0.0
  {
    var due := (subtotal - promo) as real / 100.0;
    var points := if usePoints then PointsFor(due, balance, ratio) else Points(0, 0.0);
    Quote(subtotal, promo, points,
          Cents(promo as real / 100.0 + points.worth), Max(0, Cents(due - points.worth)))
  }

  /** The total is never negative, and total plus discount is the subtotal, except that both
      round up -- one cent too much -- exactly when the points pay for an odd half cent. */
  lemma TotalsAddUp(subtotal: nat, promo: int, usePoints: bool, balance: nat, ratio: real)
    requires ratio > 0.0 && 0 <= promo <= subtotal
    ensures var q := QuoteFor(subtotal, promo, usePoints, balance, ratio);
      && 0 <= q.total && 0 <= q.points.spent <= balance
      && q.points.worth <= q.points.spent as real / ratio
      && (q.total + q.discount == subtotal || q.total + q.discount == subtotal + 1)
      && (q.total + q.discount == subtotal + 1 <==> HalfCent(q.points.worth))
  {
    var q := QuoteFor(subtotal, promo, usePoints, balance, ratio);
    var due := (subtotal - promo) as real / 100.0;
    PointsAreFair(due, balance, ratio);
    var v := q.points.worth * 100.0;
    assert (promo as real / 100.0 + q.points.worth) * 100.0 == promo as real + v;
    assert (due - q.points.worth) * 100.0 == (subtotal - promo) as real - v;
    RoundShift(promo, v);
    RoundShift(subtotal - promo, -v);
    RoundOpposite(v);
  }

  lemma RoundShift(n: int, x: real)
    ensures Round(n as real + x) == n + Round(x)
  {
  }

  lemma RoundOpposite(x: real)
    ensures Round(x) + Round(-x) == if x - x.Floor as real == 0.5 then 1 else 0
  {
    var f := x - x.Floor as real;
    if f < 0.5 {
      assert Round(x) == x.Floor;
      assert Round(-x) == -x.Floor;
    } else {
      assert Round(x) == x.Floor + 1;
    }
  }

  // ---- What the amounts are

  /** Rounding finds the nearest integer, and of two the greater. */
  lemma RoundIsNearest(x: real)
    ensures x - 0.5 < Round(x) as real <= x + 0.5
  {
  }

  lemma UnitPriceIs(line: Line)
    ensures line.variantPrice.Some? ==> UnitPrice(line) == line.variantPrice.value
    ensures line.variantPrice.None? && line.productPrice.Some? ==> UnitPrice(line) == line.productPrice.value
    ensures line.variantPrice.None? && line.productPrice.None? ==> UnitPrice(line) == 0
  {
  }

  /** A line costs its variant's price, or else its product's, times its quantity; and the lines of
      a cart add up, whatever their order. */
  lemma {:induction false} SubtotalIs(a: seq<Line>, line: Line, b: seq<Line>)
    ensures var price := if line.variantPrice.Some? then line.variantPrice.value
                         else if line.productPrice.Some? then line.productPrice.value else 0;
      Subtotal(a + [line] + b) == Subtotal(a + b) + price * line.quantity
    ensures Subtotal([]) == 0
    decreases |b|
  {
    UnitPriceIs(line);
    if b == [] {
      assert a + [line] + [] == a + [line] && a + [] == a && (a + [line])[..|a|] == a;
    } else {
      var n := |b| - 1;
      SubtotalIs(a, line, b[..n]);
      assert (a + [line] + b)[..|a| + 1 + n] == a + [line] + b[..n];
      assert (a + b)[..|a| + n] == a + b[..n];
    }
  }

  /** A promo that passes takes its share of the subtotal, or its fixed amount, to the nearest cent
      and up to the subtotal. */
  lemma DiscountIs(promo: Promo, subtotal: nat)
    requires promo.value >= 0.0 && Validate(promo, subtotal).Success?
    ensures var cut := Validate(promo, subtotal).value;
            var exact := if promo.kind == Percentage then subtotal as real * promo.value / 100.0
                         else promo.value * 100.0;
      && cut <= subtotal && cut as real <= exact + 0.5
      && (cut < subtotal ==> exact - 0.5 < cut as real)
      && (exact + 0.5 < subtotal as real ==> cut < subtotal)
  {
    RoundIsNearest(if promo.kind == Percentage then subtotal as real * promo.value / 100.0 else promo.value * 100.0);
  }

  /** A promo is refused for the first of these reasons that applies, and for no other. */
  lemma ValidationDecides(promo: Promo, subtotal: nat)
    ensures var used := promo.maxUses.Some? && promo.maxUses.value > 0 && promo.uses >= promo.maxUses.value;
            var below := promo.minOrder.Some? && subtotal as real < promo.minOrder.value * 100.0;
            var r := Validate(promo, subtotal);
      && (r.Success? <==> promo.active && !promo.expired && !used && !below)
      && (r == Failure(Inactive) <==> !promo.active)
      && (r == Failure(PromoExpired) <==> promo.active && promo.expired)
      && (r == Failure(UsedUp) <==> promo.active && !promo.expired && used)
      && (r == Failure(BelowMinimum) <==> promo.active && !promo.expired && !used && below)
  {
    if promo.minOrder.Some? {
      assert subtotal as real / 100.0 * 100.0 == subtotal as real;
    }
  }

  /** The total is what is due after promo and points, and the discount what they take off, each to
      the nearest cent; without points the two add up to the subtotal exactly. */
  lemma QuoteIs(subtotal: nat, promo: int, usePoints: bool, balance: nat, ratio: real)
    requires ratio > 0.0 && 0 <= promo <= subtotal
    ensures var q := QuoteFor(subtotal, promo, usePoints, balance, ratio);
            var paid := q.points.worth * 100.0;
      && q.subtotal == subtotal && q.promo == promo
      && (!usePoints ==> q.points == Points(0, 0.0) && q.total == subtotal - promo && q.discount == promo)
      && (usePoints ==> q.points == PointsFor((subtotal - promo) as real / 100.0, balance, ratio))
      && (subtotal - promo) as real - paid - 0.5 < q.total as real <= (subtotal - promo) as real - paid + 0.5
      && promo as real + paid - 0.5 < q.discount as real <= promo as real + paid + 0.5
  {
    var q := QuoteFor(subtotal, promo, usePoints, balance, ratio);
    var due := (subtotal - promo) as real / 100.0;
    PointsAreFair(due, balance, ratio);
    var paid := q.points.worth * 100.0;
    assert (promo as real / 100.0 + q.points.worth) * 100.0 == promo as real + paid;
    assert (due - q.points.worth) * 100.0 == (subtotal - promo) as real - paid;
    RoundIsNearest(promo as real + paid);
    RoundIsNearest((subtotal - promo) as real - paid);
  }

  method SumCart(lines: seq<Line>) returns (sum: nat)
    ensures sum == Subtotal(lines)
  {
    sum := 0;
    for i := 0 to |lines|
      invariant sum == Subtotal(lines[..i])
    {
      assert lines[..i + 1][..i] == lines[..i];
      sum := sum + UnitPrice(lines[i]) * lines[i].quantity;
    }
    assert lines[..|lines|] == lines;
  }

  method UsePoints(totalAmount: real, balance: nat, ratio: real) returns (pointsSpent: int, worth: real)
    requires ratio > 0.0
    ensures Points(pointsSpent, worth) == PointsFor(totalAmount, balance, ratio)
  {
    var maxPointsValue := balance as real / ratio;
    var pointsToUse, pointsValue := 0, 0.0;
    if maxPointsValue >= totalAmount {
      pointsValue := totalAmount;
      pointsToUse := Ceil(totalAmount * ratio);
    } else {
      pointsValue := maxPointsValue;
      pointsToUse := balance;
    }
    if pointsToUse > 0 {
      return pointsToUse, pointsValue;
    }
    return 0, 0.0;
  }

  /** The pricing part of `createOrderFromCart`, with its running totals. */
  method PriceCart(lines: seq<Line>, promo: Option<Promo>, usePoints: bool, balance: nat, ratio: real)
    returns (r: Result<Quote, PromoError>)
    requires ratio > 0.0 && (promo.Some? ==> promo.value.value >= 0.0)
    ensures r.Failure? <==> promo.Some? && Validate(promo.value, Subtotal(lines)).Failure?
    ensures r.Failure? ==> r.error == Validate(promo.value, Subtotal(lines)).error
    ensures r.Success? ==>
      var cut := if promo.Some? then Validate(promo.value, Subtotal(lines)).value else 0;
      && 0 <= cut <= Subtotal(lines)
      && r.value == QuoteFor(Subtotal(lines), cut, usePoints, balance, ratio)
  {
    var sum := SumCart(lines);
    var totalAmount := sum as real / 100.0;
    var discountAmount := 0.0;
    var cut := 0;
    if promo.Some? {
      var checked := Validate(promo.value, sum);
      if checked.Failure? {
        return Failure(checked.error);
      }
      DiscountWithinSubtotal(promo.value, sum);
      cut := checked.value;
      discountAmount := discountAmount + cut as real / 100.0;
      totalAmount := totalAmount - cut as real / 100.0;
    }
    assert totalAmount == (sum - cut) as real / 100.0;
    var pointsSpent, worth := 0, 0.0;
    if usePoints {
      pointsSpent, worth := UsePoints(totalAmount, balance, ratio);
      discountAmount := discountAmount + worth;
      totalAmount := totalAmount - worth;
    }
    r := Success(Quote(sum, cut, Points(pointsSpent, worth), Cents(discountAmount), Max(0, Cents(totalAmount))));
  }
}

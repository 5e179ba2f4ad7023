/** The stock books balance: in every reachable state, for every product, the stock of its
    rows plus what is quarantined equals the opening stock minus the ledger's `out` plus its
    `in`, and no row's stock is negative. */
module StockBooks {
  import opened Basics
  import opened Tables
  import opened Shop

  function StockOf(cells: seq<Cell>, product: nat): int {
    if cells == [] then 0
    else
      var last := cells[|cells| - 1];
      StockOf(cells[..|cells| - 1], product) + if last.product == product then last.stock else 0
  }

  /** Total ledger quantity of a product in one direction. */
  function Total(moves: seq<Move>, product: nat, direction: Direction): nat {
    if moves == [] then 0
    else
      var m := moves[|moves| - 1];
      Total(moves[..|moves| - 1], product, direction)
      + if m.product == product && m.direction == direction then m.quantity else 0
  }

  function Quarantined(moves: seq<Move>, product: nat): nat {
    if moves == [] then 0
    else
      var m := moves[|moves| - 1];
      Quarantined(moves[..|moves| - 1], product)
      + if m.product == product && m.direction == In && m.quarantined then m.quantity else 0
  }

  function Effect(m: Move, product: nat): int {
    if m.product != product then 0
    else if m.direction == Out then -(m.quantity as int)
    else if m.quarantined then 0
    else m.quantity
  }

  /** What the ledger says has happened to saleable stock. */
  function Net(moves: seq<Move>, product: nat): int {
    if moves == [] then 0
    else Net(moves[..|moves| - 1], product) + Effect(moves[|moves| - 1], product)
  }

  lemma {:induction false} NetSplits(moves: seq<Move>, product: nat)
    ensures Net(moves, product) ==
      Total(moves, product, In) - Total(moves, product, Out) - Quarantined(moves, product)
    decreases |moves|
  {
    if moves != [] {
      NetSplits(moves[..|moves| - 1], product);
    }
  }

  lemma {:induction false} NetAppend(a: seq<Move>, b: seq<Move>, product: nat)
    ensures Net(a + b, product) == Net(a, product) + Net(b, product)
    decreases |b|
  {
    if b == [] {
      assert a + b == a;
    } else {
      NetAppend(a, b[..|b| - 1], product);
      assert (a + b)[..|a + b| - 1] == a + b[..|b| - 1];
    }
  }

  function Ordered(items: seq<Item>, product: nat): nat {
    if items == [] then 0
    else
      var last := items[|items| - 1];
      Ordered(items[..|items| - 1], product) + if last.product == product then last.quantity else 0
  }

  predicate SameRows(a: seq<Cell>, b: seq<Cell>) {
    |a| == |b| && forall c :: 0 <= c < |a| ==> a[c].product == b[c].product
  }

  predicate NoneNegative(cells: seq<Cell>) {
    forall c :: 0 <= c < |cells| ==> cells[c].stock >= 0
  }

  predicate Fit(cells: seq<Cell>, items: seq<Item>) {
    forall i :: 0 <= i < |items| ==> ItemFits(cells, items[i])
  }

  lemma {:induction false} StockUpdate(cells: seq<Cell>, c: nat, stock: int, product: nat)
    requires c < |cells|
    ensures StockOf(cells[c := cells[c].(stock := stock)], product)
         == StockOf(cells, product) + if cells[c].product == product then stock - cells[c].stock else 0
    decreases |cells|
  {
    var n := |cells| - 1;
    var updated := cells[c := cells[c].(stock := stock)];
    if c < n {
      StockUpdate(cells[..n], c, stock, product);
      assert updated[..n] == cells[..n][c := cells[c].(stock := stock)];
    } else {
      assert updated[..n] == cells[..n];
    }
  }

  lemma {:induction false} RestoreEffect(cells: seq<Cell>, items: seq<Item>, product: nat)
    requires Fit(cells, items)
    ensures SameRows(RestoreAll(cells, items), cells)
    ensures NoneNegative(cells) ==> NoneNegative(RestoreAll(cells, items))
    ensures StockOf(RestoreAll(cells, items), product) == StockOf(cells, product) + Ordered(items, product)
    decreases |items|
  {
    if items != [] {
      var n := |items| - 1;
      RestoreEffect(cells, items[..n], product);
      var before := RestoreAll(cells, items[..n]);
      assert ItemFits(cells, items[n]);
      StockUpdate(before, items[n].cell, before[items[n].cell].stock + items[n].quantity, product);
    }
  }

  lemma {:induction false} DeductEffect(cells: seq<Cell>, items: seq<Item>, product: nat)
    requires Fit(cells, items) && Deduct(cells, items).Some?
    ensures SameRows(Deduct(cells, items).value, cells)
    ensures NoneNegative(cells) ==> NoneNegative(Deduct(cells, items).value)
    ensures StockOf(Deduct(cells, items).value, product) == StockOf(cells, product) - Ordered(items, product)
    decreases |items|
  {
    if items != [] {
      var n := |items| - 1;
      DeductEffect(cells, items[..n], product);
      var before := Deduct(cells, items[..n]).value;
      assert ItemFits(cells, items[n]);
      StockUpdate(before, items[n].cell, before[items[n].cell].stock - items[n].quantity, product);
    }
  }

  lemma {:induction false} SoldEffect(items: seq<Item>, order: nat, product: nat)
    ensures Net(Sold(items, order), product) == -(Ordered(items, product) as int)
    decreases |items|
  {
    if items != [] {
      SoldEffect(items[..|items| - 1], order, product);
      assert Sold(items, order)[..|items| - 1] == Sold(items[..|items| - 1], order);
    }
  }

  lemma {:induction false} BackEffect(items: seq<Item>, order: nat, product: nat)
    ensures Net(Back(items, order), product) == Ordered(items, product)
    decreases |items|
  {
    if items != [] {
      BackEffect(items[..|items| - 1], order, product);
      assert Back(items, order)[..|items| - 1] == Back(items[..|items| - 1], order);
    }
  }

  lemma {:induction false} ReturnEffect(cells: seq<Cell>, items: seq<Item>, refund: nat, damaged: bool, product: nat)
    requires Fit(cells, items)
    ensures Net(ReturnMoves(cells, items, refund, damaged), product) == if damaged then 0 else Ordered(items, product)
    decreases |items|
  {
    if items != [] {
      var n := |items| - 1;
      ReturnEffect(cells, items[..n], refund, damaged, product);
      assert ReturnMoves(cells, items, refund, damaged)[..n] == ReturnMoves(cells, items[..n], refund, damaged);
      assert ItemFits(cells, items[n]);
    }
  }

  lemma {:induction false} InsertContents(items: seq<Item>, item: Item)
    ensures multiset(InsertItem(items, item)) == multiset(items) + multiset{item}
    decreases |items|
  {
    if items != [] && items[|items| - 1].cell > item.cell {
      InsertContents(items[..|items| - 1], item);
      assert items == items[..|items| - 1] + [items[|items| - 1]];
    }
  }

  /** The lines of an order are exactly the lines of the cart, sorted or not. */
  lemma {:induction false} SortContents(items: seq<Item>)
    ensures multiset(SortItems(items)) == multiset(items)
    decreases |items|
  {
    if items != [] {
      SortContents(items[..|items| - 1]);
      InsertContents(SortItems(items[..|items| - 1]), items[|items| - 1]);
      assert items == items[..|items| - 1] + [items[|items| - 1]];
    }
  }

  // ---- Row by row

  /** What the lines ask of one stock row. */
  function Demand(items: seq<Item>, cell: nat): nat {
    if items == [] then 0
    else (if items[0].cell == cell then items[0].quantity else 0) + Demand(items[1..], cell)
  }

  lemma {:induction false} DemandSnoc(items: seq<Item>, item: Item, cell: nat)
    ensures Demand(items + [item], cell) == Demand(items, cell) + if item.cell == cell then item.quantity else 0
    decreases |items|
  {
    if items == [] {
      assert [] + [item] == [item] && [item][1..] == [];
    } else {
      DemandSnoc(items[1..], item, cell);
      assert (items + [item])[1..] == items[1..] + [item];
    }
  }

  lemma {:induction false} DemandPrefix(items: seq<Item>, cell: nat)
    requires items != []
    ensures var n := |items| - 1;
      Demand(items, cell) == Demand(items[..n], cell) + if items[n].cell == cell then items[n].quantity else 0
  {
    var n := |items| - 1;
    assert items == items[..n] + [items[n]];
    DemandSnoc(items[..n], items[n], cell);
  }

  lemma {:induction false} InsertDemand(items: seq<Item>, item: Item, cell: nat)
    ensures Demand(InsertItem(items, item), cell)
         == Demand(items, cell) + if item.cell == cell then item.quantity else 0
    decreases |items|
  {
    if items == [] || items[|items| - 1].cell <= item.cell {
      DemandSnoc(items, item, cell);
    } else {
      var n := |items| - 1;
      InsertDemand(items[..n], item, cell);
      DemandSnoc(InsertItem(items[..n], item), items[n], cell);
      DemandPrefix(items, cell);
    }
  }

  lemma {:induction false} SortDemand(items: seq<Item>, cell: nat)
    ensures Demand(SortItems(items), cell) == Demand(items, cell)
    decreases |items|
  {
    if items != [] {
      var n := |items| - 1;
      SortDemand(items[..n], cell);
      InsertDemand(SortItems(items[..n]), items[n], cell);
      DemandPrefix(items, cell);
    }
  }

  predicate OnRows(cells: seq<Cell>, items: seq<Item>) {
    forall i :: 0 <= i < |items| ==> items[i].cell < |cells|
  }

  ghost predicate Covered(cells: seq<Cell>, items: seq<Item>) {
    OnRows(cells, items) && forall c: nat :: c < |cells| ==> Demand(items, c) <= cells[c].stock
  }

  /** The deductions succeed if and only if every row has what all lines together ask of it, and
      then take exactly that from each row. */
  lemma {:induction false} DeductIff(cells: seq<Cell>, items: seq<Item>)
    requires NoneNegative(cells)
    ensures Deduct(cells, items).Some? <==> Covered(cells, items)
    ensures Deduct(cells, items).Some? ==>
      var after := Deduct(cells, items).value;
      && |after| == |cells|
      && forall c: nat :: c < |cells| ==> after[c] == cells[c].(stock := cells[c].stock - Demand(items, c))
    decreases |items|
  {
    if items != [] {
      var n := |items| - 1;
      DeductIff(cells, items[..n]);
      forall c: nat
        ensures Demand(items, c) == Demand(items[..n], c) + if items[n].cell == c then items[n].quantity else 0
      {
        DemandPrefix(items, c);
      }
      assert OnRows(cells, items) <==> OnRows(cells, items[..n]) && items[n].cell < |cells|;
    }
  }

  /** Restoring gives each row exactly what the lines took from it. */
  lemma {:induction false} RestoreRows(cells: seq<Cell>, items: seq<Item>)
    ensures var after := RestoreAll(cells, items);
      && |after| == |cells|
      && forall c: nat :: c < |cells| ==> after[c] == cells[c].(stock := cells[c].stock + Demand(items, c))
    decreases |items|
  {
    if items != [] {
      var n := |items| - 1;
      RestoreRows(cells, items[..n]);
      forall c: nat
        ensures Demand(items, c) == Demand(items[..n], c) + if items[n].cell == c then items[n].quantity else 0
      {
        DemandPrefix(items, c);
      }
    }
  }

  lemma {:induction false} SortFits(cells: seq<Cell>, items: seq<Item>)
    requires Fit(cells, items)
    ensures Fit(cells, SortItems(items))
  {
    SortContents(items);
    forall i | 0 <= i < |SortItems(items)| ensures ItemFits(cells, SortItems(items)[i]) {
      assert SortItems(items)[i] in multiset(items);
    }
  }

  // ---- Invariant

  ghost predicate Balanced(opening: seq<Cell>, cells: seq<Cell>, moves: seq<Move>) {
    && SameRows(cells, opening) && NoneNegative(cells)
    && forall p: nat :: StockOf(cells, p) == StockOf(opening, p) + Net(moves, p)
  }

  ghost predicate LinesFit(opening: seq<Cell>, s: State) {
    && (forall o :: 0 <= o < |s.orders| ==> Fit(opening, s.orders[o].items))
    && (forall user :: user in s.carts ==> Fit(opening, s.carts[user]))
  }

  ghost predicate Inv(opening: seq<Cell>, s: State) {
    Balanced(opening, s.cells, s.moves) && LinesFit(opening, s)
  }

  lemma RefitRows(a: seq<Cell>, b: seq<Cell>, items: seq<Item>)
    requires SameRows(a, b)
    ensures Fit(a, items) <==> Fit(b, items)
  {
    assert forall i :: 0 <= i < |items| ==> (ItemFits(a, items[i]) <==> ItemFits(b, items[i]));
  }

  lemma {:induction false} BalancedSale(opening: seq<Cell>, cells: seq<Cell>, moves: seq<Move>,
                                         items: seq<Item>, order: nat)
    requires Balanced(opening, cells, moves) && Fit(opening, items) && Deduct(cells, items).Some?
    ensures Balanced(opening, Deduct(cells, items).value, moves + Sold(items, order))
  {
    RefitRows(cells, opening, items);
    DeductEffect(cells, items, 0);
    forall p: nat
      ensures StockOf(Deduct(cells, items).value, p) == StockOf(opening, p) + Net(moves + Sold(items, order), p)
    {
      DeductEffect(cells, items, p);
      SoldEffect(items, order, p);
      NetAppend(moves, Sold(items, order), p);
    }
  }

  lemma {:induction false} BalancedReturn(opening: seq<Cell>, cells: seq<Cell>, moves: seq<Move>,
                                           items: seq<Item>, block: seq<Move>, restored: bool)
    requires Balanced(opening, cells, moves) && Fit(opening, items)
    requires forall p: nat :: Net(block, p) == if restored then Ordered(items, p) else 0
    ensures Balanced(opening, if restored then RestoreAll(cells, items) else cells, moves + block)
  {
    RefitRows(cells, opening, items);
    var after := if restored then RestoreAll(cells, items) else cells;
    RestoreEffect(cells, items, 0);
    forall p: nat ensures StockOf(after, p) == StockOf(opening, p) + Net(moves + block, p) {
      RestoreEffect(cells, items, p);
      NetAppend(moves, block, p);
    }
  }

  lemma PlaceKeepsInv(opening: seq<Cell>, s: State, c: CheckoutDto)
    requires Inv(opening, s) && MayPlace(s, c)
    ensures Inv(opening, Place(s, c))
  {
    var items := SortItems(CartOf(s, c.user));
    SortFits(opening, CartOf(s, c.user));
    BalancedSale(opening, s.cells, s.moves, items, |s.orders|);
  }

  lemma CancelKeepsInv(opening: seq<Cell>, s: State, order: nat, expiry: bool)
    requires Inv(opening, s)
    ensures Inv(opening, Cancel(s, order, expiry))
  {
    if MayCancel(s, order, expiry) {
      var items := s.orders[order].items;
      forall p: nat ensures Net(Back(items, order), p) == Ordered(items, p) {
        BackEffect(items, order, p);
      }
      BalancedReturn(opening, s.cells, s.moves, items, Back(items, order), true);
    }
  }

  lemma SettleKeepsInv(opening: seq<Cell>, s: State, request: nat)
    requires Inv(opening, s)
    ensures Inv(opening, Settle(s, request))
  {
    if MaySettle(s, request) && MustRestock(s, s.requests[request].refund) {
      var r := s.requests[request].refund;
      var refund := s.refunds[r];
      var items := s.orders[refund.order].items;
      RefitRows(s.cells, opening, items);
      var block := ReturnMoves(s.cells, items, r, refund.damaged);
      forall p: nat ensures Net(block, p) == if !refund.damaged then Ordered(items, p) else 0 {
        ReturnEffect(s.cells, items, r, refund.damaged, p);
      }
      BalancedReturn(opening, s.cells, s.moves, items, block, !refund.damaged);
    }
  }

  lemma InvStep(opening: seq<Cell>, s: State, a: Action)
    requires Inv(opening, s)
    ensures Inv(opening, Apply(s, a))
  {
    match a
    case Buy(dto) =>
      if !IsReplay(s, dto) && MayPlace(s, dto) {
        PlaceKeepsInv(opening, s, dto);
      }
    case CancelOrder(order, expiry) => CancelKeepsInv(opening, s, order, expiry);
    case UpdateStatus(order, to) =>
      if to == Cancelled {
        CancelKeepsInv(opening, s, order, false);
      }
    case Pay(pay) => PayFrame(s, pay);
    case Desk(desk) => DeskFrame(s, desk);
    case SettleRefund(request) => SettleKeepsInv(opening, s, request);
    case Outbox(step) => NoticeFrame(s, step);
    case Reward(_, _, _, _, _) =>
    case FillCart(user, item) =>
      RefitRows(s.cells, opening, [item]);
      assert [item][0] == item;
  }

  lemma {:induction false} InvRun(opening: seq<Cell>, s: State, actions: seq<Action>)
    requires Inv(opening, s)
    ensures Inv(opening, Run(s, actions))
    decreases |actions|
  {
    if actions != [] {
      InvStep(opening, s, actions[0]);
      InvRun(opening, Apply(s, actions[0]), actions[1..]);
    }
  }

  /** The main result, for every run of the shop from its opening and every product. */
  lemma {:induction false} BooksBalance(start: State, actions: seq<Action>, product: nat)
    requires Opening(start)
    ensures var s := Run(start, actions);
      && StockOf(s.cells, product) + Quarantined(s.moves, product)
         == StockOf(start.cells, product) - Total(s.moves, product, Out) + Total(s.moves, product, In)
      && NoneNegative(s.cells)
  {
    InvRun(start.cells, start, actions);
    NetSplits(Run(start, actions).moves, product);
  }
}

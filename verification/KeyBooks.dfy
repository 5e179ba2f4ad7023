/** Exactly-once checkout.  For one user and idempotency key a run leaves at most one order;
    once it exists, every repeat -- after anything else has happened -- answers with that same
    order, or is refused, and changes nothing. */
module KeyBooks {
  import opened Basics
  import opened Tables
  import opened Shop

  /** A committed key row is completed and names an order that carries the key. */
  predicate KeyOk(s: State, user: nat, key: nat) {
    (user, key) in s.keys ==>
      var row := s.keys[(user, key)];
      && row.status == KeyCompleted && row.order.Some? && row.order.value < |s.orders|
      && s.orders[row.order.value].user == user && s.orders[row.order.value].key == Some(key)
  }

  /** An order placed with a key is the one its key row names. */
  predicate OrderOk(s: State, order: nat)
    requires order < |s.orders|
  {
    var o := s.orders[order];
    o.key.Some? ==> (o.user, o.key.value) in s.keys && s.keys[(o.user, o.key.value)].order == Some(order)
  }

  ghost predicate Inv(s: State) {
    && (forall user: nat, key: nat :: KeyOk(s, user, key))
    && (forall o: nat :: o < |s.orders| ==> OrderOk(s, o))
  }

  /** What every step but a checkout does to keys and to the orders' users and keys. */
  ghost predicate LeavesKeys(s: State, t: State) {
    && t.keys == s.keys && |t.orders| == |s.orders|
    && forall o :: 0 <= o < |s.orders| ==> t.orders[o].user == s.orders[o].user && t.orders[o].key == s.orders[o].key
  }

  lemma SettleLeavesKeys(s: State, request: nat)
    ensures LeavesKeys(s, Settle(s, request))
  {
  }

  lemma StepLeavesKeys(s: State, a: Action)
    requires !a.Buy?
    ensures LeavesKeys(s, Apply(s, a))
  {
    match a
    case Pay(pay) => PayFrame(s, pay);
    case Desk(desk) => DeskFrame(s, desk);
    case SettleRefund(request) => SettleLeavesKeys(s, request);
    case Outbox(step) => NoticeFrame(s, step);
    case _ =>
  }

  lemma LeavingKeepsInv(s: State, t: State)
    requires Inv(s) && LeavesKeys(s, t)
    ensures Inv(t)
  {
    forall user: nat, key: nat ensures KeyOk(t, user, key) {
      assert KeyOk(s, user, key);
    }
    forall o: nat | o < |t.orders| ensures OrderOk(t, o) {
      assert OrderOk(s, o);
    }
  }

  /** The unique index over (user, key) only ever refuses what the key row already answers. */
  lemma KeyTakenMeansRecorded(s: State, c: CheckoutDto)
    requires Inv(s)
    ensures KeyTaken(s.orders, c.user, c.key) <==> KeyOf(s, c).Some?
  {
    if KeyTaken(s.orders, c.user, c.key) {
      var o: nat :| o < |s.orders| && s.orders[o].user == c.user && s.orders[o].key == c.key;
      assert OrderOk(s, o);
    }
    if KeyOf(s, c).Some? {
      assert KeyOk(s, c.user, c.key.value);
    }
  }

  lemma PlaceKeepsInv(s: State, c: CheckoutDto)
    requires Inv(s) && MayPlace(s, c)
    ensures Inv(Place(s, c))
  {
    var t := Place(s, c);
    KeyTakenMeansRecorded(s, c);
    forall user: nat, key: nat ensures KeyOk(t, user, key) {
      assert KeyOk(s, user, key);
    }
    forall o: nat | o < |t.orders| ensures OrderOk(t, o) {
      if o < |s.orders| {
        assert OrderOk(s, o);
      }
    }
  }

  lemma InvStep(s: State, a: Action)
    requires Inv(s)
    ensures Inv(Apply(s, a))
  {
    if a.Buy? {
      if !IsReplay(s, a.dto) && MayPlace(s, a.dto) {
        PlaceKeepsInv(s, a.dto);
      }
    } else {
      StepLeavesKeys(s, a);
      LeavingKeepsInv(s, Apply(s, a));
    }
  }

  lemma {:induction false} InvRun(s: State, actions: seq<Action>)
    requires Inv(s)
    ensures Inv(Run(s, actions))
    decreases |actions|
  {
    if actions != [] {
      InvStep(s, actions[0]);
      InvRun(Apply(s, actions[0]), actions[1..]);
    }
  }

  /** The main result: two orders of one user with one key are the same order, in every run. */
  lemma {:induction false} OneOrderPerKey(start: State, actions: seq<Action>, i: nat, j: nat)
    requires Opening(start)
    requires var s := Run(start, actions);
      && i < |s.orders| && j < |s.orders|
      && s.orders[i].user == s.orders[j].user && s.orders[i].key == s.orders[j].key && s.orders[i].key.Some?
    ensures i == j
  {
    InvRun(start, actions);
    var s := Run(start, actions);
    assert OrderOk(s, i) && OrderOk(s, j);
  }

  /** No committed key row is left `started` or `failed`. */
  lemma {:induction false} CommittedKeysAreCompleted(start: State, actions: seq<Action>, user: nat, key: nat)
    requires Opening(start) && (user, key) in Run(start, actions).keys
    ensures Run(start, actions).keys[(user, key)].status == KeyCompleted
  {
    InvRun(start, actions);
    assert KeyOk(Run(start, actions), user, key);
  }

  /** Under the invariant a used key is answered by its row alone, whatever else the request holds. */
  lemma UsedKeyAnswers(s: State, c: CheckoutDto)
    requires Inv(s) && KeyOf(s, c).Some?
    ensures KeyOf(s, c).value.order.Some?
    ensures Checkout(s, c) ==
      (s, if KeyOf(s, c).value.hash == c.hash then Replayed(KeyOf(s, c).value.order.value) else Refused)
  {
    assert KeyOk(s, c.user, c.key.value);
    KeyTakenMeansRecorded(s, c);
  }

  /** A key row never changes again. */
  lemma {:induction false} KeyRowStays(s: State, actions: seq<Action>, user: nat, key: nat)
    requires Inv(s) && (user, key) in s.keys
    ensures (user, key) in Run(s, actions).keys && Run(s, actions).keys[(user, key)] == s.keys[(user, key)]
    decreases |actions|
  {
    if actions != [] {
      var a := actions[0];
      InvStep(s, a);
      if a.Buy? {
        if KeyOf(s, a.dto).Some? {
          UsedKeyAnswers(s, a.dto);
        }
      } else {
        StepLeavesKeys(s, a);
      }
      KeyRowStays(Apply(s, a), actions[1..], user, key);
    }
  }

  /** Every repeat of a successful checkout, however much later and whatever its cart, promo
      and points are by then, answers with the first one's order -- or is refused when its
      request hash differs -- and changes nothing. */
  lemma {:induction false} RepeatAnswersTheSame(start: State, before: seq<Action>, c: CheckoutDto,
                                                 later: seq<Action>, again: CheckoutDto)
    requires Opening(start) && c.key.Some? && again.user == c.user && again.key == c.key
    requires !Checkout(Run(start, before), c).1.Refused?
    ensures var first := Checkout(Run(start, before), c).1;
            var s := Run(Apply(Run(start, before), Buy(c)), later);
      Checkout(s, again) == (s, if again.hash == c.hash then Replayed(first.order) else Refused)
  {
    InvRun(start, before);
    var s0 := Run(start, before);
    var s1 := Apply(s0, Buy(c));
    InvStep(s0, Buy(c));
    InvRun(s1, later);
    KeyRowStays(s1, later, c.user, c.key.value);
    UsedKeyAnswers(Run(s1, later), again);
  }
}

/** Who is paid for a friend's first purchase, how much, and when. */
module RewardFacts {
  import opened Numbers
  import opened Settlement
  import opened SettlementFacts

  /** A paid order of the friend that has a plan_id. */
  predicate IsPaidPlanOrder(orders: map<int, Order>, friend: int, x: int) {
    x in orders && orders[x].user == friend && orders[x].status.Paid? && !orders[x].plan.NoPlan?
  }

  predicate IsOnlyPaidPlanOrder(orders: map<int, Order>, friend: int, o: int) {
    IsPaidPlanOrder(orders, friend, o) && forall x :: x in orders && IsPaidPlanOrder(orders, friend, x) ==> x == o
  }

  /** Someone with a wallet referred the friend, and there is something to pay. */
  predicate HasReferrer(s: State, friend: int) {
    friend in s.referrers && s.referrers[friend] in s.balances && s.reward > 0
  }

  /** The step buys a plan order of the friend's. */
  predicate BuysFor(s: State, step: Step, friend: int) {
    Buys(s, step, step.order) && s.orders[step.order].user == friend
  }

  /** It is the friend's only paid plan order afterwards, and there is a referrer to thank. */
  predicate Earns(s: State, step: Step, friend: int) {
    && BuysFor(s, step, friend) && HasReferrer(s, friend)
    && IsOnlyPaidPlanOrder(Next(s, step).orders, friend, step.order)
  }

  lemma CountsOne(orders: map<int, Order>, friend: int, o: int)
    requires IsPaidPlanOrder(orders, friend, o)
    ensures |PaidPlanOrders(orders, friend)| == 1 <==> IsOnlyPaidPlanOrder(orders, friend, o)
  {
    var all := PaidPlanOrders(orders, friend);
    assert o in all;
    if IsOnlyPaidPlanOrder(orders, friend, o) {
      forall x
        ensures x in all <==> x == o
      {
        assert x in all <==> IsPaidPlanOrder(orders, friend, x) && x in orders;
      }
      assert all == {o};
    } else {
      var x :| x in orders && IsPaidPlanOrder(orders, friend, x) && x != o;
      assert {o, x} <= all && |{o, x}| == 2;
      FewerInside({o, x}, all);
    }
  }

  lemma FewerInside(a: set<int>, b: set<int>)
    requires a <= b
    ensures |a| <= |b|
  {
    assert a + (b - a) == b;
  }

  // ---------------------------------------------------------------- one step

  /** The purchase, and the reward after it, with every balance but the referrer's where it was. */
  ghost predicate PaysReferrer(s: State, t: State, friend: int, amount: int, o: int)
    requires friend in s.referrers
  {
    var q := s.referrers[friend];
    && t.ledger == s.ledger + [Purchased(friend, amount, o), Rewarded(q, s.reward, friend)]
    && Balance(t, q) == Balance(s, q) + s.reward
    && forall u :: u != q ==> Balance(t, u) == Balance(s, u)
  }

  ghost predicate PaysNobody(s: State, t: State, friend: int, amount: int, o: int) {
    t.ledger == s.ledger + [Purchased(friend, amount, o)] && forall u :: Balance(t, u) == Balance(s, u)
  }

  lemma BoughtPays(s: State, o: int, amount: int)
    requires o in s.orders && !s.orders[o].plan.NoPlan?
    ensures var friend := s.orders[o].user;
            var t := Bought(s, o, amount);
            if HasReferrer(s, friend) && IsOnlyPaidPlanOrder(t.orders, friend, o)
            then PaysReferrer(s, t, friend, amount, o)
            else PaysNobody(s, t, friend, amount, o)
  {
    hide PaidPlanOrders, IsOnlyPaidPlanOrder;
    var order := s.orders[o];
    var paid := s.orders[o := order.(status := Paid)];
    CountsOne(paid, order.user, o);
    assert s.ledger + [Purchased(order.user, amount, o)] + [Rewarded(0, 0, 0)]
           == s.ledger + [Purchased(order.user, amount, o), Rewarded(0, 0, 0)];
    if order.user in s.referrers {
      var entry := Rewarded(s.referrers[order.user], s.reward, order.user);
      assert s.ledger + [Purchased(order.user, amount, o)] + [entry]
             == s.ledger + [Purchased(order.user, amount, o), entry];
    }
  }

  /** A purchase pays the friend's referrer the reward, if it leaves exactly one paid plan order of the friend's,
      and nobody else anything; where it leaves more, or there is no referrer, nobody is paid. */
  lemma PurchaseIsRewardedExactlyWhen(s: State, step: Step, friend: int)
    requires BuysFor(s, step, friend)
    ensures if Earns(s, step, friend) then PaysReferrer(s, Next(s, step), friend, PriceOf(s, step), step.order)
            else PaysNobody(s, Next(s, step), friend, PriceOf(s, step), step.order)
  {
    hide Next, Bought, LinkedRows, PaidPlanOrders, Delivered, PriceOf, IsOnlyPaidPlanOrder, PassesGuard, Target;
    HandlersShareAShape(s, step);
    DeliveredFrame(s, step);
    RowsAfterLink(s, step, step.order);
    BoughtPays(Delivered(s, step), step.order, PriceOf(s, step));
  }

  /** The deposit, with every balance but the owner's where it was. */
  ghost predicate PaysOwner(s: State, t: State, o: int)
    requires o in s.orders
  {
    var owner, amount := s.orders[o].user, s.orders[o].amount;
    && t.ledger == s.ledger + [Deposited(owner, amount, o)]
    && Balance(t, owner) == Balance(s, owner) + amount
    && forall u :: u != owner ==> Balance(t, u) == Balance(s, u)
  }

  /** Money moves in two ways only: a top-up pays its amount into the wallet of the order's owner, and a
      purchase pays the referrer or nobody. */
  lemma MoneyMoves(s: State, step: Step)
    ensures var o := step.order;
            if TopsUp(s, step, o) then PaysOwner(s, Next(s, step), o)
            else if !Buys(s, step, o) then Next(s, step).ledger == s.ledger && Next(s, step).balances == s.balances
            else if Earns(s, step, s.orders[o].user)
            then PaysReferrer(s, Next(s, step), s.orders[o].user, PriceOf(s, step), o)
            else PaysNobody(s, Next(s, step), s.orders[o].user, PriceOf(s, step), o)
  {
    hide Next, Bought, LinkedRows, PaidPlanOrders, Delivered, PriceOf, IsOnlyPaidPlanOrder, PassesGuard, Target;
    if IsSettling(step) {
      HandlersShareAShape(s, step);
      if Buys(s, step, step.order) {
        PurchaseIsRewardedExactlyWhen(s, step, s.orders[step.order].user);
      } else if Delivers(s, step) {
        DeliveredFrame(s, step);
      }
    } else {
      StepHasEffect(s, step, 0, 0, 0);
      SettlesNothing(s, step);
    }
  }

  lemma SettlesNothing(s: State, step: Step)
    requires !IsSettling(step)
    ensures Next(s, step).ledger == s.ledger && Next(s, step).balances == s.balances
  {
  }

  lemma EarningIsOne(s: State, step: Step, friend: int)
    requires BuysFor(s, step, friend)
    ensures Rewards(Next(s, step).ledger, friend) == Rewards(s.ledger, friend) + One(Earns(s, step, friend))
  {
    hide Next, IsOnlyPaidPlanOrder, PriceOf;
    PurchaseIsRewardedExactlyWhen(s, step, friend);
    var o, amount := step.order, PriceOf(s, step);
    Appended(s.ledger, Purchased(friend, amount, o));
    if Earns(s, step, friend) {
      var entry := Rewarded(s.referrers[friend], s.reward, friend);
      assert s.ledger + [Purchased(friend, amount, o), entry] == s.ledger + [Purchased(friend, amount, o)] + [entry];
      Appended(s.ledger + [Purchased(friend, amount, o)], entry);
    }
  }

  lemma StepEarns(s: State, step: Step, friend: int)
    ensures Rewards(Next(s, step).ledger, friend) == Rewards(s.ledger, friend) + One(Earns(s, step, friend))
  {
    hide Next, Buys, IsOnlyPaidPlanOrder, PaidPlanOrders, RowEffect, SameGap;
    if BuysFor(s, step, friend) {
      EarningIsOne(s, step, friend);
    } else {
      StepHasEffect(s, step, 0, friend, 0);
    }
  }

  // ---------------------------------------------------------------- every run

  function TimesEarned(s: State, steps: seq<Step>, friend: int): (n: int)
    ensures n >= 0
  {
    if steps == [] then 0
    else TimesEarned(s, FrontOf(steps), friend) + One(Earns(Run(s, FrontOf(steps)), LastOf(steps), friend))
  }

  /** From any state and over every run, a friend's rewards are those earned, no more and no fewer. */
  lemma {:induction false} RewardsAreEarned(s: State, steps: seq<Step>, friend: int)
    ensures Rewards(Run(s, steps).ledger, friend) == Rewards(s.ledger, friend) + TimesEarned(s, steps, friend)
  {
    hide Next, Earns;
    if steps != [] {
      RewardsAreEarned(s, FrontOf(steps), friend);
      StepEarns(Run(s, FrontOf(steps)), LastOf(steps), friend);
    }
  }

  /** Every order is somebody's who has a wallet. */
  predicate HasWallets(s: State) {
    forall o :: o in s.orders ==> s.orders[o].user in s.balances
  }

  /** Referrers, the amount and the wallets there are never change. */
  predicate SamePeople(s: State, t: State) {
    t.referrers == s.referrers && t.reward == s.reward && t.balances.Keys == s.balances.Keys
  }

  lemma BoughtKeepsPeople(s: State, o: int, amount: int)
    requires o in s.orders
    ensures SamePeople(s, Bought(s, o, amount))
  {
    hide PaidPlanOrders;
  }

  lemma StepKeepsPeople(s: State, step: Step)
    requires HasWallets(s)
    ensures SamePeople(s, Next(s, step))
  {
    hide Bought, LinkedRows, Delivered, PriceOf, Linked, PassesGuard, WithDiscount, PaidPlanOrders;
    if IsSettling(step) {
      hide Next;
      HandlersShareAShape(s, step);
      if Delivers(s, step) {
        DeliveredFrame(s, step);
        RowsAfterLink(s, step, step.order);
        BoughtKeepsPeople(Delivered(s, step), step.order, PriceOf(s, step));
      }
    }
  }

  lemma StepKeepsWallets(s: State, step: Step)
    requires HasWallets(s)
    ensures HasWallets(Next(s, step))
  {
    hide Next, Buys, TopsUp, Written, BooksEffect;
    StepKeepsPeople(s, step);
    forall o | o in Next(s, step).orders
      ensures Next(s, step).orders[o].user in Next(s, step).balances
    {
      StepHasEffect(s, step, o, 0, 0);
    }
  }

  lemma {:induction false} PeopleStay(s: State, steps: seq<Step>)
    requires HasWallets(s)
    ensures SamePeople(s, Run(s, steps)) && HasWallets(Run(s, steps))
  {
    hide Next, HasWallets;
    if steps != [] {
      PeopleStay(s, FrontOf(steps));
      StepKeepsPeople(Run(s, FrontOf(steps)), LastOf(steps));
      StepKeepsWallets(Run(s, FrontOf(steps)), LastOf(steps));
    }
  }

  predicate HasPaidPlanOrder(s: State, friend: int) {
    exists x :: x in s.orders && IsPaidPlanOrder(s.orders, friend, x)
  }

  /** The friend's first paid plan order has become so by a purchase, and not by a top-up. */
  predicate FirstIsBought(s: State, steps: seq<Step>, friend: int) {
    steps != []
    && (|| FirstIsBought(s, FrontOf(steps), friend)
        || (!HasPaidPlanOrder(Run(s, FrontOf(steps)), friend)
            && BuysFor(Run(s, FrontOf(steps)), LastOf(steps), friend)))
  }

  lemma FirstPurchaseEarns(s: State, step: Step, friend: int)
    requires BuysFor(s, step, friend) && !HasPaidPlanOrder(s, friend)
    ensures IsOnlyPaidPlanOrder(Next(s, step).orders, friend, step.order)
  {
    hide Next, Buys, TopsUp, Written, BooksEffect;
    var t := Next(s, step);
    OnlyOneBuys(s, step, step.order);
    StepHasEffect(s, step, step.order, 0, 0);
    forall x | x in t.orders && IsPaidPlanOrder(t.orders, friend, x)
      ensures x == step.order
    {
      StepHasEffect(s, step, x, 0, 0);
    }
  }

  lemma PurchaseIsPaid(s: State, step: Step, friend: int)
    requires BuysFor(s, step, friend)
    ensures HasPaidPlanOrder(Next(s, step), friend)
  {
    hide Next, Buys, TopsUp, Written, BooksEffect;
    OnlyOneBuys(s, step, step.order);
    StepHasEffect(s, step, step.order, 0, 0);
    assert IsPaidPlanOrder(Next(s, step).orders, friend, step.order);
  }

  lemma {:induction false} FirstIsBoughtOnce(s: State, steps: seq<Step>, friend: int)
    requires HasReferrer(s, friend) && HasWallets(s)
    ensures FirstIsBought(s, steps, friend) ==> TimesEarned(s, steps, friend) >= 1
    ensures FirstIsBought(s, steps, friend) ==>
              !HasPaidPlanOrder(s, friend) && HasPaidPlanOrder(Run(s, steps), friend)
  {
    hide Next, BuysFor, HasPaidPlanOrder, IsOnlyPaidPlanOrder, HasWallets;
    if steps != [] {
      var before, step := Run(s, FrontOf(steps)), LastOf(steps);
      FirstIsBoughtOnce(s, FrontOf(steps), friend);
      PeopleStay(s, FrontOf(steps));
      PaidStaysThere(s, FrontOf(steps), friend);
      PaidStaysThere(before, [step], friend);
      OneStepRun(before, step);
      if !HasPaidPlanOrder(before, friend) && BuysFor(before, step, friend) {
        FirstPurchaseEarns(before, step, friend);
        PurchaseIsPaid(before, step, friend);
      }
    }
  }

  lemma OneStepRun(s: State, step: Step)
    ensures Run(s, [step]) == Next(s, step)
  {
    hide Next;
    assert [step][..0] == [];
  }

  lemma PaidStaysThere(s: State, steps: seq<Step>, friend: int)
    ensures HasPaidPlanOrder(s, friend) ==> HasPaidPlanOrder(Run(s, steps), friend)
  {
    hide Run;
    if HasPaidPlanOrder(s, friend) {
      var x :| x in s.orders && IsPaidPlanOrder(s.orders, friend, x);
      OrdersStay(s, steps, x);
      assert IsPaidPlanOrder(Run(s, steps).orders, friend, x);
    }
  }

  /** A purchase that earns in a well-made shop is the friend's first. */
  lemma EarningIsFirst(s: State, step: Step, friend: int)
    requires IsWellMade(s, friend) && Earns(s, step, friend)
    ensures !HasPaidPlanOrder(s, friend)
  {
    hide Next, Buys, TopsUp, Written, BooksEffect, IsWellMade;
    if HasPaidPlanOrder(s, friend) {
      var x :| x in s.orders && IsPaidPlanOrder(s.orders, friend, x);
      OneStepRun(s, step);
      OrdersStay(s, [step], x);
      assert IsPaidPlanOrder(Next(s, step).orders, friend, x);
      assert x == step.order;
      forall y
        ensures y in PaidPlanOrders(s.orders, friend) <==> y == x
      {
        if y in PaidPlanOrders(s.orders, friend) {
          OrdersStay(s, [step], y);
          assert IsPaidPlanOrder(Next(s, step).orders, friend, y);
        }
      }
      assert PaidPlanOrders(s.orders, friend) == {x};
      WellMadeNeverAlone(s, step, friend);
      assert false;
    }
  }

  lemma {:induction false} NoneUnlessFirst(s: State, steps: seq<Step>, friend: int)
    requires IsWellMade(s, friend)
    ensures !FirstIsBought(s, steps, friend) ==> TimesEarned(s, steps, friend) == 0
  {
    hide Next, IsWellMade, IsOnlyPaidPlanOrder, HasPaidPlanOrder, BuysFor;
    if steps != [] {
      var before, step := Run(s, FrontOf(steps)), LastOf(steps);
      NoneUnlessFirst(s, FrontOf(steps), friend);
      WellMadeThroughout(s, FrontOf(steps), friend);
      if Earns(before, step, friend) {
        EarningIsFirst(before, step, friend);
      }
    }
  }

  lemma {:induction false} NoneWithoutReferrer(s: State, steps: seq<Step>, friend: int)
    requires !HasReferrer(s, friend) && HasWallets(s)
    ensures TimesEarned(s, steps, friend) == 0
  {
    hide Next, IsOnlyPaidPlanOrder, BuysFor, HasWallets;
    if steps != [] {
      NoneWithoutReferrer(s, FrontOf(steps), friend);
      PeopleStay(s, FrontOf(steps));
    }
  }

  /** In a well-made shop, over every run, a friend with a referrer earns one reward exactly if the first plan
      order to be paid is bought, and none at all otherwise: a first order that has lost its plan and is topped
      up costs the referrer the reward for good. Without a referrer to thank there is none either. */
  lemma OneRewardExactlyWhen(s: State, steps: seq<Step>, friend: int)
    requires IsWellMade(s, friend) && HasWallets(s)
    ensures Rewards(Run(s, steps).ledger, friend) - Rewards(s.ledger, friend)
            == One(HasReferrer(s, friend) && FirstIsBought(s, steps, friend))
  {
    hide Run, IsWellMade, FirstIsBought, TimesEarned, HasReferrer, PaidPlanOrders, HasWallets;
    OneRewardEver(s, steps, friend);
    RewardsAreEarned(s, steps, friend);
    NoneUnlessFirst(s, steps, friend);
    if HasReferrer(s, friend) {
      FirstIsBoughtOnce(s, steps, friend);
    } else {
      NoneWithoutReferrer(s, steps, friend);
    }
  }
}

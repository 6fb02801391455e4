/** What holds of the shop's books after any run of the handlers, in any order. */
module SettlementFacts {
  import opened Numbers
  import opened Panel
  import opened RenewalDates
  import opened Settlement

  function LastOf<T>(xs: seq<T>): T
    requires xs != []
  {
    xs[|xs| - 1]
  }

  function FrontOf<T>(xs: seq<T>): seq<T>
    requires xs != []
  {
    xs[..|xs| - 1]
  }

  // ---------------------------------------------------------------- counting the ledger

  function DepositTo(e: Entry, user: int): int {
    match e
    case Deposited(u, amount, _) => if u == user then amount else 0
    case Rewarded(u, amount, _) => if u == user then amount else 0
    case Purchased(_, _, _) => 0
  }

  function Deposits(ledger: seq<Entry>, user: int): int {
    if ledger == [] then 0 else Deposits(FrontOf(ledger), user) + DepositTo(LastOf(ledger), user)
  }

  function Purchases(ledger: seq<Entry>, o: int): int {
    if ledger == [] then 0
    else Purchases(FrontOf(ledger), o) + One(LastOf(ledger).Purchased? && LastOf(ledger).order == o)
  }

  function Rewards(ledger: seq<Entry>, friend: int): int {
    if ledger == [] then 0
    else Rewards(FrontOf(ledger), friend) + One(LastOf(ledger).Rewarded? && LastOf(ledger).friend == friend)
  }

  function UsagesOf(usages: seq<Usage>, code: int): int {
    if usages == [] then 0 else UsagesOf(FrontOf(usages), code) + One(LastOf(usages).code == code)
  }

  function UsagesFor(usages: seq<Usage>, o: int): (n: int)
    ensures n >= 0
    ensures n == 0 <==> forall k :: 0 <= k < |usages| ==> usages[k].order != o
  {
    if usages == [] then 0
    else
      assert forall k :: 0 <= k < |usages| - 1 ==> usages[k] == FrontOf(usages)[k];
      UsagesFor(FrontOf(usages), o) + One(LastOf(usages).order == o)
  }

  lemma Appended<T>(xs: seq<T>, x: T)
    ensures FrontOf(xs + [x]) == xs && LastOf(xs + [x]) == x
  {
  }

  // ---------------------------------------------------------------- one shape for every handler

  predicate IsSettling(step: Step) {
    step.Fulfil? || step.Approve? || step.Complete?
  }

  /** The three guards. */
  predicate PassesGuard(s: State, step: Step)
    requires IsSettling(step) && step.order in s.orders
  {
    var order := s.orders[step.order];
    match step
    case Fulfil(_, _, _) => !order.status.Paid?
    case Approve(_, _, _) => order.status.Pending?
    case Complete(o, _, _) => CanProceed(order) && o in s.contexts
  }

  /** The order renewed, as the handler sees it. */
  function Target(s: State, step: Step): Option<int>
    requires IsSettling(step) && step.order in s.orders && PassesGuard(s, step)
  {
    if step.Complete? then TargetOf(s.orders, s.contexts[step.order]) else s.orders[step.order].renews
  }

  function LinkedRows(s: State, step: Step): Option<map<int, Order>>
    requires IsSettling(step) && step.order in s.orders && s.orders[step.order].plan.Plan? && PassesGuard(s, step)
  {
    Linked(s.orders, step.order, Target(s, step), step.link, step.now, s.orders[step.order].plan.days)
  }

  /** A plan order gets through its guard and its link is written. */
  predicate Delivers(s: State, step: Step) {
    && IsSettling(step) && step.order in s.orders && s.orders[step.order].plan.Plan?
    && PassesGuard(s, step) && LinkedRows(s, step).Some?
  }

  /** A purchase is written for the order. */
  predicate Buys(s: State, step: Step, o: int) {
    Delivers(s, step) && step.order == o && (step.Complete? ==> !s.contexts[o].charged)
  }

  predicate TopsUp(s: State, step: Step, o: int) {
    && IsSettling(step) && step.order == o && o in s.orders
    && ((step.Fulfil? && s.orders[o].plan.NoPlan? && !s.orders[o].status.Paid?)
        || (step.Approve? && !s.orders[o].plan.Plan?))
  }

  /** The books once the link is written and before anything is bought. */
  function Delivered(s: State, step: Step): State
    requires Delivers(s, step)
  {
    var o := step.order;
    var base := match step
                case Fulfil(_, _, _) => WithDiscount(s, o)
                case Approve(_, _, _) => s
                case Complete(_, _, _) => s.(contexts := s.contexts - {o});
    base.(orders := LinkedRows(s, step).value)
  }

  function PriceOf(s: State, step: Step): int
    requires Delivers(s, step)
  {
    var order := s.orders[step.order];
    match step
    case Fulfil(_, _, _) => order.amount
    case Approve(_, _, _) => order.plan.price
    case Complete(_, _, _) => if order.amount > 0 then order.amount else order.plan.price
  }

  /** Every handler does one of three things: it delivers and perhaps buys, it tops up, or nothing. */
  lemma HandlersShareAShape(s: State, step: Step)
    requires IsSettling(step)
    ensures Next(s, step)
            == if Delivers(s, step) then
                 if Buys(s, step, step.order) then Bought(Delivered(s, step), step.order, PriceOf(s, step))
                 else Delivered(s, step)
               else if TopsUp(s, step, step.order) then ToppedUp(s, step.order)
               else s
  {
    hide Bought, Linked, WithDiscount, ToppedUp, CanProceed, TargetOf;
  }

  lemma DiscountKeepsMoney(s: State, o: int)
    requires o in s.orders
    ensures var t := WithDiscount(s, o);
            t == s.(usages := t.usages, used := t.used)
  {
  }

  /** What delivery changes: the rows, and either discounts or the context of the order. */
  lemma DeliveredFrame(s: State, step: Step)
    requires Delivers(s, step)
    ensures var t := Delivered(s, step);
            && t.orders == LinkedRows(s, step).value && t.orders.Keys == s.orders.Keys
            && t.ledger == s.ledger && t.balances == s.balances
            && t.referrers == s.referrers && t.reward == s.reward
            && t.contexts == (if step.Complete? then s.contexts - {step.order} else s.contexts)
            && (!step.Fulfil? ==> t.usages == s.usages && t.used == s.used)
  {
    hide Linked, WithDiscount, PassesGuard;
    DiscountKeepsMoney(s, step.order);
  }

  lemma RewardIsOneEntry(s: State, user: int)
    ensures var t := WithReward(s, user);
            && t.orders == s.orders && t.usages == s.usages && t.used == s.used && t.contexts == s.contexts
            && t.referrers == s.referrers && t.reward == s.reward
            && (t == s || (|PaidPlanOrders(s.orders, user)| == 1
                           && exists r, n :: t == Credit(s, r, n, Rewarded(r, n, user))))
  {
    hide PaidPlanOrders, Credit;
    if WithReward(s, user) != s {
      var r := s.referrers[user];
      assert WithReward(s, user) == Credit(s, r, s.reward, Rewarded(r, s.reward, user));
      CreditFrame(s, r, s.reward, Rewarded(r, s.reward, user));
    }
  }

  lemma CreditFrame(s: State, user: int, amount: int, entry: Entry)
    ensures var t := Credit(s, user, amount, entry);
            && t.orders == s.orders && t.usages == s.usages && t.used == s.used && t.contexts == s.contexts
            && t.referrers == s.referrers && t.reward == s.reward && t.ledger == s.ledger + [entry]
  {
  }

  /** The two ways money moves, seen from one order, one friend and one user. */
  lemma BoughtEffect(s: State, o: int, amount: int, x: int, friend: int, user: int)
    requires o in s.orders
    ensures var t := Bought(s, o, amount);
            && t.orders == s.orders[o := s.orders[o].(status := Paid)]
            && t.usages == s.usages && t.used == s.used && t.contexts == s.contexts
            && Purchases(t.ledger, x) == Purchases(s.ledger, x) + One(x == o)
            && SameGap(s, t, user)
            && 0 <= Rewards(t.ledger, friend) - Rewards(s.ledger, friend) <= 1
            && (Rewards(t.ledger, friend) > Rewards(s.ledger, friend) ==>
                  friend == s.orders[o].user && |PaidPlanOrders(t.orders, friend)| == 1)
  {
    hide Credit, PaidPlanOrders;
    var order := s.orders[o];
    var paid := s.(orders := s.orders[o := order.(status := Paid)],
                   ledger := s.ledger + [Purchased(order.user, amount, o)]);
    Appended(s.ledger, Purchased(order.user, amount, o));
    RewardIsOneEntry(paid, order.user);
    if WithReward(paid, order.user) != paid {
      var r, n :| WithReward(paid, order.user) == Credit(paid, r, n, Rewarded(r, n, order.user));
      CreditFrame(paid, r, n, Rewarded(r, n, order.user));
      Appended(paid.ledger, Rewarded(r, n, order.user));
      CreditKeepsGap(paid, r, n, Rewarded(r, n, order.user), user);
    }
  }

  lemma TopUpEffect(s: State, o: int, x: int, friend: int, user: int)
    requires o in s.orders
    ensures var t := ToppedUp(s, o);
            && t.orders == s.orders[o := s.orders[o].(status := Paid)]
            && t.usages == s.usages && t.used == s.used && t.contexts == s.contexts
            && Purchases(t.ledger, x) == Purchases(s.ledger, x)
            && SameGap(s, t, user)
            && Rewards(t.ledger, friend) == Rewards(s.ledger, friend)
  {
    hide Credit;
    var order := s.orders[o];
    var paid := s.(orders := s.orders[o := order.(status := Paid)]);
    CreditFrame(paid, order.user, order.amount, Deposited(order.user, order.amount, o));
    Appended(s.ledger, Deposited(order.user, order.amount, o));
    CreditKeepsGap(paid, order.user, order.amount, Deposited(order.user, order.amount, o), user);
  }

  // ---------------------------------------------------------------- what one step does

  predicate IsPaid(s: State, o: int) {
    o in s.orders && s.orders[o].status.Paid?
  }

  /** The row whose link and date the step writes. */
  function Written(s: State, step: Step): Option<int> {
    if !Delivers(s, step) then None
    else if Target(s, step).Some? then Target(s, step)
    else Some(step.order)
  }

  function NewExpiry(s: State, step: Step): int
    requires Delivers(s, step)
  {
    var days := s.orders[step.order].plan.days;
    if Target(s, step).Some? then ShopExpiry(s.orders[Target(s, step).value].expires, step.now, days).value
    else step.now + days * DAY
  }

  /** One order before and after a step. */
  ghost predicate RowEffect(s: State, step: Step, t: State, x: int) {
    && (x in t.orders <==> x in s.orders)
    && (x in s.orders ==>
          var before, after := s.orders[x], t.orders[x];
          && after == before.(status := after.status, config := after.config, expires := after.expires)
          && (if Written(s, step) == Some(x)
              then step.link.Some? && after.config == step.link.value && after.expires == Known(NewExpiry(s, step))
              else after.config == before.config && after.expires == before.expires)
          && after.status == (if Buys(s, step, x) || TopsUp(s, step, x) then Paid else before.status))
  }

  /** The money and the contexts. */
  ghost predicate BooksEffect(s: State, step: Step, t: State, x: int, friend: int, user: int) {
    && SameGap(s, t, user)
    && Purchases(t.ledger, x) == Purchases(s.ledger, x) + One(Buys(s, step, x))
    && 0 <= Rewards(t.ledger, friend) - Rewards(s.ledger, friend) <= 1
    && (Rewards(t.ledger, friend) > Rewards(s.ledger, friend) ==>
          && Buys(s, step, step.order) && s.orders[step.order].user == friend
          && |PaidPlanOrders(t.orders, friend)| == 1)
    && (x in t.contexts ==>
          || (x in s.contexts && t.contexts[x].isRenewal == s.contexts[x].isRenewal)
          || (x in s.orders && t.contexts[x].isRenewal == s.orders[x].renews.Some?))
  }

  lemma RowsAfterLink(s: State, step: Step, x: int)
    requires Delivers(s, step) && x in s.orders
    ensures x in LinkedRows(s, step).value
    ensures var after := LinkedRows(s, step).value[x];
            && after == s.orders[x].(config := after.config, expires := after.expires)
            && (if Written(s, step) == Some(x)
                then step.link.Some? && after.config == step.link.value && after.expires == Known(NewExpiry(s, step))
                else after == s.orders[x])
  {
    hide ShopExpiry, PassesGuard, TargetOf;
  }

  lemma SettlingRows(s: State, step: Step, x: int)
    requires IsSettling(step)
    ensures RowEffect(s, step, Next(s, step), x)
  {
    hide Next, Bought, LinkedRows, ToppedUp, PaidPlanOrders, Delivered, PriceOf, NewExpiry, PassesGuard, Target;
    hide SameGap;
    HandlersShareAShape(s, step);
    if Delivers(s, step) {
      DeliveredFrame(s, step);
      if x in s.orders {
        RowsAfterLink(s, step, x);
      }
      BoughtEffect(Delivered(s, step), step.order, PriceOf(s, step), x, 0, 0);
    } else if TopsUp(s, step, step.order) {
      TopUpEffect(s, step.order, x, 0, 0);
    }
  }

  lemma SettlingBooks(s: State, step: Step, x: int, friend: int, user: int)
    requires IsSettling(step)
    ensures BooksEffect(s, step, Next(s, step), x, friend, user)
  {
    hide Next, Bought, LinkedRows, ToppedUp, PaidPlanOrders, Delivered, PriceOf, PassesGuard, Target;
    HandlersShareAShape(s, step);
    if Delivers(s, step) {
      DeliveredFrame(s, step);
      RowsAfterLink(s, step, step.order);
      BoughtEffect(Delivered(s, step), step.order, PriceOf(s, step), x, friend, user);
    } else if TopsUp(s, step, step.order) {
      TopUpEffect(s, step.order, x, friend, user);
    }
  }

  lemma OtherStep(s: State, step: Step, x: int, friend: int, user: int)
    requires !IsSettling(step)
    ensures RowEffect(s, step, Next(s, step), x) && BooksEffect(s, step, Next(s, step), x, friend, user)
  {
    hide PaidPlanOrders;
  }

  lemma StepHasEffect(s: State, step: Step, x: int, friend: int, user: int)
    ensures RowEffect(s, step, Next(s, step), x) && BooksEffect(s, step, Next(s, step), x, friend, user)
  {
    hide RowEffect, BooksEffect, Next;
    if IsSettling(step) {
      SettlingRows(s, step, x);
      SettlingBooks(s, step, x, friend, user);
    } else {
      OtherStep(s, step, x, friend, user);
    }
  }

  // ---------------------------------------------------------------- balances are deposits

  ghost predicate SameGap(s: State, t: State, user: int) {
    Balance(t, user) - Deposits(t.ledger, user) == Balance(s, user) - Deposits(s.ledger, user)
  }

  lemma CreditKeepsGap(s: State, payee: int, amount: int, entry: Entry, user: int)
    requires entry.Deposited? || entry.Rewarded?
    requires entry.user == payee && entry.amount == amount
    ensures SameGap(s, Credit(s, payee, amount, entry), user)
  {
    Appended(s.ledger, entry);
  }

  /** Whatever the handlers do and in whatever order, a balance moves by the deposits on record and by
      nothing else. */
  lemma {:induction false} BalanceIsDeposits(s: State, steps: seq<Step>, user: int)
    ensures Balance(Run(s, steps), user) - Deposits(Run(s, steps).ledger, user)
            == Balance(s, user) - Deposits(s.ledger, user)
  {
    hide Next, RowEffect;
    if steps != [] {
      BalanceIsDeposits(s, FrontOf(steps), user);
      StepHasEffect(Run(s, FrontOf(steps)), LastOf(steps), 0, 0, user);
    }
  }

  // ---------------------------------------------------------------- purchases

  /** A purchase for an order that is paid already. */
  predicate SettlesAgain(s: State, step: Step, o: int) {
    IsPaid(s, o) && Buys(s, step, o)
  }

  /** Only a gateway completion does that: of an order without a link of its own, with a context that
      does not know of the payment. */
  lemma OnlyCompletionSettlesAgain(s: State, step: Step, o: int)
    ensures SettlesAgain(s, step, o) <==>
              && step.Complete? && step.order == o && IsPaid(s, o) && s.orders[o].config == ""
              && Delivers(s, step) && !s.contexts[o].charged
  {
    hide LinkedRows;
  }

  /** How often in a run the gateway settles an order that is paid already. */
  function SettledAgain(s: State, steps: seq<Step>, o: int): (n: int)
    ensures n >= 0
  {
    if steps == [] then 0
    else SettledAgain(s, FrontOf(steps), o) + One(SettlesAgain(Run(s, FrontOf(steps)), LastOf(steps), o))
  }

  /** An order before and after a run: only status, link and date may differ, and paid stays paid. */
  predicate Evolves(before: Order, after: Order) {
    && after == before.(status := after.status, config := after.config, expires := after.expires)
    && (after.status == before.status || after.status.Paid?)
  }

  lemma {:induction false} OrdersStay(s: State, steps: seq<Step>, o: int)
    requires o in s.orders
    ensures o in Run(s, steps).orders && Evolves(s.orders[o], Run(s, steps).orders[o])
  {
    hide Next, Buys, TopsUp, Written, BooksEffect;
    if steps != [] {
      OrdersStay(s, FrontOf(steps), o);
      StepHasEffect(Run(s, FrontOf(steps)), LastOf(steps), o, 0, 0);
    }
  }

  /** A paid order stays paid, in every run. */
  lemma PaidStaysPaid(s: State, steps: seq<Step>, o: int)
    ensures IsPaid(s, o) ==> IsPaid(Run(s, steps), o)
  {
    if o in s.orders {
      OrdersStay(s, steps, o);
    }
  }

  /** Purchases of a plan order, exactly: one for having become paid, and one for every completion
      that found it paid. */
  lemma {:induction false} PurchasesAreCounted(s: State, steps: seq<Step>, o: int)
    requires o in s.orders && s.orders[o].plan.Plan?
    ensures var t := Run(s, steps);
            Purchases(t.ledger, o) - One(IsPaid(t, o))
            == Purchases(s.ledger, o) - One(IsPaid(s, o)) + SettledAgain(s, steps, o)
  {
    hide Next, Buys, Written, PaidPlanOrders;
    if steps != [] {
      var before, step := Run(s, FrontOf(steps)), LastOf(steps);
      PurchasesAreCounted(s, FrontOf(steps), o);
      OrdersStay(s, FrontOf(steps), o);
      StepHasEffect(before, step, o, 0, 0);
    }
  }

  // ---------------------------------------------------------------- new purchases

  /** A new-purchase order as the shop makes and keeps it: linked when paid, its context not a renewal's. */
  predicate IsNewPurchase(s: State, o: int) {
    && o in s.orders && s.orders[o].plan.Plan? && s.orders[o].renews.None?
    && (o in s.contexts ==> !s.contexts[o].isRenewal)
    && (s.orders[o].status.Paid? ==> s.orders[o].config != "")
  }

  /** The same, bought exactly when it is paid. */
  predicate IsSound(s: State, o: int) {
    IsNewPurchase(s, o) && Purchases(s.ledger, o) == One(s.orders[o].status.Paid?)
  }

  lemma WrittenLinkIsThere(s: State, step: Step)
    ensures Written(s, step).Some? ==> IsSettling(step) && (step.link.Some? ==> step.link.value != "")
  {
    hide LinkedRows, PassesGuard;
    if IsSettling(step) && step.link.Some? {
      var link: Link := step.link.value;
    }
  }

  lemma NewPurchaseIsItsOwnTarget(s: State, step: Step, o: int)
    requires IsNewPurchase(s, o) && Buys(s, step, o)
    ensures Written(s, step) == Some(o) && !IsPaid(s, o)
  {
    hide LinkedRows;
  }

  lemma StepKeepsNewPurchase(s: State, step: Step, o: int)
    requires IsNewPurchase(s, o)
    ensures IsNewPurchase(Next(s, step), o) && !SettlesAgain(s, step, o)
  {
    hide Next, PaidPlanOrders, Buys, Written;
    StepHasEffect(s, step, o, 0, 0);
    WrittenLinkIsThere(s, step);
    if Buys(s, step, o) {
      NewPurchaseIsItsOwnTarget(s, step, o);
    }
  }

  lemma StepKeepsSound(s: State, step: Step, o: int)
    requires IsSound(s, o)
    ensures IsSound(Next(s, step), o) && !SettlesAgain(s, step, o)
  {
    hide Next, PaidPlanOrders, Buys, Written;
    StepHasEffect(s, step, o, 0, 0);
    StepKeepsNewPurchase(s, step, o);
  }

  /** A new purchase is charged at most once, whatever the handlers do: it has a purchase exactly when
      it is paid, and when it is paid it has its link. */
  lemma {:induction false} NewPurchaseIsSettledOnce(s: State, steps: seq<Step>, o: int)
    requires IsSound(s, o)
    ensures IsSound(Run(s, steps), o)
    ensures SettledAgain(s, steps, o) == 0
  {
    hide Next, IsSound, SettlesAgain;
    if steps != [] {
      NewPurchaseIsSettledOnce(s, FrontOf(steps), o);
      StepKeepsSound(Run(s, FrontOf(steps)), LastOf(steps), o);
    }
  }

  // ---------------------------------------------------------------- what a purchase is worth

  function PurchaseOf(e: Entry, o: int): int {
    if e.Purchased? && e.order == o then e.amount else 0
  }

  /** The money on record as spent on an order. */
  function SpentOn(ledger: seq<Entry>, o: int): int {
    if ledger == [] then 0 else SpentOn(FrontOf(ledger), o) + PurchaseOf(LastOf(ledger), o)
  }

  lemma BoughtIsSpent(s: State, o: int, amount: int)
    requires o in s.orders
    ensures SpentOn(Bought(s, o, amount).ledger, o) == SpentOn(s.ledger, o) + amount
  {
    hide Credit, PaidPlanOrders;
    var order := s.orders[o];
    var paid := s.(orders := s.orders[o := order.(status := Paid)],
                   ledger := s.ledger + [Purchased(order.user, amount, o)]);
    Appended(s.ledger, Purchased(order.user, amount, o));
    RewardIsOneEntry(paid, order.user);
    if WithReward(paid, order.user) != paid {
      var r, n :| WithReward(paid, order.user) == Credit(paid, r, n, Rewarded(r, n, order.user));
      CreditFrame(paid, r, n, Rewarded(r, n, order.user));
      Appended(paid.ledger, Rewarded(r, n, order.user));
    }
  }

  lemma StepIsSpent(s: State, step: Step)
    requires IsSettling(step) && Buys(s, step, step.order)
    ensures SpentOn(Next(s, step).ledger, step.order) == SpentOn(s.ledger, step.order) + PriceOf(s, step)
  {
    hide Next, Bought, LinkedRows, PaidPlanOrders, Delivered, PriceOf;
    HandlersShareAShape(s, step);
    DeliveredFrame(s, step);
    RowsAfterLink(s, step, step.order);
    BoughtIsSpent(Delivered(s, step), step.order, PriceOf(s, step));
  }

  /** The same pending order, settled through fulfilment or through approval, is on record with the
      same price exactly when it was not discounted: approval writes the list price. The gateway
      agrees with fulfilment on every order that is not free. */
  lemma HandlersAgreeOnPriceExactlyWhen(s: State, o: int, link: Option<Link>, now: int)
    requires Buys(s, Fulfil(o, link, now), o) && Buys(s, Approve(o, link, now), o) && Buys(s, Complete(o, link, now), o)
    ensures var order := s.orders[o];
            var byFulfilment := SpentOn(Next(s, Fulfil(o, link, now)).ledger, o);
            && (SpentOn(Next(s, Approve(o, link, now)).ledger, o) == byFulfilment <==> order.amount == order.plan.price)
            && (SpentOn(Next(s, Complete(o, link, now)).ledger, o) == byFulfilment
                <==> order.amount > 0 || order.amount == order.plan.price)
  {
    hide Next, LinkedRows;
    StepIsSpent(s, Fulfil(o, link, now));
    StepIsSpent(s, Approve(o, link, now));
    StepIsSpent(s, Complete(o, link, now));
  }

  // ---------------------------------------------------------------- where the handlers differ

  /** The step credits the wallet with the order's amount, and does nothing else to the ledger. */
  ghost predicate CreditsWallet(s: State, t: State, o: int)
    requires o in s.orders
  {
    var order := s.orders[o];
    && t.ledger == s.ledger + [Deposited(order.user, order.amount, o)]
    && Balance(t, order.user) == Balance(s, order.user) + order.amount && IsPaid(t, o)
  }

  lemma BoughtLedgerGrows(s: State, o: int, amount: int)
    requires o in s.orders
    ensures var t := Bought(s, o, amount);
            |t.ledger| > |s.ledger| && t.ledger[|s.ledger|] == Purchased(s.orders[o].user, amount, o)
  {
    hide PaidPlanOrders, Credit;
    var order := s.orders[o];
    var paid := s.(orders := s.orders[o := order.(status := Paid)],
                   ledger := s.ledger + [Purchased(order.user, amount, o)]);
    RewardIsOneEntry(paid, order.user);
    if WithReward(paid, order.user) != paid {
      var r, n :| WithReward(paid, order.user) == Credit(paid, r, n, Rewarded(r, n, order.user));
      CreditFrame(paid, r, n, Rewarded(r, n, order.user));
    }
  }

  lemma CreditsExactlyWhen(s: State, step: Step)
    requires IsSettling(step) && step.order in s.orders
    ensures CreditsWallet(s, Next(s, step), step.order) <==> TopsUp(s, step, step.order)
  {
    hide Next, Bought, LinkedRows, PaidPlanOrders, Delivered, PriceOf, PassesGuard;
    var o := step.order;
    HandlersShareAShape(s, step);
    if Delivers(s, step) {
      DeliveredFrame(s, step);
      if Buys(s, step, o) {
        BoughtLedgerGrows(Delivered(s, step), o, PriceOf(s, step));
      }
    }
  }

  /** Approval tops up the wallet for every order without a plan, paid or not and whether its plan was
      never named or is gone; fulfilment only for an unpaid order that names none, and it leaves an order
      whose plan is gone alone. */
  lemma TopsUpExactlyWhen(s: State, o: int, link: Option<Link>, now: int)
    requires o in s.orders
    ensures CreditsWallet(s, Next(s, Approve(o, link, now)), o) <==> !s.orders[o].plan.Plan?
    ensures CreditsWallet(s, Next(s, Fulfil(o, link, now)), o) <==> s.orders[o].plan.NoPlan? && !IsPaid(s, o)
    ensures s.orders[o].plan.PlanGone? ==> Next(s, Fulfil(o, link, now)) == s
  {
    hide CreditsWallet, ToppedUp, Bought, Linked;
    CreditsExactlyWhen(s, Approve(o, link, now));
    CreditsExactlyWhen(s, Fulfil(o, link, now));
  }

  /** Approval never records a discount's usage; fulfilment does exactly when it delivers an order whose
      code exists and of which no usage is on record. */
  lemma UsageRecordedExactlyWhen(s: State, o: int, link: Option<Link>, now: int)
    requires o in s.orders
    ensures var t := Next(s, Approve(o, link, now)); t.usages == s.usages && t.used == s.used
    ensures var step, code := Fulfil(o, link, now), s.orders[o].code;
            var t := Next(s, step);
            if Delivers(s, step) && code.Some? && code.value in s.used && !HasUsage(s, o)
            then t.usages == s.usages + [Usage(code.value, o)] && t.used == s.used[code.value := s.used[code.value] + 1]
            else t.usages == s.usages && t.used == s.used
  {
    hide Next, Bought, LinkedRows, PaidPlanOrders, PriceOf, PassesGuard, HasUsage, ToppedUp;
    forall step | step in {Approve(o, link, now), Fulfil(o, link, now)}
      ensures var t := Next(s, step);
              if Delivers(s, step) then t.usages == Delivered(s, step).usages && t.used == Delivered(s, step).used
              else t.usages == s.usages && t.used == s.used
    {
      HandlersShareAShape(s, step);
      if Delivers(s, step) {
        DeliveredFrame(s, step);
        BoughtEffect(Delivered(s, step), o, PriceOf(s, step), 0, 0, 0);
      } else if TopsUp(s, step, o) {
        TopUpEffect(s, o, 0, 0, 0);
      }
    }
    if Delivers(s, Approve(o, link, now)) {
      DeliveredFrame(s, Approve(o, link, now));
    }
  }

  // ---------------------------------------------------------------- renewals

  /** A running service and a pending renewal of it. The renewal's own link stays empty, so its gateway
      context, opened while it was pending, settles it a second time after the shop has fulfilled it. */
  function RenewalShop(): State {
    State(map[1 := Order(10, Plan(500, 30), 500, Paid, "old link", None, None, Known(0)),
              2 := Order(10, Plan(500, 30), 500, Pending, "", Some(1), None, Blank)],
          map[10 := 0, 20 := 0], map[10 := 20], 50, [], [], map[], map[])
  }

  const SETTLED_TWICE: seq<Step> := [Open(2, false), Fulfil(2, Some("link"), 0), Complete(2, Some("link"), 0)]

  lemma OpenedFirst(s: State)
    requires s == RenewalShop()
    ensures Next(s, Open(2, false)) == s.(contexts := map[2 := Context(true, Some(1), false)])
  {
  }

  lemma {:induction false} RunOfThree(s: State, a: Step, b: Step, c: Step)
    ensures Run(s, [a, b, c]) == Next(Next(Next(s, a), b), c)
  {
    hide Next;
    assert FrontOf([a, b, c]) == [a, b] && FrontOf([a, b]) == [a] && FrontOf([a]) == [];
    assert Run(s, [a]) == Next(s, a);
    assert Run(s, [a, b]) == Next(Run(s, [a]), b);
    assert LastOf([a, b, c]) == c && Run(s, [a, b, c]) == Next(Run(s, FrontOf([a, b, c])), c);
  }

  /** Two purchases and twice the days for one renewal, from a state the shop makes; the friend's reward
      is not paid again. */
  lemma RenewalSettledTwice()
    ensures IsWellMade(RenewalShop(), 10)
    ensures var t := Run(RenewalShop(), SETTLED_TWICE);
            && Purchases(t.ledger, 2) == 2 && Rewards(t.ledger, 10) == 0
            && 1 in t.orders && t.orders[1].expires == Known(60 * DAY)
  {
    hide Next, Bought, PaidPlanOrders, Linked, BooksEffect, RowEffect;
    var s0 := RenewalShop();
    RunOfThree(s0, Open(2, false), Fulfil(2, Some("link"), 0), Complete(2, Some("link"), 0));
    OpenedFirst(s0);
    var s1 := Next(s0, Open(2, false));
    var s2 := Next(s1, Fulfil(2, Some("link"), 0));
    FulfilRenewal(s1);
    CompleteRenewal(s2);
    FirstIsPaid();
    OneRewardEver(s0, SETTLED_TWICE, 10);
  }

  lemma FirstIsPaid()
    ensures PaidPlanOrders(RenewalShop().orders, 10) != {}
  {
    assert 1 in PaidPlanOrders(RenewalShop().orders, 10);
  }

  lemma FulfilRenewal(s: State)
    requires s == RenewalShop().(contexts := map[2 := Context(true, Some(1), false)])
    ensures var t := Next(s, Fulfil(2, Some("link"), 0));
            && t.orders.Keys == s.orders.Keys && t.orders[1].expires == Known(30 * DAY)
            && t.orders[2] == s.orders[2].(status := Paid)
            && t.contexts == s.contexts && Purchases(t.ledger, 2) == 1
  {
    hide Bought, PaidPlanOrders;
    var linked := s.orders[1 := s.orders[1].(config := "link", expires := Known(30 * DAY))];
    assert Linked(s.orders, 2, Some(1), Some("link"), 0, 30) == Some(linked);
    assert WithDiscount(s, 2) == s;
    BoughtEffect(s.(orders := linked), 2, 500, 2, 10, 10);
  }

  lemma CompleteRenewal(s: State)
    requires s.orders.Keys == {1, 2} && s.contexts == map[2 := Context(true, Some(1), false)]
    requires s.orders[1].expires == Known(30 * DAY) && Purchases(s.ledger, 2) == 1
    requires s.orders[2] == RenewalShop().orders[2].(status := Paid)
    ensures var t := Next(s, Complete(2, Some("link"), 0));
            Purchases(t.ledger, 2) == 2 && 1 in t.orders && t.orders[1].expires == Known(60 * DAY)
  {
    hide Bought, PaidPlanOrders;
    var linked := s.orders[1 := s.orders[1].(config := "link", expires := Known(60 * DAY))];
    assert Linked(s.orders, 2, Some(1), Some("link"), 0, 30) == Some(linked);
    BoughtEffect(s.(orders := linked, contexts := s.contexts - {2}), 2, 500, 2, 10, 10);
  }

  // ---------------------------------------------------------------- referral rewards

  lemma PaidPlanStep(s: State, step: Step, user: int, x: int)
    ensures x in PaidPlanOrders(Next(s, step).orders, user) <==>
              || x in PaidPlanOrders(s.orders, user)
              || (x in s.orders && s.orders[x].user == user && !s.orders[x].plan.NoPlan?
                  && (Buys(s, step, x) || TopsUp(s, step, x)))
  {
    hide Next, Buys, Written, TopsUp, BooksEffect;
    StepHasEffect(s, step, x, 0, 0);
  }

  lemma PaidPlanOrdersGrow(s: State, step: Step, user: int)
    ensures |PaidPlanOrders(Next(s, step).orders, user)| >= |PaidPlanOrders(s.orders, user)|
    ensures Buys(s, step, step.order) && !IsPaid(s, step.order) && s.orders[step.order].user == user ==>
              |PaidPlanOrders(Next(s, step).orders, user)| == |PaidPlanOrders(s.orders, user)| + 1
  {
    hide Next, Buys, TopsUp, PaidPlanOrders;
    var before, after := PaidPlanOrders(s.orders, user), PaidPlanOrders(Next(s, step).orders, user);
    forall x
      ensures x in before ==> x in after
    {
      PaidPlanStep(s, step, user, x);
    }
    assert before + (after - before) == after;
    var o := step.order;
    if Buys(s, step, o) {
      OnlyOneBuys(s, step, o);
    }
    if Buys(s, step, o) && !IsPaid(s, o) && s.orders[o].user == user {
      NotCountedYet(s, o, user);
      forall x
        ensures x in after <==> x in before || x == o
      {
        PaidPlanStep(s, step, user, x);
      }
      assert after == before + {o};
    }
  }

  lemma NotCountedYet(s: State, o: int, user: int)
    requires !IsPaid(s, o)
    ensures o !in PaidPlanOrders(s.orders, user)
  {
  }

  lemma OnlyOneBuys(s: State, step: Step, o: int)
    requires Buys(s, step, o)
    ensures o in s.orders && s.orders[o].plan.Plan?
    ensures forall x :: x != o ==> !Buys(s, step, x) && !TopsUp(s, step, x)
  {
    hide LinkedRows, PassesGuard;
  }

  /** The order is the friend's only paid plan order, and it is settled once more. */
  predicate SettlesOnlyOrderAgain(s: State, step: Step, friend: int) {
    SettlesAgain(s, step, step.order) && PaidPlanOrders(s.orders, friend) == {step.order}
  }

  function OnlyOrderSettledAgain(s: State, steps: seq<Step>, friend: int): (n: int)
    ensures n >= 0
  {
    if steps == [] then 0
    else
      OnlyOrderSettledAgain(s, FrontOf(steps), friend)
      + One(SettlesOnlyOrderAgain(Run(s, FrontOf(steps)), LastOf(steps), friend))
  }

  /** A reward needs a plan order to become the first paid one, or the only paid one to be settled again. */
  lemma StepRewards(s: State, step: Step, friend: int)
    ensures 0 <= Rewards(Next(s, step).ledger, friend) - Rewards(s.ledger, friend)
            <= One(PaidPlanOrders(s.orders, friend) == {} && PaidPlanOrders(Next(s, step).orders, friend) != {})
               + One(SettlesOnlyOrderAgain(s, step, friend))
  {
    hide Next, Buys, PaidPlanOrders, RowEffect, SameGap;
    StepHasEffect(s, step, 0, friend, 0);
    if Rewards(Next(s, step).ledger, friend) > Rewards(s.ledger, friend) {
      var o := step.order;
      var before, after := PaidPlanOrders(s.orders, friend), PaidPlanOrders(Next(s, step).orders, friend);
      OnlyOneBuys(s, step, o);
      CountIsEmpty(before);
      CountIsEmpty(after);
      PaidPlanOrdersGrow(s, step, friend);
      if IsPaid(s, o) {
        PaidIsCounted(s, o);
        PaidPlanStep(s, step, friend, o);
        forall x
          ensures x in before <==> x == o
        {
          PaidPlanStep(s, step, friend, x);
          OnlyOneInIt(after, o, x);
        }
      }
    }
  }

  lemma PaidIsCounted(s: State, o: int)
    requires IsPaid(s, o) && !s.orders[o].plan.NoPlan?
    ensures o in PaidPlanOrders(s.orders, s.orders[o].user)
  {
  }

  lemma OnlyOneInIt(xs: set<int>, a: int, b: int)
    requires |xs| == 1 && a in xs
    ensures b in xs ==> b == a
  {
    assert |xs - {a}| == 0;
  }

  lemma CountIsEmpty(xs: set<int>)
    ensures |xs| == 0 <==> xs == {}
  {
  }

  /** From any state at all, a friend is worth one reward, for the first paid plan order; each reward
      beyond that takes a completion that settles the friend's only paid plan order again. */
  lemma {:induction false} OneRewardAFriend(s: State, steps: seq<Step>, friend: int)
    ensures var t := Run(s, steps);
            && 0 <= Rewards(t.ledger, friend) - Rewards(s.ledger, friend)
            && Rewards(t.ledger, friend) - Rewards(s.ledger, friend)
               <= One(PaidPlanOrders(s.orders, friend) == {} && PaidPlanOrders(t.orders, friend) != {})
                  + OnlyOrderSettledAgain(s, steps, friend)
  {
    hide Next, PaidPlanOrders, SettlesOnlyOrderAgain;
    if steps != [] {
      var before, step := Run(s, FrontOf(steps)), LastOf(steps);
      OneRewardAFriend(s, FrontOf(steps), friend);
      StepRewards(before, step, friend);
      PaidPlanOrdersGrow(before, step, friend);
      CountIsEmpty(PaidPlanOrders(s.orders, friend));
      CountIsEmpty(PaidPlanOrders(before.orders, friend));
      CountIsEmpty(PaidPlanOrders(Next(before, step).orders, friend));
      NeverFewerPaid(s, FrontOf(steps), friend);
    }
  }

  lemma {:induction false} NeverFewerPaid(s: State, steps: seq<Step>, user: int)
    ensures |PaidPlanOrders(Run(s, steps).orders, user)| >= |PaidPlanOrders(s.orders, user)|
  {
    hide Next, PaidPlanOrders, Buys;
    if steps != [] {
      NeverFewerPaid(s, FrontOf(steps), user);
      PaidPlanOrdersGrow(Run(s, FrontOf(steps)), LastOf(steps), user);
    }
  }

  /** A renewal as every creator of one makes it: of another order of the same user that is paid. */
  predicate RenewsPaidOrder(s: State, o: int)
    requires o in s.orders
  {
    && s.orders[o].renews.Some?
    && var x := s.orders[o].renews.value;
       x != o && IsPaid(s, x) && s.orders[x].user == s.orders[o].user && !s.orders[x].plan.NoPlan?
  }

  /** The orders of one user as the shop makes and keeps them. */
  predicate IsWellMade(s: State, user: int) {
    forall o :: o in s.orders && s.orders[o].user == user && s.orders[o].plan.Plan? ==>
      RenewsPaidOrder(s, o) || IsNewPurchase(s, o)
  }

  lemma StepKeepsRenewal(s: State, step: Step, o: int)
    requires o in s.orders && RenewsPaidOrder(s, o)
    ensures var t := Next(s, step); o in t.orders && RenewsPaidOrder(t, o)
  {
    hide Next, Buys, TopsUp, Written, BooksEffect;
    StepHasEffect(s, step, o, 0, 0);
    StepHasEffect(s, step, s.orders[o].renews.value, 0, 0);
  }

  lemma StepKeepsWellMade(s: State, step: Step, user: int)
    requires IsWellMade(s, user)
    ensures IsWellMade(Next(s, step), user)
  {
    hide Next, Buys, TopsUp, Written, BooksEffect, IsNewPurchase, RenewsPaidOrder;
    var t := Next(s, step);
    forall o | o in t.orders && t.orders[o].user == user && t.orders[o].plan.Plan?
      ensures RenewsPaidOrder(t, o) || IsNewPurchase(t, o)
    {
      StepHasEffect(s, step, o, 0, 0);
      if RenewsPaidOrder(s, o) {
        StepKeepsRenewal(s, step, o);
      } else {
        StepKeepsNewPurchase(s, step, o);
      }
    }
  }

  lemma OriginalIsCounted(s: State, o: int)
    requires o in s.orders
    ensures RenewsPaidOrder(s, o) ==> s.orders[o].renews.value in PaidPlanOrders(s.orders, s.orders[o].user)
  {
  }

  /** Only a renewal is ever settled again, and its original is paid as well. */
  lemma WellMadeNeverAlone(s: State, step: Step, friend: int)
    requires IsWellMade(s, friend)
    ensures !SettlesOnlyOrderAgain(s, step, friend)
  {
    hide Next, LinkedRows, IsNewPurchase;
    if SettlesOnlyOrderAgain(s, step, friend) {
      var o := step.order;
      assert o in PaidPlanOrders(s.orders, friend);
      OriginalIsCounted(s, o);
      if !RenewsPaidOrder(s, o) {
        StepKeepsNewPurchase(s, step, o);
      }
    }
  }

  lemma {:induction false} WellMadeThroughout(s: State, steps: seq<Step>, friend: int)
    requires IsWellMade(s, friend)
    ensures IsWellMade(Run(s, steps), friend)
    ensures OnlyOrderSettledAgain(s, steps, friend) == 0
  {
    hide Next, IsWellMade, SettlesOnlyOrderAgain;
    if steps != [] {
      WellMadeThroughout(s, FrontOf(steps), friend);
      WellMadeNeverAlone(Run(s, FrontOf(steps)), LastOf(steps), friend);
      StepKeepsWellMade(Run(s, FrontOf(steps)), LastOf(steps), friend);
    }
  }

  /** Whatever the handlers do and in whatever order, gateway completions included, a friend's orders earn
      one reward ever: for the first plan order to be paid, and none once one was paid. */
  lemma OneRewardEver(s: State, steps: seq<Step>, friend: int)
    requires IsWellMade(s, friend)
    ensures var t := Run(s, steps);
            && 0 <= Rewards(t.ledger, friend) - Rewards(s.ledger, friend)
            && Rewards(t.ledger, friend) - Rewards(s.ledger, friend)
               <= One(PaidPlanOrders(s.orders, friend) == {} && PaidPlanOrders(t.orders, friend) != {})
  {
    hide Run, PaidPlanOrders, IsWellMade;
    OneRewardAFriend(s, steps, friend);
    WellMadeThroughout(s, steps, friend);
  }

  // ---------------------------------------------------------------- expiry dates

  /** The days a step adds to the order `x` by settling a renewal of it. */
  function DaysFor(s: State, step: Step, x: int): int {
    if Delivers(s, step) && Target(s, step) == Some(x) then s.orders[step.order].plan.days else 0
  }

  function DaysGranted(s: State, steps: seq<Step>, x: int): int {
    if steps == [] then 0
    else DaysGranted(s, FrontOf(steps), x) + DaysFor(Run(s, FrontOf(steps)), LastOf(steps), x)
  }

  /** A running service: paid, with its link and a readable date. */
  predicate IsRunning(s: State, x: int) {
    IsPaid(s, x) && s.orders[x].config != "" && s.orders[x].expires.Known?
  }

  lemma RunningIsWrittenByRenewals(s: State, step: Step, x: int)
    requires IsRunning(s, x)
    ensures Delivers(s, step) ==> step.order != x
    ensures Written(s, step) == Some(x) <==> Delivers(s, step) && Target(s, step) == Some(x)
  {
    hide LinkedRows, Target;
  }

  lemma StepMovesDate(s: State, step: Step, x: int)
    requires IsRunning(s, x)
    ensures var t := Next(s, step);
            IsRunning(t, x) && t.orders[x].expires.at == s.orders[x].expires.at + DaysFor(s, step, x) * DAY
  {
    hide Next, Buys, TopsUp, Delivers, Written, BooksEffect, PassesGuard;
    StepHasEffect(s, step, x, 0, 0);
    RunningIsWrittenByRenewals(s, step, x);
    WrittenLinkIsThere(s, step);
  }

  /** In any run, the date of a running service is where it was plus the plan days of every renewal of
      it that was settled, by whichever handler and however late. */
  lemma {:induction false} ExpiryAddsUp(s: State, steps: seq<Step>, x: int)
    requires IsRunning(s, x)
    ensures var t := Run(s, steps);
            IsRunning(t, x) && t.orders[x].expires.at == s.orders[x].expires.at + DaysGranted(s, steps, x) * DAY
  {
    hide Next, IsRunning, DaysFor;
    if steps != [] {
      ExpiryAddsUp(s, FrontOf(steps), x);
      StepMovesDate(Run(s, FrontOf(steps)), LastOf(steps), x);
      DateIsThere(s, x);
      DateIsThere(Run(s, FrontOf(steps)), x);
    } else {
      DateIsThere(s, x);
    }
  }

  lemma DateIsThere(s: State, x: int)
    requires IsRunning(s, x)
    ensures x in s.orders && s.orders[x].expires.Known?
  {
  }

  // ---------------------------------------------------------------- discount codes

  /** What a step does to one code's count and to one order's usages. */
  ghost predicate UsageEffect(s: State, step: Step, t: State, code: int, o: int) {
    && (code in t.used <==> code in s.used)
    && (code in s.used ==> t.used[code] - UsagesOf(t.usages, code) == s.used[code] - UsagesOf(s.usages, code))
    && 0 <= UsagesFor(t.usages, o) - UsagesFor(s.usages, o) <= 1
    && (UsagesFor(t.usages, o) > UsagesFor(s.usages, o) ==>
          step.order == o && (step.Apply? || (step.Fulfil? && UsagesFor(s.usages, o) == 0)))
  }

  lemma UsageAdded(s: State, c: int, x: int, code: int, o: int)
    requires c in s.used
    ensures var t := WithUsage(s, c, x);
            && (code in t.used <==> code in s.used)
            && (code in s.used ==> t.used[code] - UsagesOf(t.usages, code) == s.used[code] - UsagesOf(s.usages, code))
            && UsagesFor(t.usages, o) == UsagesFor(s.usages, o) + One(x == o)
  {
    Appended(s.usages, Usage(c, x));
  }

  lemma StepKeepsUsages(s: State, step: Step, code: int, o: int)
    ensures UsageEffect(s, step, Next(s, step), code, o)
  {
    hide Bought, ToppedUp, LinkedRows, Linked, WithUsage, PassesGuard, PriceOf;
    if IsSettling(step) {
      hide Next;
      HandlersShareAShape(s, step);
      if Delivers(s, step) {
        DeliveredFrame(s, step);
        BoughtEffect(Delivered(s, step), step.order, PriceOf(s, step), 0, 0, 0);
        if step.Fulfil? {
          var c := s.orders[step.order].code;
          if c.Some? && c.value in s.used && !HasUsage(s, step.order) {
            UsageAdded(s, c.value, step.order, code, o);
          }
        }
      } else if TopsUp(s, step, step.order) {
        TopUpEffect(s, step.order, 0, 0, 0);
      }
    } else if step.Apply? && step.code in s.used {
      UsageAdded(s, step.code, step.order, code, o);
    }
  }

  /** used_count moves with the usage rows of its code, one for one, in every run. */
  lemma {:induction false} UsedCountIsUsages(s: State, steps: seq<Step>, code: int)
    requires code in s.used
    ensures var t := Run(s, steps);
            code in t.used && t.used[code] - UsagesOf(t.usages, code) == s.used[code] - UsagesOf(s.usages, code)
  {
    hide Next;
    if steps != [] {
      UsedCountIsUsages(s, FrontOf(steps), code);
      StepKeepsUsages(Run(s, FrontOf(steps)), LastOf(steps), code, 0);
    }
  }

  function AppliesTo(steps: seq<Step>, o: int): (n: int)
    ensures n >= 0
  {
    if steps == [] then 0 else AppliesTo(FrontOf(steps), o) + One(LastOf(steps).Apply? && LastOf(steps).order == o)
  }

  /** An order has one usage row at most, besides those it started with and those asked for by code:
      fulfilling adds none where there is one. */
  lemma {:induction false} OneUsageAnOrder(s: State, steps: seq<Step>, o: int)
    ensures var n := UsagesFor(Run(s, steps).usages, o);
            && UsagesFor(s.usages, o) <= n
            && n <= AppliesTo(steps, o) + (if UsagesFor(s.usages, o) == 0 then 1 else UsagesFor(s.usages, o))
  {
    hide Next, UsagesFor;
    if steps != [] {
      OneUsageAnOrder(s, FrontOf(steps), o);
      StepKeepsUsages(Run(s, FrontOf(steps)), LastOf(steps), 0, o);
    }
  }

  predicate AreDistinct(usages: seq<Usage>) {
    forall i, j :: 0 <= i < j < |usages| ==> usages[i] != usages[j]
  }

  /** A step that records the use of a code adds that one row, which was not there before. */
  lemma StepRecordsNew(s: State, step: Step)
    ensures var t := Next(s, step);
            || t.usages == s.usages
            || exists code :: Usage(code, step.order) !in s.usages && t.usages == s.usages + [Usage(code, step.order)]
  {
    hide Next, Bought, ToppedUp, LinkedRows, Linked, PassesGuard, PriceOf;
    if IsSettling(step) {
      HandlersShareAShape(s, step);
      if Delivers(s, step) {
        DeliveredFrame(s, step);
        BoughtEffect(Delivered(s, step), step.order, PriceOf(s, step), 0, 0, 0);
        if step.Fulfil? && !HasUsage(s, step.order) {
          forall code
            ensures Usage(code, step.order) !in s.usages
          {
          }
        }
      } else if TopsUp(s, step, step.order) {
        TopUpEffect(s, step.order, 0, 0, 0);
      }
    } else {
      ApplyingRecordsExactlyWhen(s, step);
    }
  }

  /** The use of a code is recorded when asked for exactly if order and code exist, the order has not lost its plan,
      and the same use is not on record. */
  lemma ApplyingRecordsExactlyWhen(s: State, step: Step)
    requires !IsSettling(step)
    ensures var t := Next(s, step);
            if step.Apply? && step.order in s.orders && !s.orders[step.order].plan.PlanGone? && step.code in s.used
               && Usage(step.code, step.order) !in s.usages
            then t.usages == s.usages + [Usage(step.code, step.order)]
            else t.usages == s.usages && t.used == s.used
  {
  }

  /** No use of a code is ever on record twice. */
  lemma {:induction false} NoUsageTwice(s: State, steps: seq<Step>)
    requires AreDistinct(s.usages)
    ensures AreDistinct(Run(s, steps).usages)
  {
    hide Next;
    if steps != [] {
      NoUsageTwice(s, FrontOf(steps));
      StepRecordsNew(Run(s, FrontOf(steps)), LastOf(steps));
    }
  }

  // ---------------------------------------------------------------- the gateway cache

  predicate Opens(s: State, step: Step, o: int) {
    && step.Open? && step.order == o && o in s.orders && s.orders[o].plan.Plan?
    && (s.orders[o].renews.Some? ==> s.orders[o].renews.value in s.orders)
  }

  /** A context comes with opening the gateways of a plan order, whose renewed order must exist, and goes with a
      completion that delivers or when it is forgotten. It knows of the payment if the order was paid when the
      chat opened it, or once it is charged; the web shop's never does before that. */
  lemma ContextMovesExactly(s: State, step: Step, o: int)
    ensures var t := Next(s, step);
            && (o in t.contexts <==>
                  || Opens(s, step, o)
                  || (o in s.contexts && step != Forget(o)
                      && !(step.Complete? && step.order == o && Delivers(s, step))))
            && (o in t.contexts ==>
                  if Opens(s, step, o) then
                    t.contexts[o] == Context(s.orders[o].renews.Some?, s.orders[o].renews,
                                             if step.web then false else s.orders[o].status == Paid)
                  else t.contexts[o] == s.contexts[o].(charged := step == Charge(o) || s.contexts[o].charged))
  {
    if IsSettling(step) {
      hide Next, Delivers, Opens;
      SettlingForgets(s, step);
    }
  }

  lemma SettlingForgets(s: State, step: Step)
    requires IsSettling(step)
    ensures Next(s, step).contexts
            == if step.Complete? && Delivers(s, step) then s.contexts - {step.order} else s.contexts
  {
    hide Next, Bought, ToppedUp, LinkedRows, Linked, PassesGuard, PriceOf, WithDiscount;
    HandlersShareAShape(s, step);
    if Delivers(s, step) {
      DeliveredFrame(s, step);
      BoughtEffect(Delivered(s, step), step.order, PriceOf(s, step), 0, 0, 0);
    } else if TopsUp(s, step, step.order) {
      TopUpEffect(s, step.order, 0, 0, 0);
    }
  }

  // ---------------------------------------------------------------- where a link goes, and until when

  /** The step gets as far as writing its link: fulfilment of an order that is not paid, approval of a pending one,
      completion of one that is pending, or paid without a link of its own, while its context is there. */
  predicate IsDue(s: State, step: Step) {
    && step.order in s.orders && s.orders[step.order].plan.Plan?
    && var order := s.orders[step.order];
       match step
       case Fulfil(_, link, _) => link.Some? && order.status != Paid
       case Approve(_, link, _) => link.Some? && order.status == Pending
       case Complete(o, link, _) =>
         link.Some? && o in s.contexts && (order.status == Pending || (order.status == Paid && order.config == ""))
       case _ => false
  }

  /** The order that is renewed: the one the order names, or the one its context names, if that is a renewal's and
      the order still exists. */
  function RenewedOrder(s: State, step: Step): Option<int>
    requires IsDue(s, step)
  {
    if !step.Complete? then s.orders[step.order].renews
    else
      var ctx := s.contexts[step.order];
      if ctx.isRenewal && ctx.original.Some? && ctx.original.value in s.orders then ctx.original else None
  }

  /** A link is written exactly when the step is due and the renewed order, if any, exists with a date that can be
      read; it goes there, or else to the order itself. The plan's days are counted from the date there, however
      long past, and from now where there is none or for a new purchase. */
  lemma LinkIsWrittenExactlyWhen(s: State, step: Step)
    ensures Delivers(s, step) <==>
              && IsDue(s, step)
              && (RenewedOrder(s, step).Some? ==>
                    RenewedOrder(s, step).value in s.orders && s.orders[RenewedOrder(s, step).value].expires != Garbled)
    ensures Delivers(s, step) ==>
              var renewed := RenewedOrder(s, step);
              var x := if renewed.Some? then renewed.value else step.order;
              var from := if renewed.Some? && s.orders[x].expires.Known? then s.orders[x].expires.at else step.now;
              && x in Next(s, step).orders && Next(s, step).orders[x].config == step.link.value
              && Next(s, step).orders[x].expires == Known(from + s.orders[step.order].plan.days * 86400)
              && forall y :: y in s.orders && y != x && y in Next(s, step).orders ==>
                   && Next(s, step).orders[y].config == s.orders[y].config
                   && Next(s, step).orders[y].expires == s.orders[y].expires
  {
    hide Next, Buys, TopsUp, BooksEffect;
    if Delivers(s, step) {
      var renewed := RenewedOrder(s, step);
      var x := if renewed.Some? then renewed.value else step.order;
      StepHasEffect(s, step, x, 0, 0);
      forall y | y in s.orders && y != x && y in Next(s, step).orders
        ensures Next(s, step).orders[y].config == s.orders[y].config
        ensures Next(s, step).orders[y].expires == s.orders[y].expires
      {
        StepHasEffect(s, step, y, 0, 0);
      }
    }
  }
}

/** Settling orders: what each handler does to orders, money, discounts and the gateway cache, as one
    atomic step on XMPlus. */
module Settlement {
  import opened Panel
  import opened RenewalDates

  datatype Status = Pending | Paid | Closed

  /** An order without plan_id tops up the wallet; a plan_id may have lost its plan. */
  datatype PlanRef = NoPlan | PlanGone | Plan(price: int, days: int)

  datatype Order = Order(
    user: int, plan: PlanRef, amount: int, status: Status, config: string, renews: Option<int>,
    code: Option<int>, expires: Due)

  /** Completed transactions; a reward is a deposit, too. */
  datatype Entry =
    | Deposited(user: int, amount: int, order: int)
    | Purchased(user: int, amount: int, order: int)
    | Rewarded(user: int, amount: int, friend: int)

  datatype Usage = Usage(code: int, order: int)

  /** The cached invoice context of an order whose customer is still choosing a gateway. */
  datatype Context = Context(isRenewal: bool, original: Option<int>, charged: bool)

  datatype State = State(
    orders: map<int, Order>, balances: map<int, int>, referrers: map<int, int>, reward: int,
    ledger: seq<Entry>, usages: seq<Usage>, used: map<int, int>, contexts: map<int, Context>)

  // ---------------------------------------------------------------- money

  function Balance(s: State, user: int): int {
    if user in s.balances then s.balances[user] else 0
  }

  function Credit(s: State, user: int, amount: int, entry: Entry): State {
    s.(balances := s.balances[user := Balance(s, user) + amount], ledger := s.ledger + [entry])
  }

  function ToppedUp(s: State, o: int): State
    requires o in s.orders
  {
    var order := s.orders[o];
    Credit(s.(orders := s.orders[o := order.(status := Paid)]), order.user, order.amount,
           Deposited(order.user, order.amount, o))
  }

  /** The paid orders with a plan_id that the referral listener counts. */
  function PaidPlanOrders(orders: map<int, Order>, user: int): set<int> {
    set o | o in orders && orders[o].user == user && orders[o].status.Paid? && !orders[o].plan.NoPlan?
  }

  /** RewardReferrerListener. */
  function WithReward(s: State, user: int): State {
    if user in s.referrers && |PaidPlanOrders(s.orders, user)| == 1 && s.referrers[user] in s.balances && s.reward > 0
    then Credit(s, s.referrers[user], s.reward, Rewarded(s.referrers[user], s.reward, user))
    else s
  }

  /** Paid, with its purchase in the ledger, and announced. */
  function Bought(s: State, o: int, amount: int): State
    requires o in s.orders
  {
    var order := s.orders[o];
    var paid := s.(orders := s.orders[o := order.(status := Paid)],
                   ledger := s.ledger + [Purchased(order.user, amount, o)]);
    WithReward(paid, order.user)
  }

  // ---------------------------------------------------------------- links and dates

  /** The rows with the new link on the order itself, or on the one it renews; None where that one is
      missing, its date cannot be read, or provisioning has failed. */
  function Linked(orders: map<int, Order>, o: int, target: Option<int>, link: Option<Link>, now: int, days: int):
    (r: Option<map<int, Order>>)
    requires o in orders
    ensures r.Some? ==> r.value.Keys == orders.Keys
  {
    if link.None? then None
    else if target.None? then
      Some(orders[o := orders[o].(config := link.value, expires := Known(now + days * DAY))])
    else if target.value !in orders then None
    else
      var original := orders[target.value];
      var expiry := ShopExpiry(original.expires, now, days);
      if expiry.None? then None
      else Some(orders[target.value := original.(config := link.value, expires := Known(expiry.value))])
  }

  // ---------------------------------------------------------------- discounts

  predicate HasUsage(s: State, o: int) {
    exists k :: 0 <= k < |s.usages| && s.usages[k].order == o
  }

  function WithUsage(s: State, code: int, o: int): State
    requires code in s.used
  {
    s.(usages := s.usages + [Usage(code, o)], used := s.used[code := s.used[code] + 1])
  }

  /** Fulfilment records the order's discount unless some usage of the order is on record. */
  function WithDiscount(s: State, o: int): State
    requires o in s.orders
  {
    var code := s.orders[o].code;
    if code.Some? && code.value in s.used && !HasUsage(s, o) then WithUsage(s, code.value, o) else s
  }

  // ---------------------------------------------------------------- the handlers

  /** FulfillOrderAfterPaymentAction: guarded by `status === 'paid'` under a row lock. A throw rolls
      everything back. */
  function Fulfilled(s: State, o: int, link: Option<Link>, now: int): State {
    if o !in s.orders || s.orders[o].status.Paid? then s
    else
      var order := s.orders[o];
      match order.plan
      case NoPlan => ToppedUp(s, o)
      case PlanGone => s
      case Plan(_, days) =>
        var linked := Linked(s.orders, o, order.renews, link, now, days);
        if linked.None? then s else Bought(WithDiscount(s, o).(orders := linked.value), o, order.amount)
  }

  /** ApprovePendingOrderAction: a top-up is not guarded at all; a plan order must still be pending. */
  function Approved(s: State, o: int, link: Option<Link>, now: int): State {
    if o !in s.orders then s
    else
      var order := s.orders[o];
      match order.plan
      case NoPlan => ToppedUp(s, o)
      case PlanGone => ToppedUp(s, o)
      case Plan(price, days) =>
        if !order.status.Pending? then s
        else
          var linked := Linked(s.orders, o, order.renews, link, now, days);
          if linked.None? then s else Bought(s.(orders := linked.value), o, price)
  }

  /** The third guard: pending, or paid with nothing in config_details. */
  predicate CanProceed(order: Order) {
    order.status.Pending? || (order.status.Paid? && order.config == "")
  }

  /** The order the context names as renewed, when it still exists. */
  function TargetOf(orders: map<int, Order>, ctx: Context): Option<int> {
    if ctx.isRenewal && ctx.original.Some? && ctx.original.value in orders then ctx.original else None
  }

  /** CompleteXmplusGatewayPaymentAction, all four entry points, from the guard to persistAfterPoll. */
  function Completed(s: State, o: int, link: Option<Link>, now: int): State {
    if o !in s.orders || !s.orders[o].plan.Plan? || !CanProceed(s.orders[o]) || o !in s.contexts then s
    else
      var order, ctx := s.orders[o], s.contexts[o];
      var linked := Linked(s.orders, o, TargetOf(s.orders, ctx), link, now, order.plan.days);
      if linked.None? then s
      else
        var after := s.(orders := linked.value, contexts := s.contexts - {o});
        if ctx.charged then after
        else Bought(after, o, if order.amount > 0 then order.amount else order.plan.price)
  }

  /** The gateway pickers cache the context: doNewPurchase and doRenewal for Telegram, noting whether
      the order is paid, and prepareWebPaymentGateways for the web, never noting it. */
  function Opened(s: State, o: int, web: bool): State {
    if o !in s.orders || !s.orders[o].plan.Plan? then s
    else
      var order := s.orders[o];
      if order.renews.Some? && order.renews.value !in s.orders then s
      else s.(contexts := s.contexts[o := Context(order.renews.Some?, order.renews, !web && order.status.Paid?)])
  }

  function Charged(s: State, o: int): State {
    if o !in s.contexts then s else s.(contexts := s.contexts[o := s.contexts[o].(charged := true)])
  }

  /** DiscountCode::apply; the table refuses the same code for the same order twice. */
  function CodeApplied(s: State, o: int, code: int): State {
    if o !in s.orders || s.orders[o].plan.PlanGone? || code !in s.used || Usage(code, o) in s.usages then s
    else WithUsage(s, code, o)
  }

  // ---------------------------------------------------------------- runs

  /** `link` is what provisioning or the gateway delivered; None where it failed. */
  datatype Step =
    | Fulfil(order: int, link: Option<Link>, now: int)
    | Approve(order: int, link: Option<Link>, now: int)
    | Complete(order: int, link: Option<Link>, now: int)
    | Open(order: int, web: bool)
    | Charge(order: int)
    | Forget(order: int)
    | Apply(order: int, code: int)

  function Next(s: State, step: Step): State {
    match step
    case Fulfil(o, link, now) => Fulfilled(s, o, link, now)
    case Approve(o, link, now) => Approved(s, o, link, now)
    case Complete(o, link, now) => Completed(s, o, link, now)
    case Open(o, web) => Opened(s, o, web)
    case Charge(o) => Charged(s, o)
    case Forget(o) => s.(contexts := s.contexts - {o})
    case Apply(o, code) => CodeApplied(s, o, code)
  }

  function Run(s: State, steps: seq<Step>): State {
    if steps == [] then s else Next(Run(s, steps[..|steps| - 1]), steps[|steps| - 1])
  }

  // ---------------------------------------------------------------- the desk

  /** The shop's tables, changed in place as the handlers do. */
  class Shop {
    var orders: map<int, Order>
    var balances: map<int, int>
    const referrers: map<int, int>
    const reward: int
    var ledger: seq<Entry>
    var usages: seq<Usage>
    var used: map<int, int>
    var contexts: map<int, Context>

    constructor (s: State)
      ensures Now() == s
    {
      orders, balances, referrers, reward := s.orders, s.balances, s.referrers, s.reward;
      ledger, usages, used, contexts := s.ledger, s.usages, s.used, s.contexts;
    }

    function Now(): State
      reads this
    {
      State(orders, balances, referrers, reward, ledger, usages, used, contexts)
    }

    method Deposit(user: int, amount: int, entry: Entry)
      modifies this`balances, this`ledger
      ensures Now() == Credit(old(Now()), user, amount, entry)
    {
      balances := balances[user := (if user in balances then balances[user] else 0) + amount];
      ledger := ledger + [entry];
    }

    method SetPaid(o: int)
      requires o in orders
      modifies this`orders
      ensures orders == old(orders)[o := old(orders)[o].(status := Paid)]
    {
      orders := orders[o := orders[o].(status := Paid)];
    }

    method TopUp(o: int)
      requires o in orders
      modifies this
      ensures Now() == ToppedUp(old(Now()), o)
    {
      var order := orders[o];
      SetPaid(o);
      Deposit(order.user, order.amount, Deposited(order.user, order.amount, o));
    }

    /** isFirstPaidOrder and the payment that follows. */
    method RewardReferrer(user: int)
      modifies this
      ensures Now() == WithReward(old(Now()), user)
    {
      if user in referrers {
        var first := |PaidPlanOrders(orders, user)| == 1;
        if first && referrers[user] in balances && reward > 0 {
          Deposit(referrers[user], reward, Rewarded(referrers[user], reward, user));
        }
      }
    }

    method Buy(o: int, amount: int)
      requires o in orders
      modifies this
      ensures Now() == Bought(old(Now()), o, amount)
    {
      var user := orders[o].user;
      SetPaid(o);
      ledger := ledger + [Purchased(user, amount, o)];
      RewardReferrer(user);
    }

    method UseCode(code: int, o: int)
      requires code in used
      modifies this`usages, this`used
      ensures Now() == WithUsage(old(Now()), code, o)
    {
      usages := usages + [Usage(code, o)];
      used := used[code := used[code] + 1];
    }

    method FindUsage(o: int) returns (found: bool)
      ensures found <==> HasUsage(Now(), o)
    {
      for k := 0 to |usages|
        invariant forall j :: 0 <= j < k ==> usages[j].order != o
      {
        if usages[k].order == o {
          return true;
        }
      }
      found := false;
    }

    /** Writes link and date to the order or to the one it renews; false where the source throws. */
    method WriteLink(o: int, target: Option<int>, link: Option<Link>, now: int, days: int) returns (ok: bool)
      requires o in orders
      modifies this`orders
      ensures var linked := Linked(old(orders), o, target, link, now, days);
              ok == linked.Some? && orders == if ok then linked.value else old(orders)
    {
      if link.None? {
        return false;
      }
      if target.None? {
        orders := orders[o := orders[o].(config := link.value, expires := Known(now + days * DAY))];
        return true;
      }
      if target.value !in orders {
        return false;
      }
      var original := orders[target.value];
      var expiry := ShopExpiry(original.expires, now, days);
      if expiry.None? {
        return false;
      }
      orders := orders[target.value := original.(config := link.value, expires := Known(expiry.value))];
      ok := true;
    }

    /** FulfillOrderAfterPaymentAction::execute. */
    method Fulfil(o: int, link: Option<Link>, now: int)
      modifies this
      ensures Now() == Fulfilled(old(Now()), o, link, now)
    {
      if o !in orders || orders[o].status.Paid? {
        return;
      }
      var order := orders[o];
      if order.plan.NoPlan? {
        TopUp(o);
      } else if order.plan.Plan? {
        var usagesBefore, usedBefore := usages, used;
        if order.code.Some? {
          var recorded := FindUsage(o);
          if !recorded && order.code.value in used {
            UseCode(order.code.value, o);
          }
        }
        var ok := WriteLink(o, order.renews, link, now, order.plan.days);
        if !ok {
          // The transaction is rolled back.
          usages, used := usagesBefore, usedBefore;
          return;
        }
        Buy(o, order.amount);
      }
    }

    /** ApprovePendingOrderAction::execute with the XMPlus panel. */
    method Approve(o: int, link: Option<Link>, now: int)
      modifies this
      ensures Now() == Approved(old(Now()), o, link, now)
    {
      if o !in orders {
        return;
      }
      var order := orders[o];
      if !order.plan.Plan? {
        TopUp(o);
      } else if order.status.Pending? {
        var ok := WriteLink(o, order.renews, link, now, order.plan.days);
        if ok {
          Buy(o, order.plan.price);
        }
      }
    }

    /** CompleteXmplusGatewayPaymentAction, ending in persistAfterPoll. */
    method Complete(o: int, link: Option<Link>, now: int)
      modifies this
      ensures Now() == Completed(old(Now()), o, link, now)
    {
      if o !in orders || !orders[o].plan.Plan? || !CanProceed(orders[o]) || o !in contexts {
        return;
      }
      var order, ctx := orders[o], contexts[o];
      var ok := WriteLink(o, TargetOf(orders, ctx), link, now, order.plan.days);
      if !ok {
        return;
      }
      contexts := contexts - {o};
      if !ctx.charged {
        Buy(o, if order.amount > 0 then order.amount else order.plan.price);
      }
    }

    method Do(step: Step)
      modifies this
      ensures Now() == Next(old(Now()), step)
    {
      match step {
        case Fulfil(o, link, now) => Fulfil(o, link, now);
        case Approve(o, link, now) => Approve(o, link, now);
        case Complete(o, link, now) => Complete(o, link, now);
        case Open(o, web) =>
          if o in orders && orders[o].plan.Plan? {
            var order := orders[o];
            if order.renews.None? || order.renews.value in orders {
              contexts := contexts[o := Context(order.renews.Some?, order.renews, !web && order.status.Paid?)];
            }
          }
        case Charge(o) =>
          if o in contexts {
            contexts := contexts[o := contexts[o].(charged := true)];
          }
        case Forget(o) => contexts := contexts - {o};
        case Apply(o, code) =>
          if o in orders && !orders[o].plan.PlanGone? && code in used && Usage(code, o) !in usages {
            UseCode(code, o);
          }
      }
    }
  }
}

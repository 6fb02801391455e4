/** The handlers as they meet the tables: an order's row, its panel columns and its cached context together. */
module Desk {
  import opened Text
  import opened Panel
  import opened RowSelection
  import opened Tally
  import opened Credentials
  import opened Invoicing
  import opened Payment
  import opened NewPurchase
  import opened WebCheckout
  import opened WebRenewal
  import opened RenewalDates
  import opened ServiceRules
  import opened Renewal
  import opened Settlement
  import opened Handlers

  /** What the panel needs of an order's row and of its plan: the invoice under way, the account and service
      that were delivered, the package and the plan's own billing cycle. */
  datatype PanelRow = PanelRow(invId: string, account: Original, pid: int, cycle: string)

  /** The order that a link, its date and its account are written to. */
  function TargetOrder(order: Order, o: int): int {
    if order.renews.Some? then order.renews.value else o
  }

  predicate RenewsKnown(orders: map<int, Order>, o: int)
    requires o in orders
  {
    orders[o].renews.Some? && orders[o].renews.value in orders
  }

  /** The renewed order is there, and its date can be read. */
  predicate CanExtend(orders: map<int, Order>, o: int, now: int)
    requires o in orders && orders[o].plan.Plan?
  {
    RenewsKnown(orders, o) && ShopExpiry(orders[orders[o].renews.value].expires, now, orders[o].plan.days).Some?
  }

  predicate SamePlans(before: map<int, PanelRow>, after: map<int, PanelRow>) {
    after.Keys == before.Keys && forall o :: o in before && o in after ==> after[o].pid == before[o].pid
  }

  /** A delivery names its account, and its service where it knows one. */
  function WithAccount(rows: map<int, PanelRow>, target: int, email: string, sid: Option<int>):
    (after: map<int, PanelRow>)
    ensures SamePlans(rows, after)
  {
    if target !in rows then rows
    else
      var was := rows[target].account;
      rows[target := rows[target].(account := Original(if email != "" then email else was.panelUsername,
                                                       if sid.Some? then sid else was.sid))]
  }

  function WithInvoice(rows: map<int, PanelRow>, o: int, invId: string): (after: map<int, PanelRow>)
    requires o in rows
    ensures SamePlans(rows, after)
  {
    rows[o := rows[o].(invId := invId)]
  }

  /** What provisioning is asked for. */
  function JobOf(orders: map<int, Order>, rows: map<int, PanelRow>, o: int): Job
    requires o in orders && orders[o].plan.Plan? && o in rows
  {
    Job(rows[o].pid, BillingOf(rows[o].cycle, orders[o].plan.days),
        if orders[o].renews.Some? && orders[o].renews.value in rows then rows[orders[o].renews.value].account
        else Original("", None))
  }

  /** The invoice a new purchase would use again. */
  function ReusableOf(orders: map<int, Order>, rows: map<int, PanelRow>, o: int): Option<string>
    requires o in orders && o in rows
  {
    if Trim(rows[o].invId) != "" && Trim(orders[o].config) == "" then Some(Trim(rows[o].invId)) else None
  }

  predicate IsProvisioned(s: State, o: int, pending: bool) {
    && o in s.orders && s.orders[o].plan.Plan?
    && if pending then s.orders[o].status.Pending? else !s.orders[o].status.Paid?
  }

  /** A context and its panel half speak of the same package and of the same kind of order. */
  predicate FitsContext(till: Till, ctx: Context, row: PanelRow) {
    till.pid == row.pid && (ctx.isRenewal <==> till.knownSid.Some?)
  }

  predicate Corresponds(s: State, rows: map<int, PanelRow>, tills: map<int, Till>) {
    && rows.Keys == s.orders.Keys && tills.Keys == s.contexts.Keys
    && forall o :: o in s.contexts ==> o in rows && o in tills && FitsContext(tills[o], s.contexts[o], rows[o])
  }

  /** The provisioning run of a handler, with everything it is asked for taken from the tables. */
  ghost predicate Provisions(s: State, rows: map<int, PanelRow>, o: int, known: bool, d: seq<Event>, env: Env,
                             stored: Stored, left: string, r: Outcome)
    requires o in s.orders && s.orders[o].plan.Plan? && o in rows
  {
    var renews := s.orders[o].renews.Some?;
    && ProvisionRun(d, env, stored, Trim(rows[o].invId), left, ReusableOf(s.orders, rows, o), JobOf(s.orders, rows, o),
                    renews, known, r)
    && IsPaidFor(d, r, renews)
  }

  /** The invoice the site shows for an order, likewise; `left` is what is stored afterwards. */
  ghost predicate Offers(s: State, rows: map<int, PanelRow>, o: int, d: seq<Event>, env: Env, stored: Stored,
                         left: string, offer: WebResult)
    requires o in s.orders && s.orders[o].plan.Plan? && o in rows
  {
    var job := JobOf(s.orders, rows, o);
    if s.orders[o].renews.Some? then WebRenewalRun(d, stored, job.original, Trim(rows[o].invId), left, offer)
    else WebRun(d, env, stored, Trim(rows[o].invId), job.pid, job.billing, offer)
  }

  predicate IsOffered(s: State, o: int) {
    o in s.orders && s.orders[o].plan.Plan? && (s.orders[o].renews.Some? ==> RenewsKnown(s.orders, o))
  }

  /** The gateways are asked for only once there is an invoice. */
  predicate ListsAfter(d: seq<Event>, first: seq<Event>, offer: WebResult) {
    if offer.Refused? then d == first
    else d != [] && d[..|d| - 1] == first && d[|d| - 1].GatewaysListed?
  }

  function GatewaysIn(d: seq<Event>): seq<int> {
    if d != [] && d[|d| - 1].GatewaysListed? && d[|d| - 1].gateways.Got? then d[|d| - 1].gateways.body else []
  }

  lemma OfferedRenewal(d: seq<Event>, stored: Stored, original: Original, invId: string, left: string,
                       offer: WebResult)
    requires WebRenewalRun(d, stored, original, Trim(invId), left, offer) && offer.Offered?
    ensures original.sid.Some? && Trim(offer.invid) == left
  {
    hide PrepareRun, IsOfferable, ApiOk, Trim;
    TrimIdempotent(invId);
  }

  // ---------------------------------------------------------------- what a link settles

  lemma FulfilSettles(s: State, o: int, link: Option<Link>, now: int)
    requires IsProvisioned(s, o, false)
    ensures var linked := link.Some? && (s.orders[o].renews.Some? ==> CanExtend(s.orders, o, now));
            if linked then o in Fulfilled(s, o, link, now).orders && Fulfilled(s, o, link, now).orders[o].status.Paid?
            else Fulfilled(s, o, link, now) == s
  {
  }

  lemma ApproveSettles(s: State, o: int, link: Option<Link>, now: int)
    requires IsProvisioned(s, o, true)
    ensures var linked := link.Some? && (s.orders[o].renews.Some? ==> CanExtend(s.orders, o, now));
            if linked then o in Approved(s, o, link, now).orders && Approved(s, o, link, now).orders[o].status.Paid?
            else Approved(s, o, link, now) == s
  {
  }

  lemma BuyingKeeps(s: State, o: int, amount: int)
    requires o in s.orders
    ensures Bought(s, o, amount).orders.Keys == s.orders.Keys && Bought(s, o, amount).contexts == s.contexts
  {
    hide PaidPlanOrders;
  }

  lemma FulfilKeeps(s: State, o: int, link: Option<Link>, now: int)
    ensures Fulfilled(s, o, link, now).orders.Keys == s.orders.Keys
    ensures Fulfilled(s, o, link, now).contexts == s.contexts
  {
    hide Settlement.Linked, Bought, HasUsage;
    if o in s.orders && s.orders[o].plan.Plan? {
      var linked := Settlement.Linked(s.orders, o, s.orders[o].renews, link, now, s.orders[o].plan.days);
      if linked.Some? {
        BuyingKeeps(WithDiscount(s, o).(orders := linked.value), o, s.orders[o].amount);
      }
    }
  }

  lemma ApproveKeeps(s: State, o: int, link: Option<Link>, now: int)
    ensures Approved(s, o, link, now).orders.Keys == s.orders.Keys
    ensures Approved(s, o, link, now).contexts == s.contexts
  {
    hide Settlement.Linked, Bought;
    if o in s.orders && s.orders[o].plan.Plan? {
      var linked := Settlement.Linked(s.orders, o, s.orders[o].renews, link, now, s.orders[o].plan.days);
      if linked.Some? {
        BuyingKeeps(s.(orders := linked.value), o, s.orders[o].plan.price);
      }
    }
  }

  /** A completion that changes anything forgets the context. */
  lemma CompletionForgets(s: State, o: int, link: Option<Link>, now: int)
    ensures var after := Completed(s, o, link, now);
            && after.orders.Keys == s.orders.Keys
            && if o in s.contexts && o !in after.contexts then
                 after != s && after.contexts == s.contexts - {o} && o in s.orders && link.Some?
                 && s.orders[o].plan.Plan? && CanProceed(s.orders[o])
               else after == s
  {
  }

  lemma DeliversOnlyKnown(d: seq<Event>, env: Env, stored: Stored, invId: string, left: string, reuse: Option<string>,
                          job: Job, renews: bool, known: bool, r: Outcome)
    requires ProvisionRun(d, env, stored, invId, left, reuse, job, renews, known, r) && r.Delivered?
    ensures renews ==> known
  {
    hide PurchaseRun, RenewalRun;
  }

  lemma KnowsRows(s: State, rows: map<int, PanelRow>, tills: map<int, Till>)
    requires Corresponds(s, rows, tills)
    ensures rows.Keys == s.orders.Keys && tills.Keys == s.contexts.Keys
  {
  }

  lemma StillCorresponds(s: State, after: State, before: map<int, PanelRow>, rows: map<int, PanelRow>,
                         tills: map<int, Till>)
    requires Corresponds(s, before, tills) && SamePlans(before, rows)
    requires after.orders.Keys == s.orders.Keys && after.contexts == s.contexts
    ensures Corresponds(after, rows, tills)
  {
  }

  lemma OneContextLess(s: State, after: State, o: int, before: map<int, PanelRow>, rows: map<int, PanelRow>,
                       cached: map<int, Till>, tills: map<int, Till>)
    requires Corresponds(s, before, cached) && SamePlans(before, rows) && after.orders.Keys == s.orders.Keys
    requires || (after.contexts == s.contexts && tills == cached)
             || (after.contexts == s.contexts - {o} && tills == cached - {o})
    ensures Corresponds(after, rows, tills)
  {
  }

  lemma AccountKeepsInvoice(rows: map<int, PanelRow>, o: int, invId: string, target: int, email: string,
                            sid: Option<int>)
    requires o in rows
    ensures var saved := WithInvoice(rows, o, invId);
            && SamePlans(rows, saved) && SamePlans(rows, WithAccount(saved, target, email, sid))
            && o in saved && saved[o].invId == invId && o in WithAccount(saved, target, email, sid)
            && WithAccount(saved, target, email, sid)[o].invId == invId
  {
  }

  lemma OneContextMore(s: State, o: int, before: map<int, PanelRow>, rows: map<int, PanelRow>, tills: map<int, Till>,
                       till: Till)
    requires Corresponds(s, before, tills) && SamePlans(before, rows) && IsOffered(s, o) && o in before
    requires till.pid == before[o].pid && (till.knownSid.Some? <==> s.orders[o].renews.Some?)
    ensures Corresponds(Opened(s, o, true), rows, tills[o := till])
  {
  }

  lemma QuietStepFits(s: State, rows: map<int, PanelRow>, tills: map<int, Till>, step: Settlement.Step, till: Till)
    requires Corresponds(s, rows, tills) && (step.Open? || step.Charge? || step.Forget? || step.Apply?)
    requires step.Open? && IsOffered(s, step.order) && step.order in rows ==>
               till.pid == rows[step.order].pid && (till.knownSid.Some? <==> s.orders[step.order].renews.Some?)
    ensures Corresponds(Next(s, step), rows,
                        match step
                        case Open(o, _) => if IsOffered(s, o) then tills[o := till] else tills
                        case Forget(o) => tills - {o}
                        case _ => tills)
  {
    hide CanProceed;
  }

  lemma SamePlansAtOnce(rows: map<int, PanelRow>)
    ensures SamePlans(rows, rows)
  {
  }

  // ---------------------------------------------------------------- the desk

  class Desk {
    const shop: Shop
    var rows: map<int, PanelRow>
    var tills: map<int, Till>

    ghost predicate Valid()
      reads this, shop
    {
      Corresponds(shop.Now(), rows, tills)
    }

    constructor (shop: Shop, rows: map<int, PanelRow>, tills: map<int, Till>)
      requires Corresponds(shop.Now(), rows, tills)
      ensures Valid() && this.shop == shop && this.rows == rows && this.tills == tills
    {
      this.shop, this.rows, this.tills := shop, rows, tills;
    }

    /** provisionPurchase for an order of the desk; `invId` is what it leaves in the order's row. */
    method ProvideFor(api: Api, table: ServiceTable, env: Env, user: User, o: int, known: bool, undo: bool)
      returns (link: Option<Link>, r: Outcome, invId: string, ghost left: string, ghost d: seq<Event>)
      requires api.IsFaithful() && o in shop.orders && shop.orders[o].plan.Plan? && o in rows
      modifies api, table, user
      ensures api.IsFaithful() && api.log == old(api.log) + d
      ensures Provisions(shop.Now(), rows, o, known, d, env, old(StoredOf(user)), left, r) && IsLinkOf(link, r)
      ensures if undo && r.Aborted? then StoredOf(user) == old(StoredOf(user)) && invId == rows[o].invId
              else Trim(invId) == left
      ensures r.Delivered? || r.Aborted?
      ensures r.Delivered? && shop.orders[o].renews.Some? ==> known
    {
      hide ProvisionRun, IsPaidFor, Follows, StoredOf, PhpEmpty, Trim, JobOf;
      var order, job := shop.orders[o], JobOf(shop.orders, rows, o);
      var draft := new ShopOrder(rows[o].invId, order.config, Creds("", ""));
      ghost var stored := StoredOf(user);
      link, r, left, d := ProvideLink(api, table, env, user, draft, job, order.plan.days, order.renews.Some?, known,
                                      undo);
      PaidLinkIsThere(d, r, order.renews.Some?);
      if r.Delivered? {
        DeliversOnlyKnown(d, env, stored, Trim(rows[o].invId), left, ReusableOf(shop.orders, rows, o), job,
                          order.renews.Some?, known, r);
      }
      invId := draft.invId;
    }

    /** FulfillOrderAfterPaymentAction as a whole. The panel is called only for an unpaid plan order, and not
        for a renewal whose date cannot be read; whatever is delivered is settled, and a throw leaves every row
        as it was. */
    method Fulfil(api: Api, table: ServiceTable, env: Env, user: User, o: int, now: int)
      returns (ghost link: Option<Link>, ghost r: Outcome, ghost left: string, ghost d: seq<Event>)
      requires Valid() && api.IsFaithful()
      requires o in shop.orders ==> user.idText == Decimal(shop.orders[o].user)
      modifies this`rows, shop, api, table, user
      ensures Valid() && api.IsFaithful() && api.log == old(api.log) + d
      ensures shop.Now() == Next(old(shop.Now()), Settlement.Step.Fulfil(o, link, now)) && IsLinkOf(link, r)
      ensures var s := old(shop.Now());
              if IsProvisioned(s, o, false) then
                o in old(rows)
                && Provisions(s, old(rows), o, CanExtend(s.orders, o, now), d, env, old(StoredOf(user)), left, r)
              else d == [] && r.Aborted?
      ensures var s := old(shop.Now());
              if r.Delivered? then
                && o in s.orders && o in rows && o in old(rows) && shop.orders[o].status.Paid?
                && Trim(rows[o].invId) == left
                && rows == WithAccount(WithInvoice(old(rows), o, rows[o].invId), TargetOrder(s.orders[o], o),
                                       r.creds.email, r.sid)
              else
                && r.Aborted? && rows == old(rows) && StoredOf(user) == old(StoredOf(user))
                && (IsProvisioned(s, o, false) ==> shop.Now() == s)
    {
      hide Provisions, Fulfilled, Follows, StoredOf, PhpEmpty, Trim, Corresponds, WithAccount, WithInvoice, Decimal;
      hide CanExtend, SamePlans;
      r, left, d := Aborted, "", [];
      ghost var s, before := shop.Now(), rows;
      var written: Option<Link> := None;
      KnowsRows(s, rows, tills);
      SamePlansAtOnce(rows);
      if o in shop.orders && !shop.orders[o].status.Paid? && shop.orders[o].plan.Plan? {
        var order := shop.orders[o];
        var outcome, invId;
        written, outcome, invId, left, d := ProvideFor(api, table, env, user, o, CanExtend(shop.orders, o, now), true);
        r := outcome;
        if outcome.Delivered? {
          AccountKeepsInvoice(rows, o, invId, TargetOrder(order, o), outcome.creds.email, outcome.sid);
          rows := WithInvoice(rows, o, invId);
          rows := WithAccount(rows, TargetOrder(order, o), outcome.creds.email, outcome.sid);
        }
        FulfilSettles(s, o, written, now);
      }
      shop.Fulfil(o, written, now);
      link := written;
      FulfilKeeps(s, o, link, now);
      StillCorresponds(s, shop.Now(), before, rows, tills);
    }

    /** ApprovePendingOrderAction as a whole. The panel is called only for a pending plan order; what an attempt
        has saved stays, and a delivered renewal is left Pending where the shop's date cannot be read. */
    method Approve(api: Api, table: ServiceTable, env: Env, user: User, o: int, now: int)
      returns (ghost link: Option<Link>, ghost r: Outcome, ghost left: string, ghost d: seq<Event>)
      requires Valid() && api.IsFaithful()
      requires o in shop.orders ==> user.idText == Decimal(shop.orders[o].user)
      modifies this`rows, shop, api, table, user
      ensures Valid() && api.IsFaithful() && api.log == old(api.log) + d
      ensures shop.Now() == Next(old(shop.Now()), Settlement.Step.Approve(o, link, now)) && IsLinkOf(link, r)
      ensures var s := old(shop.Now());
              if IsProvisioned(s, o, true) then
                o in old(rows)
                && Provisions(s, old(rows), o, RenewsKnown(s.orders, o), d, env, old(StoredOf(user)), left, r)
              else d == [] && r.Aborted? && rows == old(rows)
      ensures var s := old(shop.Now());
              IsProvisioned(s, o, true) ==>
                && o in old(rows) && o in rows && Trim(rows[o].invId) == left
                && var saved := WithInvoice(old(rows), o, rows[o].invId);
                   if r.Delivered? && (s.orders[o].renews.Some? ==> CanExtend(s.orders, o, now)) then
                     && o in shop.orders && shop.orders[o].status.Paid?
                     && rows == WithAccount(saved, TargetOrder(s.orders[o], o), r.creds.email, r.sid)
                   else shop.Now() == s && rows == saved
    {
      hide Provisions, Approved, Follows, StoredOf, PhpEmpty, Trim, Corresponds, WithAccount, WithInvoice, Decimal;
      hide CanExtend, SamePlans;
      r, left, d := Aborted, "", [];
      ghost var s, before := shop.Now(), rows;
      var written: Option<Link> := None;
      KnowsRows(s, rows, tills);
      SamePlansAtOnce(rows);
      if o in shop.orders && shop.orders[o].plan.Plan? && shop.orders[o].status.Pending? {
        var order := shop.orders[o];
        var outcome, invId;
        written, outcome, invId, left, d := ProvideFor(api, table, env, user, o, RenewsKnown(shop.orders, o), false);
        r := outcome;
        if outcome.Delivered? {
          AccountKeepsInvoice(rows, o, invId, TargetOrder(order, o), outcome.creds.email, outcome.sid);
        } else {
          AccountKeepsInvoice(rows, o, invId, o, "", None);
        }
        rows := WithInvoice(rows, o, invId);
        if outcome.Delivered? && (order.renews.None? || CanExtend(shop.orders, o, now)) {
          rows := WithAccount(rows, TargetOrder(order, o), outcome.creds.email, outcome.sid);
        }
        ApproveSettles(s, o, written, now);
      }
      shop.Approve(o, written, now);
      link := written;
      ApproveKeeps(s, o, link, now);
      StillCorresponds(s, shop.Now(), before, rows, tills);
    }

    /** The invoice of an order as the site shows it; `invId` is what it leaves in the order's row. */
    method OfferFor(api: Api, env: Env, user: User, o: int)
      returns (offer: WebResult, invId: string, ghost d: seq<Event>)
      requires api.IsFaithful() && IsOffered(shop.Now(), o) && o in rows
      modifies api, user
      ensures api.IsFaithful() && api.log == old(api.log) + d
      ensures Offers(shop.Now(), rows, o, d, env, old(StoredOf(user)), Trim(invId), offer)
      ensures offer.Offered? ==>
                && Trim(offer.invid) == Trim(invId)
                && (shop.orders[o].renews.Some? <==> JobOf(shop.orders, rows, o).original.sid.Some?)
    {
      hide WebRun, WebRenewalRun, WebCounts, Strays, SumOf, Follows, StoredOf, Trim, Rehydrated;
      var order, job := shop.orders[o], JobOf(shop.orders, rows, o);
      var draft := new ShopOrder(rows[o].invId, order.config, Creds("", ""));
      ghost var stored := StoredOf(user);
      if order.renews.Some? {
        offer, d := OfferRenewal(api, user, draft, job.original);
        if offer.Offered? {
          OfferedRenewal(d, stored, job.original, rows[o].invId, Trim(draft.invId), offer);
        }
      } else {
        offer, d := OfferInvoice(api, env, user, draft, job.pid, job.billing);
        TrimIdempotent(draft.invId);
      }
      invId := draft.invId;
    }

    /** prepareWebPaymentGateways: the order's invoice, stored or made now, is put into the cached context
        together with the gateways on offer. */
    method OfferAtSite(api: Api, env: Env, user: User, o: int)
      returns (ok: bool, ghost offer: WebResult, ghost first: seq<Event>, ghost d: seq<Event>)
      requires Valid() && api.IsFaithful()
      requires o in shop.orders ==> user.idText == Decimal(shop.orders[o].user)
      modifies this, shop, api, user
      ensures Valid() && api.IsFaithful() && api.log == old(api.log) + d
      ensures var s := old(shop.Now());
              if IsOffered(s, o) then
                && o in old(rows) && o in rows && rows == WithInvoice(old(rows), o, rows[o].invId)
                && Offers(s, old(rows), o, first, env, old(StoredOf(user)), Trim(rows[o].invId), offer)
                && ListsAfter(d, first, offer)
              else d == [] && !ok && rows == old(rows)
      ensures var s := old(shop.Now());
              if ok then
                && shop.Now() == Next(s, Settlement.Step.Open(o, true)) && IsOffered(s, o) && offer.Offered?
                && o in old(rows) && o in rows && Trim(offer.invid) == Trim(rows[o].invId)
                && tills == old(tills)[o := Till(offer.creds, offer.invid, old(rows)[o].pid,
                                                 JobOf(s.orders, old(rows), o).original.sid, GatewaysIn(d))]
              else shop.Now() == s && tills == old(tills)
      ensures ok <==> IsOffered(old(shop.Now()), o) && offer.Offered? && GatewaysIn(d) != []
    {
      hide Offers, Follows, StoredOf, Trim, Corresponds, Decimal, SamePlans, Opened, BillingOf, WithInvoice;
      ok, offer, first, d := false, Refused, [], [];
      ghost var s, before := shop.Now(), rows;
      KnowsRows(s, rows, tills);
      if o !in shop.orders || !shop.orders[o].plan.Plan?
         || (shop.orders[o].renews.Some? && shop.orders[o].renews.value !in shop.orders) {
        return;
      }
      var job := JobOf(shop.orders, rows, o);
      var found, invId;
      found, invId, first := OfferFor(api, env, user, o);
      offer, d := found, first;
      AccountKeepsInvoice(rows, o, invId, o, "", None);
      rows := WithInvoice(rows, o, invId);
      StillCorresponds(s, shop.Now(), before, rows, tills);
      if found.Refused? {
        return;
      }
      var gateways := api.ListGateways();
      d := first + [GatewaysListed(gateways)];
      if gateways.Threw? || gateways.body == [] {
        return;
      }
      var till := Till(found.creds, found.invid, job.pid, job.original.sid, gateways.body);
      OneContextMore(s, o, before, rows, tills, till);
      tills := tills[o := till];
      shop.Do(Settlement.Step.Open(o, true));
      ok := true;
    }

    /** CompleteXmplusGatewayPaymentAction as a whole, on the cached context: neither a completed order nor one
        without a context costs a call. */
    method Complete(api: Api, visit: Visit, o: int, now: int)
      returns (ghost link: Option<Link>, ghost found: Option<Picked>, ghost d: seq<Event>)
      requires Valid() && api.IsFaithful()
      modifies this, shop, api
      ensures Valid() && api.IsFaithful() && api.log == old(api.log) + d
      ensures shop.Now() == Next(old(shop.Now()), Settlement.Step.Complete(o, link, now))
      ensures if found.Some? then link == Some(found.value.link) else link.None?
      ensures var s := old(shop.Now());
              if o in s.orders && s.orders[o].plan.Plan? && CanProceed(s.orders[o]) && o in s.contexts then
                var till := old(tills)[o];
                VisitRun(d, till, visit, found) && (found.Some? ==> SawPaid(d, till.creds, till.invid))
              else d == [] && found.None?
      ensures var s := old(shop.Now());
              if shop.Now() == s then tills == old(tills) && rows == old(rows)
              else
                && o in s.orders && o in s.contexts && o in old(tills) && found.Some? && tills == old(tills) - {o}
                && var target := TargetOf(s.orders, s.contexts[o]);
                   rows == WithAccount(old(rows), if target.Some? then target.value else o, old(tills)[o].creds.email,
                                       found.value.sid)
    {
      hide VisitRun, SawPaid, Completed, Follows, PhpEmpty, Corresponds, WithAccount;
      found, d := None, [];
      ghost var s, before, cached := shop.Now(), rows, tills;
      var written: Option<Link> := None;
      var picked: Option<Picked> := None;
      KnowsRows(s, rows, tills);
      var open := o in shop.orders && shop.orders[o].plan.Plan? && CanProceed(shop.orders[o]) && o in shop.contexts;
      var target: Option<int> := None;
      if open {
        target := TargetOf(shop.orders, shop.contexts[o]);
        picked, d := PayAtGateway(api, tills[o], visit);
        found := picked;
        if picked.Some? {
          written := Some(picked.value.link);
        }
      }
      shop.Complete(o, written, now);
      link := written;
      CompletionForgets(s, o, written, now);
      if picked.Some? && o !in shop.contexts {
        rows := WithAccount(rows, if target.Some? then target.value else o, tills[o].creds.email, picked.value.sid);
        tills := tills - {o};
      }
      OneContextLess(s, shop.Now(), o, before, rows, cached, tills);
    }

    /** The steps of the shop that make no call here. A chat opens a context with what its provisioning run
        ended with. */
    method Do(step: Settlement.Step, till: Till)
      requires Valid() && (step.Open? || step.Charge? || step.Forget? || step.Apply?)
      requires step.Open? && IsOffered(shop.Now(), step.order) && step.order in rows ==>
                 till.pid == rows[step.order].pid && (till.knownSid.Some? <==> shop.orders[step.order].renews.Some?)
      modifies this`tills, shop
      ensures Valid() && shop.Now() == Next(old(shop.Now()), step)
      ensures tills == match step
                       case Open(o, _) => if IsOffered(old(shop.Now()), o) then old(tills)[o := till] else old(tills)
                       case Forget(o) => old(tills) - {o}
                       case _ => old(tills)
    {
      hide IsOffered, FitsContext;
      ghost var s := shop.Now();
      var offered := step.Open? && IsOffered(shop.Now(), step.order);
      QuietStepFits(s, rows, tills, step, till);
      shop.Do(step);
      if offered {
        tills := tills[step.order := till];
      } else if step.Forget? {
        tills := tills - {step.order};
      }
    }
  }
}

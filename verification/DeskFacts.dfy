/** What a handler asks provisioning for, and where it records what was delivered. */
module DeskFacts {
  import opened Text
  import opened Words
  import opened Panel
  import opened BillingFacts
  import opened CycleFacts
  import opened Credentials
  import opened Payment
  import opened NewPurchase
  import opened Renewal
  import opened Settlement
  import opened Handlers
  import opened Desk

  /** Provisioning is asked for the order's own package and its plan's cycle, by name or by days, and for the account
      and service of the order renewed. */
  lemma JobIsOwn(orders: map<int, Order>, rows: map<int, PanelRow>, o: int)
    requires o in orders && orders[o].plan.Plan? && o in rows
    ensures var job := JobOf(orders, rows, o);
            && job.pid == rows[o].pid
            && job.billing == (if rows[o].cycle == "" then CycleFor(orders[o].plan.days) else rows[o].cycle)
            && match orders[o].renews
               case Some(x) => job.original == if x in rows then rows[x].account else Original("", None)
               case None => job.original == Original("", None)
  {
    CycleSaysItself(orders[o].plan.days);
  }

  /** A new purchase asks for an invoice of its own package, and first for its plan's own cycle, or for the one that
      goes with its days, where the package offers it or lists nothing. */
  lemma ProvisioningTriesInOrder(s: State, rows: map<int, PanelRow>, o: int, known: bool, d: seq<Event>, env: Env,
                                 stored: Stored, left: string, r: Outcome)
    requires o in s.orders && s.orders[o].plan.Plan? && o in rows && s.orders[o].renews.None?
    requires Provisions(s, rows, o, known, d, env, stored, left, r)
    ensures var cycle := if rows[o].cycle == "" then CycleFor(s.orders[o].plan.days) else rows[o].cycle;
            TriesInOrder(d, rows[o].pid, cycle)
  {
    hide PurchaseRun, TriesInOrder, IsPaidFor, CycleFor;
    JobIsOwn(s.orders, rows, o);
    var job := JobOf(s.orders, rows, o);
    PurchaseTriesInOrder(d, env, stored, ReusableOf(s.orders, rows, o), job.pid, job.billing, true, true, r);
  }

  /** A purchase uses the order's stored invoice again while the order has no link, blanks aside. */
  lemma ReusesExactlyWhen(orders: map<int, Order>, rows: map<int, PanelRow>, o: int)
    requires o in orders && o in rows
    ensures ReusableOf(orders, rows, o)
            == if !Says(rows[o].invId, "") && Says(orders[o].config, "") then Some(Trim(rows[o].invId)) else None
  {
    hide Trim, Lower, Says;
    TrimSays(rows[o].invId, "");
    TrimSays(orders[o].config, "");
    LowerReads(Trim(rows[o].invId), "");
    LowerReads(Trim(orders[o].config), "");
  }

  /** One row before and after a delivery. */
  predicate IsRecorded(was: PanelRow, row: PanelRow, isOrder: bool, isTarget: bool, invId: string, email: string,
                       sid: Option<int>) {
    && row.pid == was.pid && row.cycle == was.cycle && row.invId == (if isOrder then invId else was.invId)
    && if isTarget then
         && row.account.panelUsername == (if email == "" then was.account.panelUsername else email)
         && (if sid.Some? then row.account.sid == sid else row.account.sid == was.account.sid)
       else row.account == was.account
  }

  /** The order keeps its invoice, and the account and the service delivered are recorded on the renewed order, or on
      the order itself where it renews none; no other row changes. */
  lemma DeliveryIsRecorded(orders: map<int, Order>, rows: map<int, PanelRow>, o: int, invId: string, email: string,
                           sid: Option<int>)
    requires o in orders && o in rows
    ensures var after := WithAccount(WithInvoice(rows, o, invId), TargetOrder(orders[o], o), email, sid);
            var target := if orders[o].renews.Some? then orders[o].renews.value else o;
            && after.Keys == rows.Keys
            && forall x :: x in rows && x in after ==>
                 IsRecorded(rows[x], after[x], x == o, x == target, invId, email, sid)
  {
  }
}

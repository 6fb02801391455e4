/** Where the links come from that the handlers write: provisioning with its rollback, and the gateway visits. */
module Handlers {
  import opened Text
  import opened Panel
  import opened RowSelection
  import opened Polling
  import opened PollingFacts
  import opened InvoicePay
  import opened Tally
  import opened Credentials
  import opened Invoicing
  import opened Payment
  import opened NewPurchase
  import opened WebCheckout
  import opened ServiceRules
  import opened Renewal
  import opened RenewalFacts

  /** What provisioning takes from the plan and, for a renewal, from the renewed order. */
  datatype Job = Job(pid: int, billing: string, original: Original)

  /** An order that names an original goes to doRenewal, every other one to doNewPurchase. */
  ghost predicate ProvisionRun(d: seq<Event>, env: Env, stored: Stored, invId: string, left: string,
                               reuse: Option<string>, job: Job, renews: bool, known: bool, r: Outcome) {
    if !renews then PurchaseRun(d, env, stored, reuse, job.pid, job.billing, true, true, r)
    else if !known then d == [] && r.Aborted?
    else exists changed, tail :: RenewalRun(env, stored, job.original, invId, left, job.pid, true, changed, d, tail, r)
  }

  /** A link is not empty, and was paid for: its invoice was seen Paid, unless the panel renewed the service
      without naming one. */
  ghost predicate IsPaidFor(d: seq<Event>, r: Outcome, renews: bool) {
    && !r.AwaitGateway?
    && (r.Delivered? ==>
          && !PhpEmpty(r.link)
          && (SawPaid(d, r.creds, r.invid) || (renews && r.invid == "" && RenewedWithoutInvoice(d) && PaysNothing(d))))
  }

  lemma RenewalIsPaidFor(env: Env, stored: Stored, original: Original, invId: string, left: string, pid: int,
                         changed: bool, d: seq<Event>, tail: seq<Event>, r: Outcome)
    requires RenewalRun(env, stored, original, invId, left, pid, true, changed, d, tail, r)
    requires KeepsRenewalPromises(d, r, env, true)
    ensures IsPaidFor(d, r, true)
  {
    hide RenewalRun, RenewedWithoutInvoice, PaysNothing, SawPaid, PhpEmpty, OnlyPayment, MarksFollowPaid, SumOf;
    UnpaidExactlyWhen(env, stored, original, invId, left, pid, true, changed, d, tail, r);
  }

  lemma PurchaseIsPaidFor(d: seq<Event>, r: Outcome, env: Env)
    requires KeepsPromises(d, r, env, true, true)
    ensures IsPaidFor(d, r, false)
  {
    hide SawPaid, PhpEmpty, SumOf, AllActAs, SinceClear;
  }

  /** provisionPurchase for an order that is paid for in the shop; `known` says that the renewed order was
      found. */
  method Provision(api: Api, table: ServiceTable, env: Env, user: User, row: ShopOrder, job: Job, days: int,
                   renews: bool, known: bool)
    returns (r: Outcome, ghost d: seq<Event>)
    requires api.IsFaithful()
    modifies api, table, user, row
    ensures api.IsFaithful() && api.log == old(api.log) + d
    ensures ProvisionRun(d, env, old(StoredOf(user)), old(Trim(row.invId)), Trim(row.invId), old(row.Reusable()), job,
                         renews, known, r)
    ensures IsPaidFor(d, r, renews)
  {
    hide PurchaseRun, RenewalRun, KeepsPromises, KeepsRenewalPromises, IsPaidFor, Follows, Trim, Rehydrated;
    if renews {
      ghost var tail, prepared;
      ghost var stored, invId := StoredOf(user), Trim(row.invId);
      r, d, tail, prepared := DoRenewal(api, table, env, user, row, if known then Some(job.original) else None, job.pid,
                                        days, true);
      if known {
        RenewalIsPaidFor(env, stored, job.original, invId, Trim(row.invId), job.pid, table.rows != prepared, d, tail,
                         r);
      } else {
        NothingIsPaidFor(d);
      }
    } else {
      r, d := DoNewPurchase(api, env, user, row, job.pid, job.billing, true, true);
      PurchaseIsPaidFor(d, r, env);
    }
  }

  lemma NothingIsPaidFor(d: seq<Event>)
    ensures IsPaidFor(d, Aborted, true)
  {
  }

  /** What a handler passes on of a provisioning run. */
  ghost predicate IsLinkOf(link: Option<Link>, r: Outcome) {
    if r.Delivered? then link == Some(r.link) else link.None?
  }

  lemma PaidLinkIsThere(d: seq<Event>, r: Outcome, renews: bool)
    requires IsPaidFor(d, r, renews)
    ensures !r.AwaitGateway? && (r.Delivered? ==> !PhpEmpty(r.link))
  {
  }

  /** The link of a provisioning run. With `undo`, a throw takes back what the run had saved; `left` is the
      invoice it had saved. */
  method ProvideLink(api: Api, table: ServiceTable, env: Env, user: User, row: ShopOrder, job: Job, days: int,
                     renews: bool, known: bool, undo: bool)
    returns (link: Option<Link>, r: Outcome, ghost left: string, ghost d: seq<Event>)
    requires api.IsFaithful()
    modifies api, table, user, row
    ensures api.IsFaithful() && api.log == old(api.log) + d
    ensures ProvisionRun(d, env, old(StoredOf(user)), old(Trim(row.invId)), left, old(row.Reusable()), job, renews,
                         known, r)
    ensures IsPaidFor(d, r, renews) && IsLinkOf(link, r)
    ensures if undo && r.Aborted? then StoredOf(user) == old(StoredOf(user)) && row.invId == old(row.invId)
            else Trim(row.invId) == left
  {
    hide ProvisionRun, IsPaidFor, Follows, Rehydrated, PhpEmpty, Trim;
    link := None;
    var email, password, recoverable, unset := user.email, user.password, user.recoverable, user.unset;
    var invId := row.invId;
    ghost var maker := row.maker;
    r, d := Provision(api, table, env, user, row, job, days, renews, known);
    PaidLinkIsThere(d, r, renews);
    left := Trim(row.invId);
    if r.Delivered? {
      link := Some(r.link);
    } else if undo {
      user.email, user.password, user.recoverable, user.unset := email, password, recoverable, unset;
      row.invId, row.maker := invId, maker;
    }
  }

  // ---------------------------------------------------------------- the gateway

  /** The customer's payment with the gateway picked, or the check after a payment made elsewhere, asked for
      in the chat or on the site. */
  datatype Visit = PayWith(gateway: int) | CheckInChat | CheckOnSite

  /** The cached context as far as the panel needs it. */
  datatype Till = Till(creds: Creds, invid: string, pid: int, knownSid: Option<int>, offered: seq<int>)

  predicate HasInvoice(till: Till) {
    till.creds.email != "" && till.creds.password != "" && till.invid != ""
  }

  /** gatewayIdAllowed. */
  predicate IsAllowed(till: Till, gateway: int) {
    gateway > 0 && (till.offered == [] || gateway in till.offered)
  }

  function TillConfig(till: Till, rounds: int): PollConfig {
    PollConfig(till.creds, till.invid, till.pid,
               if till.knownSid.Some? && till.knownSid.value > 0 then till.knownSid else None, true, rounds, false,
               Some(Fallback(false, false)))
  }

  /** The customer has to go on elsewhere. */
  predicate GoesOffsite(pay: PayBody) {
    (pay.data.DataText? && pay.data.text != "" && IsWebAddress(pay.data.text)) || PayLooksAsync(pay)
  }

  function FoundBy(poll: PollResult): Option<Picked> {
    if poll.Delivered? then Some(poll.picked) else None
  }

  /** The call before the wait, when there is one, and whether the wait follows. */
  predicate Knocks(before: seq<Event>, till: Till, visit: Visit, goesOn: bool) {
    match visit
    case PayWith(gateway) =>
      if !IsAllowed(till, gateway) || !HasInvoice(till) || till.pid <= 0 then before == [] && !goesOn
      else
        && |before| == 1 && IsPayOf(before[0], Bill(till.creds, till.invid, gateway))
        && (goesOn <==> before[0].pay.Got? && !GoesOffsite(before[0].pay.body))
    case CheckInChat =>
      if !HasInvoice(till) then before == [] && !goesOn
      else
        && |before| == 1 && before[0].Viewed? && before[0].creds == till.creds && before[0].invid == till.invid
        && (goesOn <==> till.pid > 0 && !ShowsPending(before[0]))
    case CheckOnSite => before == [] && (goesOn <==> HasInvoice(till) && till.pid > 0)
  }

  /** 18 rounds after a payment, 72 after a check. */
  ghost predicate VisitRun(d: seq<Event>, till: Till, visit: Visit, found: Option<Picked>) {
    exists n, goesOn ::
      && 0 <= n <= |d| && Knocks(d[..n], till, visit, goesOn)
      && if goesOn then
           exists poll ::
             WaitRun(TillConfig(till, if visit.PayWith? then 18 else 72), d[n..], poll) && found == FoundBy(poll)
         else n == |d| && found.None?
  }

  lemma VisitFrom(before: seq<Event>, w: seq<Event>, till: Till, visit: Visit, poll: PollResult)
    requires Knocks(before, till, visit, true)
    requires WaitRun(TillConfig(till, if visit.PayWith? then 18 else 72), w, poll)
    ensures VisitRun(before + w, till, visit, FoundBy(poll))
  {
    hide Knocks, WaitRun, TillConfig, FoundBy;
    assert (before + w)[..|before|] == before && (before + w)[|before|..] == w;
  }

  lemma VisitEnds(before: seq<Event>, till: Till, visit: Visit)
    requires Knocks(before, till, visit, false)
    ensures VisitRun(before, till, visit, None)
  {
    hide Knocks, WaitRun;
    assert before[..|before|] == before;
  }

  /** The four entry points up to the link: payInvoiceWithGatewayForWeb, or pollXmplusWebAfterOffsitePayment
      with the look that comes before it in the chat. */
  method PayAtGateway(api: Api, till: Till, visit: Visit) returns (found: Option<Picked>, ghost d: seq<Event>)
    requires api.IsFaithful()
    modifies api
    ensures api.IsFaithful() && api.log == old(api.log) + d
    ensures VisitRun(d, till, visit, found)
    ensures found.Some? ==> !PhpEmpty(found.value.link) && SawPaid(d, till.creds, till.invid)
  {
    hide PollRun, Flatten, Follows, SawPaid, GoesOffsite, EqualsIgnoringCase, PhpEmpty, VisitRun;
    found, d := None, [];
    var goesOn := HasInvoice(till) && till.pid > 0;
    ghost var before: seq<Event> := [];
    if visit.PayWith? {
      goesOn := goesOn && IsAllowed(till, visit.gateway);
      if goesOn {
        var reply := api.InvoicePay(till.creds, till.invid, visit.gateway);
        before := [PayTried(till.creds, till.invid, visit.gateway, reply)];
        goesOn := reply.Got? && !GoesOffsite(reply.body);
      }
    } else if visit.CheckInChat? && HasInvoice(till) {
      var view := api.InvoiceView(till.creds, till.invid);
      before := [Viewed(till.creds, till.invid, view)];
      if view.Got? && view.body.invoice.Some? && view.body.invoice.value.status.Some?
         && EqualsIgnoringCase(view.body.invoice.value.status.value, "pending") {
        goesOn := false;
      }
    }
    d := before;
    if !goesOn {
      VisitEnds(before, till, visit);
      return;
    }
    var cfg := TillConfig(till, if visit.PayWith? then 18 else 72);
    var poll;
    ghost var rounds;
    poll, rounds := PollForSublink(api, cfg);
    ghost var w := Flatten(cfg, rounds);
    PollShowsPaid(cfg, rounds, poll);
    DeliveryIsPaidAndLinked(cfg, rounds, poll);
    SeenLater(before, w, till.creds, till.invid);
    assert WaitRun(cfg, w, poll);
    VisitFrom(before, w, till, visit, poll);
    d := before + w;
    if poll.Delivered? {
      found := Some(poll.picked);
    }
  }
}

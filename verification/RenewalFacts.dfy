/** When a renewal hands out a link that nobody has paid for. */
module RenewalFacts {
  import opened Text
  import opened Panel
  import opened RowSelection
  import opened Polling
  import opened PollingFacts
  import opened InvoicePay
  import opened Tally
  import opened Credentials
  import opened Invoicing
  import opened Payment
  import opened ServiceRules
  import opened Enforcement
  import opened Renewal

  /** service/renew was accepted, and its reply has no invoice id at the top level. */
  predicate GivesNoInvoice(e: Event) {
    e.RenewTried? && e.renewed.Got? && ApiOk(e.renewed.body) && RenewalIdOf(e.renewed.body) == ""
  }

  predicate RenewedWithoutInvoice(d: seq<Event>) {
    exists k :: 0 <= k < |d| && GivesNoInvoice(d[k])
  }

  predicate AsksNoRenewal(d: seq<Event>) {
    forall k :: 0 <= k < |d| ==> !d[k].RenewTried?
  }

  /** No payment is tried and no row marked Paid. */
  predicate PaysNothing(d: seq<Event>) {
    forall k :: 0 <= k < |d| ==> !d[k].PayTried? && !d[k].MarkedPaid?
  }

  // ---------------------------------------------------------------- the stages

  lemma InTurn(a: seq<Event>, b: seq<Event>)
    ensures AsksNoRenewal(a + b) <==> AsksNoRenewal(a) && AsksNoRenewal(b)
    ensures PaysNothing(a + b) <==> PaysNothing(a) && PaysNothing(b)
    ensures RenewedWithoutInvoice(a + b) <==> RenewedWithoutInvoice(a) || RenewedWithoutInvoice(b)
  {
    hide GivesNoInvoice;
    var d := a + b;
    assert forall k :: 0 <= k < |a| ==> d[k] == a[k];
    assert forall k :: 0 <= k < |b| ==> d[|a| + k] == b[k];
    assert forall k :: |a| <= k < |d| ==> d[k] == b[k - |a|];
  }

  lemma NothingAsked(d: seq<Event>)
    ensures AsksNoRenewal(d) ==> !RenewedWithoutInvoice(d)
  {
  }

  lemma PrepareStage(d: seq<Event>, stored: Stored, original: Original, r: Option<Creds>)
    requires PrepareRun(d, stored, original, r)
    ensures AsksNoRenewal(d) && PaysNothing(d)
  {
    hide MayRenew, Trim;
  }

  lemma InvoiceStageOf(d: seq<Event>, creds: Creds, sid: int, stored: string, sync: bool, mark: bool,
                       r: Option<string>)
    requires RenewalInvoiceRun(d, creds, sid, stored, sync, mark, r)
    ensures RenewedWithoutInvoice(d) <==> r == Some("")
    ensures r == Some("") ==> PaysNothing(d)
  {
    hide CheckRun, RenewRun, KeptInvoice, RenewedWithoutInvoice, AsksNoRenewal, PaysNothing;
    var n :| && 0 <= n <= |d| && CheckRun(d[..n], creds, sid, stored)
             && var kept := KeptInvoice(d[..n], stored);
                if kept != "" then d[n..] == Linking(sync, kept, sid) && r == Some(kept)
                else RenewRun(d[n..], creds, sid, sync, mark, r);
    assert d[..n] + d[n..] == d;
    InTurn(d[..n], d[n..]);
    CheckAsks(d[..n], creds, sid, stored);
    NothingAsked(d[..n]);
    if KeptInvoice(d[..n], stored) != "" {
      LinkingAsks(sync, KeptInvoice(d[..n], stored), sid);
      NothingAsked(d[n..]);
    } else {
      RenewAsks(d[n..], creds, sid, sync, mark, r);
    }
  }

  lemma CheckAsks(d: seq<Event>, creds: Creds, sid: int, stored: string)
    requires CheckRun(d, creds, sid, stored)
    ensures AsksNoRenewal(d) && PaysNothing(d)
  {
    hide Disowns;
  }

  lemma LinkingAsks(sync: bool, invid: string, sid: int)
    ensures AsksNoRenewal(Linking(sync, invid, sid)) && PaysNothing(Linking(sync, invid, sid))
  {
  }

  lemma RenewAsks(t: seq<Event>, creds: Creds, sid: int, sync: bool, mark: bool, r: Option<string>)
    requires RenewRun(t, creds, sid, sync, mark, r)
    ensures RenewedWithoutInvoice(t) <==> r == Some("")
    ensures r == Some("") ==> PaysNothing(t)
  {
    hide ApiOk, RenewalIdOf;
    assert forall k :: 1 <= k < |t| ==> t[k] == t[1..][k - 1];
    if r == Some("") {
      assert GivesNoInvoice(t[0]);
    }
  }

  lemma LinkStage(d: seq<Event>, creds: Creds, sid: int, pid: int, r: Outcome)
    requires ReadLinkRun(d, creds, sid, pid, r)
    ensures AsksNoRenewal(d) && PaysNothing(d) && (r.Delivered? ==> r.invid == "")
  {
    hide LinkOfService, StrictLink;
  }

  lemma WaitAsks(cfg: PollConfig, d: seq<Event>, poll: PollResult)
    requires WaitRun(cfg, d, poll)
    ensures AsksNoRenewal(d)
    ensures poll.Delivered? ==> SawPaid(d, cfg.creds, cfg.invid)
  {
    hide PollRun, Flatten, SawPaid;
    var rounds :| PollRun(cfg, rounds, poll) && d == Flatten(cfg, rounds);
    PollOnlyLooks(cfg, rounds);
    PollShowsPaid(cfg, rounds, poll);
  }

  lemma SettleAsks(bill: Bill, shop: bool, d: seq<Event>, pay: Option<PayBody>)
    requires SettleRenewalRun(bill, shop, d, pay)
    ensures AsksNoRenewal(d)
  {
    hide StrictRun, ShowsPaid, Accepted, BodyOf;
    if !ShowsPaid(d[0]) && shop {
      var strict :| StrictRun(bill, d[1..], strict) && pay == Accepted(strict);
      StrictStaysOnBill(bill, d[1..], strict);
      assert forall k :: 1 <= k < |d| ==> d[k] == d[1..][k - 1];
    }
  }

  lemma ClosingAsks(env: Env, bill: Bill, sid: int, shop: bool, changed: bool, d: seq<Event>, tail: seq<Event>,
                    poll: PollResult, r: Outcome)
    requires AfterWait(env, bill, sid, shop, changed, d, tail, poll, r)
    ensures AsksNoRenewal(d)
    ensures r.Delivered? ==> poll.Delivered? && r.invid == bill.invid && r.creds == bill.creds
    ensures r.Delivered? && shop ==> EndsIn(d, tail) && Passes(tail, r.creds, sid, changed)
  {
    hide Passes, ShowsApplied, ShowsPaid, PaidRowIn;
    if poll.Delivered? && shop {
      var s := d[..|d| - |tail|];
      assert d == s + tail;
      InTurn(s, tail);
      assert forall k :: 1 <= k < |s| ==> s[k] == s[1..][k - 1];
    }
  }

  lemma PaidStageOf(env: Env, bill: Bill, sid: int, pid: int, shop: bool, changed: bool, d: seq<Event>,
                    tail: seq<Event>, r: Outcome)
    requires PaidRenewalRun(env, bill, sid, pid, shop, changed, d, tail, r)
    ensures AsksNoRenewal(d)
    ensures r.Delivered? ==> r.invid == bill.invid && SawPaid(d, r.creds, r.invid)
    ensures r.Delivered? && shop ==> EndsIn(d, tail) && Passes(tail, r.creds, sid, changed)
  {
    hide SettleRenewalRun, WaitRun, WaitConfig, AfterWait, AsksNoRenewal, EndsIn, Passes, SawPaid;
    if n, pay :| 0 <= n <= |d| && SettleRenewalRun(bill, shop, d[..n], Some(pay))
                 && RenewalWaits(env, bill, sid, pid, pay, shop, changed, d[n..], tail, r) {
      var e := d[n..];
      var k, poll :| 0 <= k <= |e|
                     && WaitRun(WaitConfig(bill.creds, bill.invid, pid, Some(sid), true, pay, shop), e[..k], poll)
                     && AfterWait(env, bill, sid, shop, changed, e[k..], tail, poll, r);
      assert d == d[..n] + e && e == e[..k] + e[k..];
      SettleAsks(bill, shop, d[..n], Some(pay));
      ConfigIs(bill.creds, bill.invid, pid, Some(sid), true, pay, shop);
      WaitAsks(WaitConfig(bill.creds, bill.invid, pid, Some(sid), true, pay, shop), e[..k], poll);
      ClosingAsks(env, bill, sid, shop, changed, e[k..], tail, poll, r);
      InTurn(e[..k], e[k..]);
      InTurn(d[..n], e);
      SeenEarlier(e[..k], e[k..], bill.creds, bill.invid);
      SeenLater(d[..n], e, bill.creds, bill.invid);
      if r.Delivered? && shop {
        EndsInLater(e[..k], e[k..], tail);
        EndsInLater(d[..n], e, tail);
      }
    } else {
      SettleAsks(bill, shop, d, None);
    }
  }

  lemma ConfigIs(creds: Creds, invid: string, pid: int, knownSid: Option<int>, autoPay: bool, pay: PayBody, shop: bool)
    ensures var cfg := WaitConfig(creds, invid, pid, knownSid, autoPay, pay, shop);
            cfg.creds == creds && cfg.invid == invid
  {
  }

  lemma UnaidedStage(env: Env, creds: Creds, invid: string, sid: int, pid: int, d: seq<Event>, r: Outcome)
    requires WithoutAutoPayRun(env, creds, invid, sid, pid, d, r)
    ensures AsksNoRenewal(d)
    ensures r.Delivered? ==> r.invid == invid && SawPaid(d, r.creds, r.invid)
  {
    hide WaitRun, WaitConfig, SawPaid;
    if !env.gatewayPicker {
      var cfg := WaitConfig(creds, invid, pid, Some(sid), false, NO_PAY, false);
      var poll :| WaitRun(cfg, d, poll) && r == RenewalOutcome(poll, sid, creds, invid);
      ConfigIs(creds, invid, pid, Some(sid), false, NO_PAY, false);
      WaitAsks(cfg, d, poll);
    }
  }

  /** From the invoice on: paid and, for the shop, enforced, unless there is no invoice. */
  lemma EndStage(env: Env, creds: Creds, sid: int, pid: int, shop: bool, changed: bool, invoice: Option<string>,
                 d: seq<Event>, tail: seq<Event>, r: Outcome)
    requires AfterInvoice(env, creds, sid, pid, shop, changed, invoice, d, tail, r)
    ensures AsksNoRenewal(d)
    ensures r.Delivered? ==> invoice == Some(r.invid)
    ensures r.Delivered? && r.invid == "" ==> tail == [] && PaysNothing(d)
    ensures r.Delivered? && r.invid != "" ==>
              SawPaid(d, r.creds, r.invid) && (shop ==> EndsIn(d, tail) && Passes(tail, r.creds, sid, changed))
  {
    hide PaidRenewalRun, WithoutAutoPayRun, ReadLinkRun, SawPaid, EndsIn, Passes, PaysNothing;
    hide RenewedWithoutInvoice, AsksNoRenewal;
    if invoice.None? || (shop && invoice.value != "" && env.autoGateway.None?) {
      AsksOfNothing();
    } else if invoice.value == "" {
      LinkStage(d, creds, sid, pid, r);
    } else if env.autoGateway.Some? {
      PaidStageOf(env, Bill(creds, invoice.value, env.autoGateway.value), sid, pid, shop, changed, d, tail, r);
    } else {
      UnaidedStage(env, creds, invoice.value, sid, pid, d, r);
    }
  }

  lemma AsksOfNothing()
    ensures AsksNoRenewal([])
  {
  }

  // ---------------------------------------------------------------- the whole run

  /** What a delivered renewal is worth. */
  ghost predicate PaidUnless(without: bool, shop: bool, changed: bool, sid: int, d: seq<Event>, tail: seq<Event>,
                             r: Outcome)
    requires r.Delivered?
  {
    && (r.invid == "" <==> without)
    && (r.invid == "" ==> tail == [] && PaysNothing(d))
    && (r.invid != "" ==>
          SawPaid(d, r.creds, r.invid) && (shop ==> EndsIn(d, tail) && Passes(tail, r.creds, sid, changed)))
  }

  lemma AfterPrepareIsPaid(env: Env, creds: Creds, sid: int, invId: string, left: string, pid: int, shop: bool,
                           changed: bool, d: seq<Event>, tail: seq<Event>, r: Outcome)
    requires AfterPrepare(env, creds, sid, invId, left, pid, shop, changed, d, tail, r) && r.Delivered?
    ensures PaidUnless(RenewedWithoutInvoice(d), shop, changed, sid, d, tail, r)
  {
    hide RenewalInvoiceRun, AfterInvoice, RenewedWithoutInvoice, PaysNothing, SawPaid, EndsIn, Passes, Trim;
    var n, invoice :|
      && 0 <= n <= |d|
      && RenewalInvoiceRun(d[..n], creds, sid, invId, env.invoiceDbSync, MarksRenewal(env, shop), invoice)
      && AfterInvoice(env, creds, sid, pid, shop, changed, invoice, d[n..], tail, r);
    InvoiceStageOf(d[..n], creds, sid, invId, env.invoiceDbSync, MarksRenewal(env, shop), invoice);
    EndStage(env, creds, sid, pid, shop, changed, invoice, d[n..], tail, r);
    NothingAsked(d[n..]);
    assert d[..n] + d[n..] == d;
    InTurn(d[..n], d[n..]);
    SeenLater(d[..n], d[n..], r.creds, r.invid);
    if EndsIn(d[n..], tail) {
      EndsInLater(d[..n], d[n..], tail);
    }
  }

  /** A renewal delivers a link without an invoice if and only if service/renew was accepted without an id at
      the top level. Nothing is then paid, no row is marked and the enforcement does not run. Every other
      delivered renewal has seen its invoice Paid, and where the shop holds the money it has passed the
      enforcement. */
  lemma UnpaidExactlyWhen(env: Env, stored: Stored, original: Original, invId: string, left: string, pid: int,
                          shop: bool, changed: bool, d: seq<Event>, tail: seq<Event>, r: Outcome)
    ensures RenewalRun(env, stored, original, invId, left, pid, shop, changed, d, tail, r) && r.Delivered? ==>
              original.sid.Some? && PaidUnless(RenewedWithoutInvoice(d), shop, changed, original.sid.value, d, tail, r)
  {
    hide PrepareRun, AfterPrepare, RenewedWithoutInvoice, PaysNothing, SawPaid, EndsIn, Passes;
    if RenewalRun(env, stored, original, invId, left, pid, shop, changed, d, tail, r) && r.Delivered? {
      var n, creds :|
        && 0 <= n <= |d| && PrepareRun(d[..n], stored, original, Some(creds)) && original.sid.Some?
        && AfterPrepare(env, creds, original.sid.value, invId, left, pid, shop, changed, d[n..], tail, r);
      var sid := original.sid.value;
      PrepareStage(d[..n], stored, original, Some(creds));
      NothingAsked(d[..n]);
      AfterPrepareIsPaid(env, creds, sid, invId, left, pid, shop, changed, d[n..], tail, r);
      assert d[..n] + d[n..] == d;
      InTurn(d[..n], d[n..]);
      SeenLater(d[..n], d[n..], r.creds, r.invid);
      if EndsIn(d[n..], tail) {
        EndsInLater(d[..n], d[n..], tail);
      }
    }
  }

  // ---------------------------------------------------------------- one such panel

  const RENEWED := ApiBody(Envelope(Some(100), "success", ""), NoId, NoId)

  /** The service is expired and still has its link; service/renew is accepted and names no invoice. */
  function Forgetful(): Script {
    Script(
      _ => Threw(NO_PANEL), _ => Threw(NO_PANEL), _ => Threw(NO_PANEL), _ => Got(EXPIRED_SERVICE), _ => Threw(NO_PANEL),
      _ => Threw(NO_PANEL), _ => Threw(NO_PANEL), _ => Threw(NO_PANEL), _ => Got(RENEWED), _ => Threw(NO_PANEL),
      _ => Threw(NO_PANEL), _ => Threw(NO_PANEL))
  }

  lemma ForgetfulReplies()
    ensures MayRenew(EXPIRED_SERVICE) && LinkOfService(EXPIRED_SERVICE) == Some("present link")
    ensures ApiOk(RENEWED) && RenewalIdOf(RENEWED) == ""
  {
    assert Trim("expired") == "expired";
    LowerCaseStays("expired");
    LowerCaseStays("success");
    assert EXPIRED_WORDS[0] == "expired";
    ContainsAt("expired", "expired", 0);
  }

  lemma ForgetfulAnswers(at: nat, e: Event)
    requires IsAnswer(Forgetful(), at, e)
    ensures e.ServiceRead? ==> e.service == Got(EXPIRED_SERVICE)
    ensures e.RenewTried? ==> e.renewed == Got(RENEWED)
  {
  }

  lemma PreparedByForgetful(d: seq<Event>, stored: Stored, original: Original, r: Option<Creds>)
    requires PrepareRun(d, stored, original, r) && Follows(Forgetful(), 0, d)
    requires IsComplete(stored) && Trim(stored.email) != "" && original.sid.Some? && original.sid.value > 0
    ensures |d| == 1 && r == Some(Creds(stored.email, stored.password))
  {
    hide MayRenew, Trim, Forgetful, IsAnswer, Follows, LinkOfService, ApiOk, RenewalIdOf;
    ForgetfulReplies();
    FirstFollows(Forgetful(), 0, d);
    ForgetfulAnswers(0, d[0]);
  }

  lemma RenewedByForgetful(t: seq<Event>, from: nat, creds: Creds, sid: int, sync: bool, mark: bool, r: Option<string>)
    requires RenewRun(t, creds, sid, sync, mark, r) && Follows(Forgetful(), from, t)
    ensures r == Some("")
  {
    hide ApiOk, RenewalIdOf, Linking, Forgetful, IsAnswer, Follows, MayRenew, LinkOfService;
    ForgetfulReplies();
    FirstFollows(Forgetful(), from, t);
    ForgetfulAnswers(from, t[0]);
  }

  lemma InvoicedByForgetful(d: seq<Event>, from: nat, creds: Creds, sid: int, sync: bool, mark: bool, r: Option<string>)
    requires RenewalInvoiceRun(d, creds, sid, "", sync, mark, r) && Follows(Forgetful(), from, d)
    ensures r == Some("")
  {
    hide RenewRun, Linking, Forgetful, Follows, AnyDisowns;
    var n :| 0 <= n <= |d| && CheckRun(d[..n], creds, sid, "") && RenewRun(d[n..], creds, sid, sync, mark, r);
    assert d[n..] == d;
    RenewedByForgetful(d, from, creds, sid, sync, mark, r);
  }

  lemma ReadByForgetful(d: seq<Event>, from: nat, creds: Creds, sid: int, pid: int, r: Outcome)
    requires ReadLinkRun(d, creds, sid, pid, r) && Follows(Forgetful(), from, d)
    ensures r == Outcome.Delivered("present link", Some(sid), creds, "")
  {
    hide Forgetful, IsAnswer, Follows, LinkOfService, StrictLink, MayRenew, ApiOk, RenewalIdOf;
    ForgetfulReplies();
    FirstFollows(Forgetful(), from, d);
    ForgetfulAnswers(from, d[0]);
  }

  lemma DeliveredByForgetful(d: seq<Event>, from: nat, env: Env, creds: Creds, sid: int, left: string, pid: int,
                             shop: bool, changed: bool, tail: seq<Event>, r: Outcome)
    requires AfterPrepare(env, creds, sid, "", left, pid, shop, changed, d, tail, r) && Follows(Forgetful(), from, d)
    ensures r == Outcome.Delivered("present link", Some(sid), creds, "")
  {
    hide RenewalInvoiceRun, Follows, MarksRenewal, Forgetful, ReadLinkRun, PaidRenewalRun, WithoutAutoPayRun;
    var n, invoice :|
      && 0 <= n <= |d| && RenewalInvoiceRun(d[..n], creds, sid, "", env.invoiceDbSync, MarksRenewal(env, shop), invoice)
      && AfterInvoice(env, creds, sid, pid, shop, changed, invoice, d[n..], tail, r);
    FollowsPart(Forgetful(), from, d, n);
    InvoicedByForgetful(d[..n], from, creds, sid, env.invoiceDbSync, MarksRenewal(env, shop), invoice);
    assert AfterInvoice(env, creds, sid, pid, shop, changed, Some(""), d[n..], tail, r);
    ReadByForgetful(d[n..], from + n, creds, sid, pid, r);
  }

  /** The shop holds the money for a renewal of a service the panel lets expire; the customer gets the link
      the service has already, and nothing has been paid to the panel. */
  method RenewedForNothing(env: Env, pid: int, planDays: int, sid: int) returns (r: Outcome, log: seq<Event>)
    requires sid > 0
    ensures r == Outcome.Delivered("present link", Some(sid), Creds("tg1@shop", "secret"), "") && PaysNothing(log)
  {
    hide RenewalRun, PaysNothing, RenewedWithoutInvoice, Follows, SawPaid, Passes, EndsIn, PrepareRun, AfterPrepare;
    var api := new Api(Forgetful());
    var table := new ServiceTable(_ => false, _ => 0, map[]);
    var user := new User("1", "tg1@shop", "secret", "", false);
    var order := new ShopOrder("", "", Creds("", ""));
    var original := Original("tg1@shop", Some(sid));
    ghost var stored := StoredOf(user);
    assert Trim("secret") == "secret" && Trim("tg1@shop") != "";
    ghost var d, tail, prepared;
    r, d, tail, prepared := DoRenewal(api, table, env, user, order, Some(original), pid, planDays, true);
    log := api.log;
    assert log == d;
    ghost var left := Trim(order.invId);
    WholeRun(d, env, stored, original, left, pid, table.rows != prepared, tail, r);
    UnpaidExactlyWhen(env, stored, original, "", left, pid, true, table.rows != prepared, d, tail, r);
  }

  lemma WholeRun(d: seq<Event>, env: Env, stored: Stored, original: Original, left: string, pid: int, changed: bool,
                 tail: seq<Event>, r: Outcome)
    requires RenewalRun(env, stored, original, "", left, pid, true, changed, d, tail, r) && Follows(Forgetful(), 0, d)
    requires IsComplete(stored) && Trim(stored.email) != "" && original.sid.Some? && original.sid.value > 0
    ensures r == Outcome.Delivered("present link", original.sid, Creds(stored.email, stored.password), "")
  {
    hide PrepareRun, AfterPrepare, Follows, Trim;
    if PrepareRun(d, stored, original, None) {
      PreparedByForgetful(d, stored, original, None);
      assert false;
    }
    var n, creds :|
      && 0 <= n <= |d| && PrepareRun(d[..n], stored, original, Some(creds)) && original.sid.Some?
      && AfterPrepare(env, creds, original.sid.value, "", left, pid, true, changed, d[n..], tail, r);
    FollowsPart(Forgetful(), 0, d, n);
    PreparedByForgetful(d[..n], stored, original, Some(creds));
    DeliveredByForgetful(d[n..], n, env, creds, original.sid.value, left, pid, true, changed, tail, r);
  }
}

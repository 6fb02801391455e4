/** When the shop pays, how long it waits for a link, and what a visit to the gateway may do. */
module PaymentFacts {
  import opened Text
  import opened Words
  import opened Panel
  import opened ReplyFacts
  import opened RowSelection
  import opened Polling
  import opened PollingFacts
  import opened InvoicePay
  import opened Payment
  import opened Credentials
  import opened NewPurchase
  import opened Enforcement
  import opened Renewal
  import opened Handlers

  // ---------------------------------------------------------------- whether to pay

  /** A look that found the invoice paid and linked to a service. */
  predicate FoundSettled(e: Event) {
    && e.Viewed? && e.view.Got? && e.view.body.invoice.Some?
    && var row := e.view.body.invoice.value;
       && row.status.Some? && Reads(row.status.value, "paid")
       && (CellPoints(row.serviceid) || CellPoints(row.service_id) || CellPoints(row.sid))
  }

  lemma SettledExactlyWhen(e: Event)
    ensures NeedsNoPay(e) <==> FoundSettled(e)
  {
    hide ViewIsPaid, ViewHasServiceId, Reads, CellPoints;
    if e.Viewed? && e.view.Got? {
      PaidExactlyWhen(e.view.body);
      LinkedExactlyWhen(e.view.body);
    }
  }

  lemma StrictRunActs(bill: Bill, d: seq<Event>, r: Option<PayBody>)
    requires StrictRun(bill, d, r)
    ensures d != []
  {
    hide RetryRun;
  }

  /** With the reseller's gateway the shop pays unless the look before it found the invoice paid and linked to a
      service, be it with money it holds or not. */
  lemma PaysExactlyWhen(bill: Bill, d: seq<Event>, r: Option<PayBody>, pay: PayBody)
    ensures SettleRun(bill, d, r) ==> d != [] && (|d| == 1 <==> FoundSettled(d[0]))
    ensures AutoPayRun(bill, d, pay) ==> d != [] && (|d| == 1 <==> FoundSettled(d[0]))
  {
    hide StrictRun, NeedsNoPay, FoundSettled;
    if SettleRun(bill, d, r) {
      SettledExactlyWhen(d[0]);
      if !NeedsNoPay(d[0]) {
        var paid :| StrictRun(bill, d[1..], paid) && r == Accepted(paid);
        StrictRunActs(bill, d[1..], paid);
      }
    }
    if AutoPayRun(bill, d, pay) {
      SettledExactlyWhen(d[0]);
    }
  }

  // ---------------------------------------------------------------- the wait after a payment

  predicate IsCard2Card(pay: PayBody) {
    pay.gateway.Some? && Mentions(pay.gateway.value, "card2card")
  }

  predicate IsPrepaid(pay: PayBody) {
    pay.gateway.Some? && Mentions(pay.gateway.value, "shopprepaid")
  }

  lemma PrepaidExactlyWhen(pay: PayBody)
    ensures PayIsShopPrepaid(pay) <==> IsPrepaid(pay)
  {
    hide Contains, Mentions, Trim;
    var gateway := OrEmpty(pay.gateway);
    LowerMentions(Trim(gateway), "shopprepaid");
    TrimMentions(gateway, "shopprepaid");
    NothingMentions("shopprepaid");
  }

  /** The wait gives up on time only after 72 rounds where the customer was sent elsewhere to pay and after 18
      where not, and an invoice that was seen paid without a service is never given fewer than 45; without that,
      these are the most it takes. */
  lemma WaitLastsExactly(creds: Creds, invid: string, pid: int, knownSid: Option<int>, autoPay: bool, pay: PayBody,
                         shop: bool, rounds: seq<Round>, r: PollResult)
    requires PollRun(WaitConfig(creds, invid, pid, knownSid, autoPay, pay, shop), rounds, r)
    ensures var n := if SendsElsewhere(pay) then 72 else 18;
            var empty := exists k :: 0 <= k < |rounds| && PaidAndEmpty(rounds[k]);
            && |rounds| <= (if empty && n < 45 then 45 else n)
            && (r.Failed? && r.why.TimedOut? ==> |rounds| >= if empty && n < 45 then 45 else n)
  {
    hide PollRun, PaidAndEmpty;
    var cfg := WaitConfig(creds, invid, pid, knownSid, autoPay, pay, shop);
    PollIsBounded(cfg, rounds, r);
    FailsForAReason(cfg, rounds, r);
  }

  /** A paid invoice without a service is waited out for 12 rounds; for money the shop holds, only 4 where the
      gateway was Card2Card and 6 where the payment was confirmed by the invoice alone. */
  lemma EmptyWaitLastsExactly(creds: Creds, invid: string, pid: int, knownSid: Option<int>, autoPay: bool,
                              pay: PayBody, shop: bool, rounds: seq<Round>, r: PollResult)
    requires PollRun(WaitConfig(creds, invid, pid, knownSid, autoPay, pay, shop), rounds, r)
    ensures var n := if shop && IsCard2Card(pay) then 4 else if shop && IsPrepaid(pay) then 6 else 12;
            && ((forall k :: 0 <= k < |rounds| ==> PaidAndEmpty(rounds[k])) ==> |rounds| <= n)
            && (r == Failed(PaidWithoutService) ==> |rounds| >= n)
  {
    hide PollRun, PaidAndEmpty, Mentions, PayIsCard2Card, PayIsShopPrepaid;
    var cfg := WaitConfig(creds, invid, pid, knownSid, autoPay, pay, shop);
    Card2CardExactlyWhen(pay);
    PrepaidExactlyWhen(pay);
    EarlyNoticeOnTime(cfg, rounds, r);
  }

  /** A purchase hands out what the wait has picked, link and service alike. */
  lemma PurchaseHandsOutThePick(bill: Bill, pid: int, pay: PayBody, shop: bool, d: seq<Event>, r: Outcome)
    requires WaitsTo(bill, pid, pay, shop, d, r)
    ensures r.Delivered? <==>
              exists sid, link ::
                && WaitRun(WaitConfig(bill.creds, bill.invid, pid, None, true, pay, shop), d,
                           PollResult.Delivered(Picked(link, sid)))
                && r == Outcome.Delivered(link, sid, bill.creds, bill.invid)
  {
    hide WaitRun, WaitConfig;
    var cfg := WaitConfig(bill.creds, bill.invid, pid, None, true, pay, shop);
    var poll :| WaitRun(cfg, d, poll) && r == OutcomeOf(poll, bill.creds, bill.invid);
    if poll.Delivered? {
      assert WaitRun(cfg, d, PollResult.Delivered(Picked(poll.picked.link, poll.picked.sid)));
    }
  }

  /** A renewal that waited hands out the link that was picked, and the service picked with it, or the renewed one
      where none was. */
  lemma RenewalHandsOutThePick(env: Env, bill: Bill, sid: int, pid: int, pay: PayBody, shop: bool, changed: bool,
                               d: seq<Event>, tail: seq<Event>, r: Outcome)
    requires RenewalWaits(env, bill, sid, pid, pay, shop, changed, d, tail, r) && r.Delivered?
    ensures exists n, picked ::
              && 0 <= n <= |d|
              && WaitRun(WaitConfig(bill.creds, bill.invid, pid, Some(sid), true, pay, shop), d[..n],
                         PollResult.Delivered(picked))
              && r.link == picked.link && r.sid == (if picked.sid.Some? then picked.sid else Some(sid))
              && r.creds == bill.creds && r.invid == bill.invid
  {
    hide WaitRun, WaitConfig, EnforceRun, SyncRun, Passes, EndsIn;
    var cfg := WaitConfig(bill.creds, bill.invid, pid, Some(sid), true, pay, shop);
    var n, poll :|
      && 0 <= n <= |d| && WaitRun(cfg, d[..n], poll)
      && AfterWait(env, bill, sid, shop, changed, d[n..], tail, poll, r);
    assert WaitRun(cfg, d[..n], PollResult.Delivered(poll.picked));
  }

  /** At the gateway the wait is the same, whatever that gateway was: 18 rounds after a payment and 72 after a
      check, or 45 where the invoice was seen paid without a service, of which 12 in a row are enough. */
  lemma VisitLastsExactly(till: Till, n: int, rounds: seq<Round>, r: PollResult)
    requires n in {18, 72} && PollRun(TillConfig(till, n), rounds, r)
    ensures var empty := exists k :: 0 <= k < |rounds| && PaidAndEmpty(rounds[k]);
            && |rounds| <= (if empty && n < 45 then 45 else n)
            && (r.Failed? && r.why.TimedOut? ==> |rounds| >= if empty && n < 45 then 45 else n)
    ensures (forall k :: 0 <= k < |rounds| ==> PaidAndEmpty(rounds[k])) ==> |rounds| <= 12
    ensures r == Failed(PaidWithoutService) ==> |rounds| >= 12
  {
    hide PollRun, PaidAndEmpty;
    var cfg := TillConfig(till, n);
    PollIsBounded(cfg, rounds, r);
    FailsForAReason(cfg, rounds, r);
    EarlyNoticeOnTime(cfg, rounds, r);
  }

  // ---------------------------------------------------------------- visits

  lemma {:induction false} FlatIsEmpty(cfg: PollConfig, rounds: seq<Round>)
    ensures Flatten(cfg, rounds) == [] ==> rounds == []
  {
    hide PaidStage, KnownStage, AccountStage, PendingVerdict;
    if rounds != [] {
      var last := Play(cfg, |rounds| - 1, rounds[|rounds| - 1]);
      assert last.events[0].Viewed?;
    }
  }

  lemma WaitLooks(cfg: PollConfig, d: seq<Event>, r: PollResult)
    requires WaitRun(cfg, d, r) && cfg.maxAttempts > 0
    ensures d != []
  {
    hide PollRun, Flatten;
    var rounds :| PollRun(cfg, rounds, r) && d == Flatten(cfg, rounds);
    FlatIsEmpty(cfg, rounds);
    assert rounds != [] by {
      SomeRound(cfg, rounds, r);
    }
  }

  lemma SomeRound(cfg: PollConfig, rounds: seq<Round>, r: PollResult)
    requires PollRun(cfg, rounds, r) && cfg.maxAttempts > 0
    ensures rounds != []
  {
  }

  /** Nothing is asked of the panel for a gateway that was not among those offered, or without an invoice. */
  predicate IsTurnedAway(till: Till, gateway: int) {
    || gateway <= 0 || (till.offered != [] && gateway !in till.offered)
    || till.creds.email == "" || till.creds.password == "" || till.invid == "" || till.pid <= 0
  }

  /** A customer's payment is tried exactly when the gateway was on offer and there is an invoice, once, with that
      gateway; the shop waits for the link exactly when the reply does not send the customer elsewhere. */
  lemma VisitPaysExactlyWhen(d: seq<Event>, till: Till, gateway: int, found: Option<Picked>)
    requires VisitRun(d, till, PayWith(gateway), found)
    ensures d == [] <==> IsTurnedAway(till, gateway)
    ensures d != [] ==> IsPayOf(d[0], Bill(till.creds, till.invid, gateway))
    ensures d != [] ==> (|d| > 1 <==> d[0].pay.Got? && !SendsElsewhere(d[0].pay.body))
    ensures |d| <= 1 ==> found.None?
  {
    hide WaitRun, FoundBy;
    var n, goesOn :|
      && 0 <= n <= |d| && Knocks(d[..n], till, PayWith(gateway), goesOn)
      && if goesOn then
           exists poll :: WaitRun(TillConfig(till, 18), d[n..], poll) && found == FoundBy(poll)
         else n == |d| && found.None?;
    if goesOn {
      var poll :| WaitRun(TillConfig(till, 18), d[n..], poll) && found == FoundBy(poll);
      assert TillConfig(till, 18).maxAttempts == 18;
      WaitLooks(TillConfig(till, 18), d[n..], poll);
    } else {
      assert d[..n] == d;
    }
  }
}

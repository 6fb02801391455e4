/** Paying an invoice and waiting for the link, as new purchases do it and renewals do in part. */
module Payment {
  import opened Text
  import opened Numbers
  import opened Panel
  import opened Polling
  import opened PollingFacts
  import opened InvoicePay
  import opened Tally

  const NO_PAY: PayBody := PayBody(None, None, None, NoData, None, None, false, false, false)

  lemma BillSegment(e: Event, bill: Bill)
    requires IsBillEvent(e, bill)
    ensures AllActAs([e], bill.creds) && SumOf([e]) == ZERO.(wrong := One(IsWrongReply(e)))
  {
    hide SumOf, SumOfEvent, IsBillEvent, IsWrongReply, ActsAs;
    SumOfOne(e);
    BillEventIsQuiet(e, bill);
  }

  lemma LookSegment(bill: Bill, view: Reply<ViewBody>)
    ensures var e := Viewed(bill.creds, bill.invid, view);
            AllActAs([e], bill.creds) && SumOf([e]) == ZERO
  {
    hide SumOf, IsWrongReply;
    var e := Viewed(bill.creds, bill.invid, view);
    BillSegment(e, bill);
    OnlyPaysAreWrong(e);
  }

  predicate OnlyWrong(d: seq<Event>) {
    var s := SumOf(d);
    s.registers == 0 && s.clears == 0 && s.invoices == 0 && s.ids == 0 && s.marks == 0
  }

  lemma TrySegment(d: seq<Event>, bill: Bill, pay: Reply<PayBody>)
    requires AllActAs(d, bill.creds) && SumOf(d) == ZERO
    ensures var e := d + [PayTried(bill.creds, bill.invid, bill.gateway, pay)];
            AllActAs(e, bill.creds) && OnlyWrong(e)
  {
    hide SumOf, IsWrongReply, AllActAs;
    var e := PayTried(bill.creds, bill.invid, bill.gateway, pay);
    BillSegment(e, bill);
    SumOfConcat(d, [e]);
    ActAsConcat(d, [e], bill.creds);
  }

  /** Paid, and linked to a service already. */
  predicate NeedsNoPay(e: Event) {
    e.Viewed? && e.view.Got? && ViewIsPaid(e.view.body) && ViewHasServiceId(e.view.body)
  }

  /** A reply from a gateway that would bill the customer again is refused. */
  function Accepted(pay: Option<PayBody>): Option<PayBody> {
    if pay.None? || IsWrongGateway(pay.value) then None else pay
  }

  ghost predicate SettleRun(bill: Bill, d: seq<Event>, r: Option<PayBody>) {
    && d != [] && IsViewOf(d[0], bill)
    && if NeedsNoPay(d[0]) then |d| == 1 && r == Some(NO_PAY)
       else exists pay :: StrictRun(bill, d[1..], pay) && r == Accepted(pay)
  }

  lemma SettledAtOnce(bill: Bill, view: Reply<ViewBody>)
    ensures var e := Viewed(bill.creds, bill.invid, view);
            NeedsNoPay(e) ==> SettleRun(bill, [e], Some(NO_PAY))
  {
    hide NeedsNoPay;
  }

  lemma SettledByPaying(bill: Bill, view: Reply<ViewBody>, e: seq<Event>, pay: Option<PayBody>)
    requires StrictRun(bill, e, pay)
    ensures var look := Viewed(bill.creds, bill.invid, view);
            !NeedsNoPay(look) ==> SettleRun(bill, [look] + e, Accepted(pay))
  {
    hide StrictRun, NeedsNoPay, Accepted;
    assert ([Viewed(bill.creds, bill.invid, view)] + e)[1..] == e;
  }

  /** The shop holds the money: pay with the reseller's gateway unless the invoice is Paid and linked
      to a service already. None where the source throws. */
  method SettleForShop(api: Api, bill: Bill) returns (r: Option<PayBody>, ghost d: seq<Event>)
    requires api.IsFaithful()
    modifies api
    ensures api.IsFaithful() && api.log == old(api.log) + d
    ensures SettleRun(bill, d, r)
    ensures AllActAs(d, bill.creds) && OnlyWrong(d)
    ensures r.Some? ==> SumOf(d) == ZERO && !IsWrongGateway(r.value)
  {
    hide SumOf, AllActAs, OnlyWrong, StrictRun, IsWrongGateway, ViewIsPaid, ViewHasServiceId, Follows;
    var view := api.InvoiceView(bill.creds, bill.invid);
    d := [Viewed(bill.creds, bill.invid, view)];
    LookSegment(bill, view);
    if view.Got? && ViewIsPaid(view.body) && ViewHasServiceId(view.body) {
      NoPayIsRight();
      QuietIsOnlyWrong(d);
      SettledAtOnce(bill, view);
      return Some(NO_PAY), d;
    }
    var pay;
    ghost var e;
    pay, e := RunInvoicePayStrict(api, bill);
    StrictAfter(d, bill, e, pay);
    SettledByPaying(bill, view, e, pay);
    d := d + e;
    if pay.None? || IsWrongGateway(pay.value) {
      return None, d;
    }
    r := pay;
  }

  lemma QuietIsOnlyWrong(d: seq<Event>)
    requires SumOf(d) == ZERO
    ensures OnlyWrong(d)
  {
  }

  lemma StrictAfter(d: seq<Event>, bill: Bill, e: seq<Event>, pay: Option<PayBody>)
    requires AllActAs(d, bill.creds) && SumOf(d) == ZERO && StrictRun(bill, e, pay)
    ensures AllActAs(d + e, bill.creds) && OnlyWrong(d + e)
    ensures pay.Some? && !IsWrongGateway(pay.value) ==> SumOf(d + e) == ZERO
  {
    hide SumOf, StrictRun, AllActAs, IsWrongGateway;
    StrictSegment(bill, e, pay);
    SumOfConcat(d, e);
    ActAsConcat(d, e, bill.creds);
  }

  lemma NoPayIsRight()
    ensures !IsWrongGateway(NO_PAY)
  {
    EmptyIsNotWrong(NO_PAY);
  }

  predicate AutoPayRun(bill: Bill, d: seq<Event>, pay: PayBody) {
    && d != [] && IsViewOf(d[0], bill)
    && if NeedsNoPay(d[0]) then |d| == 1 && pay == NO_PAY
       else |d| == 2 && IsPayOf(d[1], bill) && pay == BodyOf(d[1].pay)
  }

  function BodyOf(reply: Reply<PayBody>): PayBody {
    if reply.Got? then reply.body else NO_PAY
  }

  lemma AutoPaid(bill: Bill, view: Reply<ViewBody>, reply: Reply<PayBody>)
    ensures var look := Viewed(bill.creds, bill.invid, view);
            && (NeedsNoPay(look) ==> AutoPayRun(bill, [look], NO_PAY))
            && (!NeedsNoPay(look) ==>
                  AutoPayRun(bill, [look] + [PayTried(bill.creds, bill.invid, bill.gateway, reply)], BodyOf(reply)))
  {
    hide NeedsNoPay;
  }

  /** The customer has not paid in the shop: one try with the automatic gateway, whose failure is
      left for polling to discover. */
  method TryAutoPay(api: Api, bill: Bill) returns (pay: PayBody, ghost d: seq<Event>)
    requires api.IsFaithful()
    modifies api
    ensures api.IsFaithful() && api.log == old(api.log) + d
    ensures AutoPayRun(bill, d, pay)
    ensures AllActAs(d, bill.creds) && OnlyWrong(d)
  {
    hide SumOf, AllActAs, OnlyWrong, StrictRun, IsWrongGateway, ViewIsPaid, ViewHasServiceId, Follows;
    var view := api.InvoiceView(bill.creds, bill.invid);
    d := [Viewed(bill.creds, bill.invid, view)];
    LookSegment(bill, view);
    AutoPaid(bill, view, Threw(NO_PANEL));
    pay := NO_PAY;
    if !(view.Got? && ViewIsPaid(view.body) && ViewHasServiceId(view.body)) {
      var reply := api.InvoicePay(bill.creds, bill.invid, bill.gateway);
      TrySegment(d, bill, reply);
      AutoPaid(bill, view, reply);
      d := d + [PayTried(bill.creds, bill.invid, bill.gateway, reply)];
      if reply.Got? {
        pay := reply.body;
      }
    } else {
      QuietIsOnlyWrong(d);
    }
  }

  // ---------------------------------------------------------------- the wait

  datatype Outcome =
    | Delivered(link: string, sid: Option<int>, creds: Creds, invid: string)
    | AwaitGateway(creds: Creds, invid: string)
    | Aborted

  predicate SawPaid(d: seq<Event>, creds: Creds, invid: string) {
    exists k :: 0 <= k < |d| && ShowsPaid(d[k]) && d[k].creds == creds && d[k].invid == invid
  }

  lemma {:induction false} LastViewIsInTrace(cfg: PollConfig, rounds: seq<Round>)
    requires rounds != []
    ensures Viewed(cfg.creds, cfg.invid, rounds[|rounds| - 1].view) in Flatten(cfg, rounds)
  {
    hide PaidStage, KnownStage, AccountStage;
    var last := Play(cfg, |rounds| - 1, rounds[|rounds| - 1]);
    assert last.events[0] == Viewed(cfg.creds, cfg.invid, rounds[|rounds| - 1].view);
  }

  /** A run that delivered has the Paid report in its trace. */
  lemma PollShowsPaid(cfg: PollConfig, rounds: seq<Round>, r: PollResult)
    ensures PollRun(cfg, rounds, r) && r.Delivered? ==> SawPaid(Flatten(cfg, rounds), cfg.creds, cfg.invid)
  {
    hide Flatten, Play, PollRun;
    if PollRun(cfg, rounds, r) && r.Delivered? {
      DeliveryIsPaidAndLinked(cfg, rounds, r);
      LastViewIsInTrace(cfg, rounds);
      var d := Flatten(cfg, rounds);
      var k :| 0 <= k < |d| && d[k] == Viewed(cfg.creds, cfg.invid, rounds[|rounds| - 1].view);
      assert ShowsPaid(d[k]);
    }
  }

  /** Polling, as every caller here does it: 72 rounds for a payment still under way, 18 otherwise. */
  function WaitConfig(creds: Creds, invid: string, pid: int, knownSid: Option<int>, autoPay: bool, pay: PayBody,
                      shop: bool): PollConfig {
    PollConfig(creds, invid, pid, knownSid, autoPay, if PayLooksAsync(pay) then 72 else 18, false,
               Some(Fallback(shop && PayIsCard2Card(pay), shop && PayIsShopPrepaid(pay))))
  }

  ghost predicate WaitRun(cfg: PollConfig, d: seq<Event>, r: PollResult) {
    exists rounds :: PollRun(cfg, rounds, r) && d == Flatten(cfg, rounds)
  }

  method WaitForLink(api: Api, creds: Creds, invid: string, pid: int, knownSid: Option<int>, autoPay: bool,
                     pay: PayBody, shop: bool)
    returns (r: PollResult, ghost d: seq<Event>)
    requires api.IsFaithful()
    modifies api
    ensures api.IsFaithful() && api.log == old(api.log) + d
    ensures WaitRun(WaitConfig(creds, invid, pid, knownSid, autoPay, pay, shop), d, r)
    ensures AllActAs(d, creds) && SumOf(d) == ZERO
    ensures r.Delivered? ==> !PhpEmpty(r.picked.link) && SawPaid(d, creds, invid)
  {
    hide PollRun, Flatten, AllActAs, SumOf, SawPaid, PayLooksAsync, PayIsCard2Card, PayIsShopPrepaid, OnlyLooks;
    var attempts := if PayLooksAsync(pay) then 72 else 18;
    var fallback := Fallback(shop && PayIsCard2Card(pay), shop && PayIsShopPrepaid(pay));
    var cfg := PollConfig(creds, invid, pid, knownSid, autoPay, attempts, false, Some(fallback));
    ghost var rounds;
    r, rounds := PollForSublink(api, cfg);
    d := Flatten(cfg, rounds);
    PollOnlyLooks(cfg, rounds);
    PollSegment(d, creds);
    PollShowsPaid(cfg, rounds, r);
    DeliveryIsPaidAndLinked(cfg, rounds, r);
  }

  lemma SeenLater(a: seq<Event>, b: seq<Event>, creds: Creds, invid: string)
    ensures SawPaid(b, creds, invid) ==> SawPaid(a + b, creds, invid)
  {
    hide ShowsPaid;
    assert forall k :: 0 <= k < |b| ==> (a + b)[|a| + k] == b[k];
  }

  lemma GatewaysActAsAnyone(e: Event, creds: Creds)
    requires e.GatewaysListed?
    ensures AllActAs([e], creds) && SumOf([e]) == ZERO
  {
    hide SumOf, SumOfEvent;
    SumOfOne(e);
    SumOfPlainEvent(e);
  }

  lemma LooksAfter(d: seq<Event>, e: seq<Event>, creds: Creds)
    requires AllActAs(d, creds) && OnlyWrong(d) && AllActAs(e, creds) && SumOf(e) == ZERO
    ensures AllActAs(d + e, creds) && OnlyWrong(d + e) && SumOf(d + e) == SumOf(d)
  {
    hide SumOf, AllActAs;
    SumOfConcat(d, e);
    ActAsConcat(d, e, creds);
  }
}

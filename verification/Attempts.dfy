/** Invoices for the same order again and again: how many of them the panel ends up with. */
module Attempts {
  import opened Text
  import opened Numbers
  import opened Panel
  import opened Billing
  import opened InvoicePay
  import opened Tally
  import opened Credentials
  import opened Accounts
  import opened Invoicing
  import opened Payment
  import opened NewPurchase
  import opened WebCheckout

  /** Who starts the attempt. Fulfilment runs inside a database transaction, so a throw undoes what the
      attempt had saved on the order and the user; approval provisions before its transaction; the checkout
      of the web shop only makes an invoice and delivers nothing. */
  datatype Entry = Fulfilment | Approval | Checkout

  /** What the panel makes of one attempt: an invoice is accepted; its id can be read; a stored invoice is
      still Pending; no link is delivered. */
  datatype Answer = Answer(accepts: bool, readable: bool, keeps: bool, aborts: bool)

  /** Settling uses a stored invoice again, the checkout only one that is still Pending. */
  predicate Makes(stored: bool, entry: Entry, a: Answer) {
    a.accepts && !(stored && (entry.Checkout? ==> a.keeps))
  }

  predicate StoredAfter(stored: bool, entry: Entry, a: Answer) {
    match entry
    case Fulfilment => stored
    case Approval => stored || (a.accepts && a.readable)
    case Checkout => (stored && a.keeps) || (a.accepts && a.readable)
  }

  predicate GoesOn(entry: Entry, a: Answer) {
    entry.Checkout? || a.aborts
  }

  /** Invoices on the panel after a sequence of attempts that ends with the first one delivered. */
  function InvoicesMade(stored: bool, entries: seq<Entry>, answers: seq<Answer>): int
    requires |answers| == |entries|
    decreases |entries|
  {
    if entries == [] then 0
    else
      One(Makes(stored, entries[0], answers[0]))
      + if GoesOn(entries[0], answers[0])
        then InvoicesMade(StoredAfter(stored, entries[0], answers[0]), entries[1..], answers[1..])
        else 0
  }

  /** Every invoice the panel made came with an id the shop could read. */
  predicate AllReadable(answers: seq<Answer>) {
    forall k :: 0 <= k < |answers| && answers[k].accepts ==> answers[k].readable
  }

  // ---------------------------------------------------------------- one attempt

  ghost predicate AttemptRun(d: seq<Event>, env: Env, stored: Stored, invId: string, reuse: Option<string>, pid: int,
                             billing: string, entry: Entry, r: Outcome, offer: WebResult) {
    if entry.Checkout? then WebRun(d, env, stored, invId, pid, billing, offer) && r.Aborted?
    else PurchaseRun(d, env, stored, reuse, pid, billing, true, true, r)
  }

  /** One attempt with its rollback; `offer` is what the checkout ends with. */
  method Attempt(api: Api, env: Env, user: User, order: ShopOrder, pid: int, billing: string, entry: Entry)
    returns (r: Outcome, ghost d: seq<Event>, ghost a: Answer, ghost offer: WebResult)
    requires Trim(order.config) == ""
    requires api.IsFaithful()
    modifies api, user, order
    ensures api.IsFaithful() && api.log == old(api.log) + d
    ensures AttemptRun(d, env, old(StoredOf(user)), old(Trim(order.invId)), old(order.Reusable()), pid, billing, entry,
                       r, offer)
    ensures SumOf(d).invoices == One(Makes(old(order.CanReuse()), entry, a)) && SumOf(d).ids <= SumOf(d).invoices
    ensures order.config == old(order.config) && (a.aborts <==> r.Aborted?)
    ensures GoesOn(entry, a) ==> (order.CanReuse() <==> StoredAfter(old(order.CanReuse()), entry, a))
    // The answer is what the calls say.
    ensures (a.accepts <==> SumOf(d).invoices == 1) && (a.keeps ==> entry.Checkout? && !a.accepts)
    ensures if entry.Checkout? then a.readable <== SumOf(d).ids == 1 else a.readable <==> SumOf(d).ids == 1
    ensures entry.Checkout? && offer.Refused? ==> order.invId in {"", old(order.invId)}
    ensures SumOf(d).registers == 0 && SumOf(d).clears == 0 ==> StoredOf(user) == old(StoredOf(user))
    // While no registration is refused as taken, an invoice is only ever used by who made it.
    ensures old(Matches(user, order)) && !AnyTaken(d) ==> Matches(user, order)
    ensures old(Matches(user, order)) && !r.Aborted? ==> r.creds == order.maker
  {
    hide SumOf, AnyTaken, Strays, WebRun, PurchaseRun, WebCounts, Trim, Rehydrated, Follows, SawPaid;
    hide AllActAs, SinceClear;
    if entry.Checkout? {
      BlankIsBlank();
      var found;
      found, d := OfferInvoice(api, env, user, order, pid, billing);
      OneWebInvoice(d);
      StraysOnTaken(d, old(StoredOf(user)));
      r, offer := Aborted, found;
      a := Answer(SumOf(d).invoices == 1, order.CanReuse(), SumOf(d).invoices == 0 && order.CanReuse(), true);
    } else {
      var email, password, recoverable, unset := user.email, user.password, user.recoverable, user.unset;
      var invId := order.invId;
      ghost var maker := order.maker;
      r, d := DoNewPurchase(api, env, user, order, pid, billing, true, true);
      StraysOnTaken(d, old(StoredOf(user)));
      OneInvoice(d, r, env);
      offer := Refused;
      a := Answer(SumOf(d).invoices == 1, SumOf(d).ids == 1, false, r.Aborted?);
      if r.Aborted? && entry.Fulfilment? {
        user.email, user.password, user.recoverable, user.unset := email, password, recoverable, unset;
        order.invId, order.maker := invId, maker;
      }
    }
  }

  lemma OneWebInvoice(d: seq<Event>)
    requires WebCounts(d, true)
    ensures 0 <= SumOf(d).ids <= SumOf(d).invoices <= 1
  {
    hide SumOf;
  }

  lemma OneInvoice(d: seq<Event>, r: Outcome, env: Env)
    requires KeepsPromises(d, r, env, true, true)
    ensures 0 <= SumOf(d).ids <= SumOf(d).invoices <= 1
  {
    hide SumOf, AllActAs, SinceClear, SawPaid;
  }

  lemma {:induction false} LaterIsInside(d: seq<Event>)
    ensures AnyTaken(SinceClear(d)) ==> AnyTaken(d)
  {
    hide RefusedAsTaken;
    if d != [] && !d[|d| - 1].CredentialsCleared? {
      var front, last := d[..|d| - 1], d[|d| - 1];
      LaterIsInside(front);
      assert forall k :: 0 <= k < |front| ==> d[k] == front[k];
      if AnyTaken(SinceClear(d)) {
        var k :| 0 <= k < |SinceClear(d)| && RefusedAsTaken(SinceClear(d)[k]);
        if k < |SinceClear(front)| {
          assert RefusedAsTaken(SinceClear(front)[k]);
        } else {
          assert RefusedAsTaken(d[|d| - 1]);
        }
      }
    }
  }

  lemma StraysOnTaken(d: seq<Event>, stored: Stored)
    ensures Strays(d, stored, true) ==> AnyTaken(d)
  {
    hide AnyTaken, SinceClear, WipesAlternate;
    LaterIsInside(d);
  }

  // ---------------------------------------------------------------- a panel that answers little

  /** From the moment `from` on the panel refuses the first `n` invoices, asked for with two calls each, and
      accepts all later ones with `reply`; it never tells about packages, never shows an invoice, never takes
      a payment. */
  ghost predicate Hesitates(script: Script, from: nat, n: nat, reply: ApiBody) {
    forall i: nat :: i >= from ==>
      && script.view(i).Threw? && script.pay(i).Threw? && script.packageInfo(i).Threw?
      && if i < from + 2 * n then script.create(i).Threw? else script.create(i) == Got(reply)
  }

  lemma HesitatesLater(script: Script, from: nat, n: nat, reply: ApiBody, spent: nat)
    requires Hesitates(script, from, n, reply) && (n > 0 ==> spent == 2)
    ensures Hesitates(script, from + spent, Pred(n), reply)
  {
  }

  /** The billing search is over after one try. */
  lemma SearchOnPanel(script: Script, from: nat, n: nat, reply: ApiBody, creds: Creds, pid: int, billing: string,
                      c: seq<Event>, created: CreateResult)
    requires Hesitates(script, from, n, reply) && Follows(script, from, c) && ApiOk(reply)
    requires CreateRun(creds, pid, billing, c, created)
    ensures |c| == 2 && created == if n > 0 then CreateThrew else Replied(reply)
  {
    hide ApiOk, BillingUnavailable, Canonical, CandidatesOf;
    assert IsAnswer(script, from + 0, c[0]);
    UnknownPackageIsTried(Canonical(billing), c[0].package);
    assert IsAnswer(script, from + 1, c[1]);
    assert c[1..][0] == c[1];
  }

  /** Nothing is paid. */
  lemma PaymentOnPanel(script: Script, from: nat, n: nat, reply: ApiBody, bill: Bill, pid: int, p: seq<Event>,
                       r: Outcome)
    requires Hesitates(script, from, n, reply) && Follows(script, from, p) && PaidRun(bill, pid, true, p, r)
    ensures r.Aborted? && |p| == 2 && p[0].Viewed? && p[1].PayTried? && p[1].pay.Threw?
  {
    hide WaitsTo, PayLooksSuccessful, PayBodyIsEmpty, RetryRun, ClosingRun;
    if k, pay :| 0 <= k <= |p| && IsPaymentRun(bill, true, p[..k], pay) && WaitsTo(bill, pid, pay, true, p[k..], r) {
      FollowsPart(script, from, p, k);
      SettlingOnPanel(script, from, n, reply, bill, p[..k], Some(pay));
      assert false;
    }
    SettlingOnPanel(script, from, n, reply, bill, p, None);
  }

  lemma SettlingOnPanel(script: Script, from: nat, n: nat, reply: ApiBody, bill: Bill, p: seq<Event>,
                        pay: Option<PayBody>)
    requires Hesitates(script, from, n, reply) && Follows(script, from, p) && SettleRun(bill, p, pay)
    ensures pay.None? && |p| == 2 && p[0].Viewed? && p[1].PayTried? && p[1].pay.Threw?
  {
    hide PayLooksSuccessful, PayBodyIsEmpty, RetryRun, ClosingRun, IsWrongGateway;
    assert IsAnswer(script, from + 0, p[0]);
    assert !NeedsNoPay(p[0]);
    var strict :| StrictRun(bill, p[1..], strict) && pay == Accepted(strict);
    assert p[1..][0] == p[1] && IsAnswer(script, from + 1, p[1]);
  }

  /** Settings with which a purchase comes as far as the payment, for a user who has credentials. */
  predicate IsReady(env: Env, stored: Stored) {
    Trim(env.domain) != "" && env.autoGateway.Some? && IsComplete(stored)
  }

  /** What an attempt on such a panel adds up to. */
  predicate Spends(d: seq<Event>, n: nat, makes: bool, readable: bool) {
    && SumOf(d) == CreateSum(makes, makes && readable)
    && (n > 0 ==> |d| == 2)
  }

  lemma NothingSpent()
    ensures forall readable :: Spends([], 0, false, readable)
  {
    hide SumOf;
    EmptySegment();
  }

  lemma UnpaidAfter(e: seq<Event>, p: seq<Event>, makes: bool, readable: bool)
    requires Spends(e, 0, makes, readable)
    requires |p| == 2 && p[0].Viewed? && p[1].PayTried? && p[1].pay.Threw?
    ensures Spends(e + p, 0, makes, readable)
  {
    hide SumOf, SumOfEvent, Sum.Plus, ZERO, CreateSum;
    UnpaidIsQuiet(p[0], p[1]);
    QuietSum(p);
    SumOfConcat(e, p);
    PlusIsAssociative(SumOf(e), ZERO, ZERO);
  }

  lemma UnpaidIsQuiet(look: Event, pay: Event)
    requires look.Viewed? && pay.PayTried? && pay.pay.Threw?
    ensures SumOfEvent(look) == ZERO && SumOfEvent(pay) == ZERO
  {
  }

  lemma SearchSpends(script: Script, from: nat, n: nat, reply: ApiBody, creds: Creds, pid: int, billing: string,
                     c: seq<Event>, created: CreateResult)
    requires Hesitates(script, from, n, reply) && Follows(script, from, c) && ApiOk(reply)
    requires CreateRun(creds, pid, billing, c, created)
    ensures |c| == 2 && created == if n > 0 then CreateThrew else Replied(reply)
    ensures Spends(c, n, n == 0, IdOf(reply) != "")
  {
    hide SumOf, ApiOk, IdOf, CreateRun, Hesitates, Follows;
    SearchOnPanel(script, from, n, reply, creds, pid, billing, c, created);
    CreateSegment(creds, pid, billing, c, created);
  }

  lemma StageOnPanel(script: Script, from: nat, n: nat, reply: ApiBody, e: seq<Event>, env: Env, creds: Creds, pid: int,
                     billing: string, reuse: Option<string>, invoice: InvoiceResult)
    requires Hesitates(script, from, n, reply) && Follows(script, from, e) && ApiOk(reply) && env.autoGateway.Some?
    requires reuse.Some? ==> n == 0
    requires InvoiceStage(e, env, creds, pid, billing, true, true, reuse, invoice)
    ensures Spends(e, n, reuse.None? && n == 0, IdOf(reply) != "")
    ensures !invoice.Again? && (n > 0 ==> invoice.NoInvoice?)
  {
    hide Spends, ApiOk, IdOf, CreateRun, Hesitates, Follows, EmailNotFound;
    if reuse.Some? {
      NothingSpent();
    } else {
      var created, k :| 0 <= k <= |e| && CreateRun(creds, pid, billing, e[..k], created)
                        && InvoiceEnds(created, e[k..], false, true, invoice);
      FollowsPart(script, from, e, k);
      SearchSpends(script, from, n, reply, creds, pid, billing, e[..k], created);
      assert e[k..] == [];
      assert e[..k] == e;
    }
  }

  lemma PurchaseOnPanel(script: Script, from: nat, n: nat, reply: ApiBody, d: seq<Event>, env: Env, stored: Stored,
                        reuse: Option<string>, pid: int, billing: string, r: Outcome)
    requires Hesitates(script, from, n, reply) && Follows(script, from, d) && ApiOk(reply)
    requires IsReady(env, stored) && (reuse.Some? ==> n == 0)
    requires PurchaseRun(d, env, stored, reuse, pid, billing, true, true, r)
    ensures r.Aborted? && Spends(d, n, reuse.None? && n == 0, IdOf(reply) != "")
  {
    hide Spends, ApiOk, IdOf, InvoiceStage, PaidRun, Hesitates, Follows, RegisterRun, Trim;
    var k, found :| 0 <= k <= |d| && CredentialsRun(d[..k], env, stored, true, found)
                    && AfterCredentials(d[k..], env, stored, reuse, pid, billing, true, true, found, r);
    assert d[k..] == d;
    var creds := found.creds;
    var m, invoice :| 0 <= m <= |d| && InvoiceStage(d[..m], env, creds, pid, billing, true, true, reuse, invoice)
                      && match invoice
                         case NoInvoice => m == |d| && r.Aborted?
                         case Again =>
                           PurchaseRun(d[m..], env, Wiped(stored, creds), reuse, pid, billing, true, false, r)
                         case Have(invid) => PayAndWaitRun(env, creds, invid, pid, true, d[m..], r);
    FollowsPart(script, from, d, m);
    StageOnPanel(script, from, n, reply, d[..m], env, creds, pid, billing, reuse, invoice);
    if invoice.Have? {
      HesitatesFrom(script, from, reply, m);
      PaymentOnPanel(script, from + m, 0, reply, Bill(creds, invoice.invid, env.autoGateway.value), pid, d[m..], r);
      UnpaidAfter(d[..m], d[m..], reuse.None?, IdOf(reply) != "");
      assert d[..m] + d[m..] == d;
    } else {
      assert d[..m] == d;
    }
  }

  lemma HesitatesFrom(script: Script, from: nat, reply: ApiBody, later: nat)
    requires Hesitates(script, from, 0, reply)
    ensures Hesitates(script, from + later, 0, reply)
  {
  }

  lemma WebBuysOnPanel(script: Script, from: nat, n: nat, reply: ApiBody, d: seq<Event>, env: Env, stored: Stored,
                       creds: Creds, pid: int, billing: string, w: WebResult)
    requires Hesitates(script, from, n, reply) && Follows(script, from, d) && ApiOk(reply)
    requires WebBuys(d, env, stored, creds, pid, billing, true, w)
    ensures Spends(d, n, n == 0, IdOf(reply) != "") && (ScalarId(reply) == "" ==> w.Refused?)
  {
    hide Spends, ApiOk, IdOf, CreateRun, Hesitates, Follows, EmailNotFound, ScalarId, WebMakes;
    var m, created :| 0 <= m <= |d| && CreateRun(creds, pid, billing, d[..m], created)
                      && if GivesInvoice(created) then
                           && m == |d|
                           && w == if ScalarId(created.body) == "" then Refused
                                   else Offered(creds, ScalarId(created.body))
                         else !(created.Replied? && EmailNotFound(created.body.env)) ==> m == |d| && w.Refused?;
    FollowsPart(script, from, d, m);
    SearchSpends(script, from, n, reply, creds, pid, billing, d[..m], created);
    assert d[..m] == d;
  }

  lemma WebMakesOnPanel(script: Script, from: nat, n: nat, reply: ApiBody, d: seq<Event>, env: Env, stored: Stored,
                        pid: int, billing: string, w: WebResult)
    requires Hesitates(script, from, n, reply) && Follows(script, from, d) && ApiOk(reply) && IsComplete(stored)
    requires WebMakes(d, env, stored, pid, billing, true, w)
    ensures Spends(d, n, n == 0, IdOf(reply) != "") && (ScalarId(reply) == "" ==> w.Refused?)
  {
    hide Spends, ApiOk, IdOf, Hesitates, Follows, RegisterRun, WebBuys;
    var creds := Creds(stored.email, stored.password);
    assert forall k, found :: 0 <= k <= |d| && CredentialsRun(d[..k], env, stored, true, found) ==>
                                k == 0 && found == Ready(creds);
    assert d[0..] == d;
    assert WebBuys(d, env, stored, creds, pid, billing, true, w);
    WebBuysOnPanel(script, from, n, reply, d, env, stored, creds, pid, billing, w);
  }

  lemma WebOnPanel(script: Script, from: nat, n: nat, reply: ApiBody, d: seq<Event>, env: Env, stored: Stored,
                   existing: string, pid: int, billing: string, w: WebResult)
    requires Hesitates(script, from, n, reply) && Follows(script, from, d) && ApiOk(reply)
    requires IsReady(env, stored) && (existing != "" ==> n == 0)
    requires WebRun(d, env, stored, existing, pid, billing, w)
    ensures Spends(d, n, n == 0, IdOf(reply) != "") && (ScalarId(reply) == "" ==> w.Refused?)
  {
    hide Spends, ApiOk, IdOf, WebMakes, Trim;
    if existing == "" {
      WebMakesOnPanel(script, from, n, reply, d, env, stored, pid, billing, w);
    } else {
      assert IsAnswer(script, from + 0, d[0]);
      FollowsPart(script, from, d, 1);
      HesitatesFrom(script, from, reply, 1);
      WebMakesOnPanel(script, from + 1, 0, reply, d[1..], env, stored, pid, billing, w);
      LookSpends(d[0], d[1..], IdOf(reply) != "");
      assert [d[0]] + d[1..] == d;
    }
  }

  lemma LookSpends(look: Event, b: seq<Event>, readable: bool)
    requires look.Viewed? && Spends(b, 0, true, readable)
    ensures Spends([look] + b, 0, true, readable)
  {
    hide SumOf, SumOfEvent;
    SumOfOne(look);
    SumOfPlainEvent(look);
    SumOfConcat([look], b);
  }

  /** The reply can be read by every entry or by none; a stored invoice needs a panel that no longer hesitates. */
  predicate Suits(reply: ApiBody, n: nat, stored: bool) {
    && ApiOk(reply) && (stored ==> n == 0 && IdOf(reply) != "")
    && (IdOf(reply) == "" ==> ScalarId(reply) == "")
  }

  /** The answers of a panel that refuses the first n invoices, accepts the later ones and delivers nothing. */
  function Late(count: nat, n: nat, readable: bool): (answers: seq<Answer>)
    ensures |answers| == count
  {
    seq(count, i => Answer(i >= n, readable, false, true))
  }

  function Pred(n: nat): nat {
    if n == 0 then 0 else n - 1
  }

  lemma LateStep(stored: bool, entries: seq<Entry>, n: nat, readable: bool)
    requires entries != []
    ensures var first := Answer(n == 0, readable, false, true);
            InvoicesMade(stored, entries, Late(|entries|, n, readable))
            == One(Makes(stored, entries[0], first))
               + InvoicesMade(StoredAfter(stored, entries[0], first), entries[1..],
                              Late(|entries| - 1, Pred(n), readable))
  {
    hide Makes, StoredAfter;
    assert Late(|entries|, n, readable)[1..] == Late(|entries| - 1, Pred(n), readable);
  }

  lemma AttemptOnPanel(script: Script, from: nat, n: nat, reply: ApiBody, d: seq<Event>, env: Env, stored: Stored,
                       invId: string, reuse: Option<string>, pid: int, billing: string, entry: Entry, r: Outcome,
                       offer: WebResult)
    requires AttemptRun(d, env, stored, invId, reuse, pid, billing, entry, r, offer) && Follows(script, from, d)
    requires Hesitates(script, from, n, reply) && IsReady(env, stored) && Suits(reply, n, reuse.Some?)
    requires invId != "" ==> reuse.Some?
    ensures r.Aborted? && SumOf(d).registers == 0 && SumOf(d).clears == 0
    ensures SumOf(d).invoices == One(n == 0 && (reuse.None? || entry.Checkout?))
    ensures SumOf(d).ids == if IdOf(reply) != "" then SumOf(d).invoices else 0
    ensures n > 0 ==> |d| == 2
    ensures entry.Checkout? && IdOf(reply) == "" ==> offer.Refused?
  {
    hide SumOf, Hesitates, Follows, IsReady, PurchaseRun, WebRun, ApiOk, IdOf, ScalarId;
    if entry.Checkout? {
      WebOnPanel(script, from, n, reply, d, env, stored, invId, pid, billing, offer);
    } else {
      PurchaseOnPanel(script, from, n, reply, d, env, stored, reuse, pid, billing, r);
    }
  }

  lemma TakenLater(a: seq<Event>, b: seq<Event>)
    ensures AnyTaken(a) || AnyTaken(b) ==> AnyTaken(a + b)
  {
    hide ApiOk, EmailAlreadyRegistered;
    var d := a + b;
    assert forall k :: 0 <= k < |a| ==> d[k] == a[k];
    assert forall k :: 0 <= k < |b| ==> d[|a| + k] == b[k];
  }

  lemma SumsAddUp(first: seq<Event>, rest: seq<Event>)
    ensures SumOf(first + rest).invoices == SumOf(first).invoices + SumOf(rest).invoices
    ensures SumOf(first + rest).ids == SumOf(first).ids + SumOf(rest).ids
    ensures AnyTaken(first) || AnyTaken(rest) ==> AnyTaken(first + rest)
  {
    hide SumOf, AnyTaken;
    SumOfConcat(first, rest);
    TakenLater(first, rest);
  }

  lemma NoAttempt(stored: bool)
    ensures InvoicesMade(stored, [], []) == 0 && SumOf([]).invoices == 0 && SumOf([]).ids == 0 && AllReadable([])
  {
  }

  lemma OneMoreAttempt(stored: bool, entries: seq<Entry>, a: Answer, later: seq<Answer>)
    requires entries != [] && |later| == |entries| - 1
    ensures InvoicesMade(stored, entries, [a] + later)
            == One(Makes(stored, entries[0], a))
               + if GoesOn(entries[0], a)
                 then InvoicesMade(StoredAfter(stored, entries[0], a), entries[1..], later)
                 else 0
    ensures AllReadable([a] + later) <==> (a.accepts ==> a.readable) && AllReadable(later)
  {
    hide Makes, StoredAfter;
    var answers := [a] + later;
    assert answers[1..] == later;
    assert forall k :: 0 <= k < |later| ==> answers[k + 1] == later[k];
  }

  function Silence(count: nat): (answers: seq<Answer>)
    ensures |answers| == count && AllReadable(answers)
  {
    seq(count, _ => Answer(false, false, false, false))
  }

  /** Attempts at one order that has no link yet, each reading the stored rows afresh, up to the first that
      delivers. */
  method ProvisionAgain(api: Api, env: Env, user: User, order: ShopOrder, pid: int, billing: string,
                        entries: seq<Entry>)
    returns (r: Outcome, ghost d: seq<Event>, ghost answers: seq<Answer>)
    requires Trim(order.config) == ""
    requires api.IsFaithful()
    modifies api, user, order
    ensures api.IsFaithful() && api.log == old(api.log) + d
    // The invoices on the panel are those of the answers.
    ensures |answers| == |entries| && SumOf(d).invoices == InvoicesMade(old(order.CanReuse()), entries, answers)
    ensures SumOf(d).ids <= SumOf(d).invoices && (SumOf(d).ids == SumOf(d).invoices ==> AllReadable(answers))
    // Conversely, these answers come from a panel.
    ensures forall n: nat, reply ::
              && Hesitates(api.script, |old(api.log)|, n, reply) && IsReady(env, old(StoredOf(user)))
              && Suits(reply, n, old(order.CanReuse())) ==>
                && SumOf(d).invoices
                   == InvoicesMade(old(order.CanReuse()), entries, Late(|entries|, n, IdOf(reply) != ""))
                && SumOf(d).ids == if IdOf(reply) != "" then SumOf(d).invoices else 0
    // Unless a registration is refused as taken, what is delivered was bought by who made the invoice.
    ensures old(Matches(user, order)) && !AnyTaken(d) && !r.Aborted? ==> r.creds == order.maker
    decreases |entries|
  {
    hide SumOf, AnyTaken, AttemptRun, Trim, Rehydrated, Follows, Hesitates, IsReady, Suits, InvoicesMade, Makes;
    hide StoredAfter, AllReadable, Late, IdOf, Pred;
    r, d, answers := Aborted, [], [];
    ghost var stored, from := order.CanReuse(), |api.log|;
    ghost var was, invId, reuse := StoredOf(user), Trim(order.invId), order.Reusable();
    NoAttempt(stored);
    LateIsNothing(stored);
    if entries != [] {
      ghost var first, a, offer, rest, later;
      r, first, a, offer := Attempt(api, env, user, order, pid, billing, entries[0]);
      rest, later := [], Silence(|entries| - 1);
      ghost var middle, ended := order.CanReuse(), r;
      BlankIsBlank();
      assert entries[0].Checkout? && offer.Refused? ==> (middle ==> stored);
      AnsweredSince(api.script, api.log, from, first);
      if entries[0].Checkout? || r.Aborted? {
        r, rest, later := ProvisionAgain(api, env, user, order, pid, billing, entries[1..]);
      }
      forall n: nat, reply | Hesitates(api.script, from, n, reply) && IsReady(env, was) && Suits(reply, n, stored)
        ensures SumOf(first).invoices + SumOf(rest).invoices
                == InvoicesMade(stored, entries, Late(|entries|, n, IdOf(reply) != ""))
        ensures SumOf(first).ids + SumOf(rest).ids
                == if IdOf(reply) != "" then SumOf(first).invoices + SumOf(rest).invoices else 0
      {
        AttemptOnPanel(api.script, from, n, reply, first, env, was, invId, reuse, pid, billing, entries[0], ended,
                       offer);
        HesitatesLater(api.script, from, n, reply, |first|);
        LateStep(stored, entries, n, IdOf(reply) != "");
        StepOnPanel(stored, middle, entries[0], a, n, reply, SumOf(first).invoices, SumOf(first).ids);
      }
      OneMoreAttempt(stored, entries, a, later);
      SumsAddUp(first, rest);
      d, answers := first + rest, [a] + later;
    }
  }

  lemma AnsweredSince(script: Script, log: seq<Event>, from: nat, d: seq<Event>)
    requires Follows(script, 0, log) && from <= |log| && log[from..] == d
    ensures Follows(script, from, d)
  {
    FollowsPart(script, 0, log, from);
  }

  /** The answer of an attempt on a hesitating panel is the one Late has for it. */
  lemma StepOnPanel(stored: bool, middle: bool, entry: Entry, a: Answer, n: nat, reply: ApiBody, invoices: int,
                    ids: int)
    requires Suits(reply, n, stored) && (middle <==> StoredAfter(stored, entry, a))
    requires (a.accepts <==> invoices == 1) && (a.keeps ==> entry.Checkout? && !a.accepts)
    requires if entry.Checkout? then a.readable <== ids == 1 else a.readable <==> ids == 1
    requires invoices == One(n == 0 && (!stored || entry.Checkout?))
    requires ids == if IdOf(reply) != "" then invoices else 0
    requires entry.Checkout? && IdOf(reply) == "" ==> (middle ==> stored)
    ensures var first := Answer(n == 0, IdOf(reply) != "", false, true);
            middle == StoredAfter(stored, entry, first) && invoices == One(Makes(stored, entry, first))
    ensures Suits(reply, Pred(n), middle)
  {
    hide IdOf, ApiOk, ScalarId;
  }

  lemma LateIsNothing(stored: bool)
    ensures forall n: nat, readable :: InvoicesMade(stored, [], Late(0, n, readable)) == 0
  {
  }

  // ---------------------------------------------------------------- when one invoice is enough

  /** Fulfilment only as the last attempt, the checkout only as the first. */
  predicate IsSafe(entries: seq<Entry>) {
    && (forall k :: 0 <= k < |entries| - 1 ==> !entries[k].Fulfilment?)
    && (forall k :: 1 <= k < |entries| ==> !entries[k].Checkout?)
  }

  predicate OnlySettles(entries: seq<Entry>) {
    forall k :: 0 <= k < |entries| ==> !entries[k].Checkout?
  }

  lemma {:induction false} StoredIsReused(entries: seq<Entry>, answers: seq<Answer>)
    requires |answers| == |entries| && OnlySettles(entries)
    ensures InvoicesMade(true, entries, answers) == 0
  {
    if entries != [] {
      assert forall k :: 0 <= k < |entries| - 1 ==> entries[1..][k] == entries[k + 1];
      StoredIsReused(entries[1..], answers[1..]);
    }
  }

  lemma {:induction false} AtMostOneInvoice(entries: seq<Entry>, answers: seq<Answer>)
    requires |answers| == |entries| && IsSafe(entries) && AllReadable(answers)
    ensures 0 <= InvoicesMade(false, entries, answers) <= 1
  {
    if entries != [] {
      var more := entries[1..];
      assert forall k :: 0 <= k < |more| ==> more[k] == entries[k + 1] && answers[1..][k] == answers[k + 1];
      AtMostOneInvoice(more, answers[1..]);
      StoredIsReused(more, answers[1..]);
      if more == [] {
        assert forall stored :: InvoicesMade(stored, more, answers[1..]) == 0;
      }
    }
  }

  lemma {:induction false} NeverNegative(stored: bool, entries: seq<Entry>, answers: seq<Answer>)
    requires |answers| == |entries|
    ensures InvoicesMade(stored, entries, answers) >= 0
    decreases |entries|
  {
    if entries != [] {
      NeverNegative(StoredAfter(stored, entries[0], answers[0]), entries[1..], answers[1..]);
    }
  }

  /** A checkout that meets no Pending invoice makes one, whatever is stored. */
  lemma {:induction false} CheckoutMakesOne(stored: bool, entries: seq<Entry>, k: nat)
    requires k < |entries| && entries[k].Checkout?
    ensures InvoicesMade(stored, entries, Late(|entries|, 0, true)) >= 1
    decreases k
  {
    var first := Answer(true, true, false, true);
    LateStep(stored, entries, 0, true);
    if k == 0 {
      NeverNegative(StoredAfter(stored, entries[0], first), entries[1..], Late(|entries| - 1, 0, true));
    } else {
      CheckoutMakesOne(StoredAfter(stored, entries[0], first), entries[1..], k - 1);
    }
  }

  /** A fulfilment that loses its invoice, and the attempt after it. */
  lemma {:induction false} LostInvoiceIsMadeAgain(entries: seq<Entry>, k: nat)
    requires k + 1 < |entries| && entries[k].Fulfilment?
    ensures InvoicesMade(false, entries, Late(|entries|, k, true)) >= 2
  {
    LateStep(false, entries, k, true);
    if k == 0 {
      LateStep(false, entries[1..], 0, true);
      NeverNegative(StoredAfter(false, entries[1], Answer(true, true, false, true)), entries[1..][1..],
                    Late(|entries| - 2, 0, true));
    } else {
      LostInvoiceIsMadeAgain(entries[1..], k - 1);
    }
  }

  function FirstFulfilment(entries: seq<Entry>): (k: nat)
    ensures k <= |entries| && (k < |entries| ==> entries[k].Fulfilment?)
    ensures forall j :: 0 <= j < k ==> !entries[j].Fulfilment?
  {
    if entries == [] || entries[0].Fulfilment? then 0 else 1 + FirstFulfilment(entries[1..])
  }

  /** How long a panel has to hesitate for an unsafe sequence to make two invoices. */
  function Hesitation(entries: seq<Entry>): nat {
    if FirstFulfilment(entries) + 1 < |entries| then FirstFulfilment(entries) else 0
  }

  lemma HesitationMakesTwo(entries: seq<Entry>)
    requires !IsSafe(entries)
    ensures InvoicesMade(false, entries, Late(|entries|, Hesitation(entries), true)) >= 2
  {
    if FirstFulfilment(entries) + 1 < |entries| {
      LostInvoiceIsMadeAgain(entries, FirstFulfilment(entries));
    } else {
      var k :| 1 <= k < |entries| && entries[k].Checkout?;
      LateStep(false, entries, 0, true);
      CheckoutMakesOne(StoredAfter(false, entries[0], Answer(true, true, false, true)), entries[1..], k - 1);
    }
  }

  lemma {:induction false} UnreadIsMadeAgain(entries: seq<Entry>)
    ensures InvoicesMade(false, entries, Late(|entries|, 0, false)) == |entries|
  {
    if entries != [] {
      LateStep(false, entries, 0, false);
      UnreadIsMadeAgain(entries[1..]);
    }
  }

  /** The shop means to make one invoice an order. On a panel that gives every invoice an id the shop can read,
      that is certain, whatever else the panel does, exactly when fulfilment comes last if at all and the
      checkout first if at all: a rollback forgets the id, and so does a checkout that does not see the
      invoice Pending. On every other panel it is certain only of a single attempt. */
  lemma OneInvoiceExactlyWhen(entries: seq<Entry>)
    ensures (forall answers: seq<Answer> :: |answers| == |entries| && AllReadable(answers) ==>
               InvoicesMade(false, entries, answers) <= 1) <==> IsSafe(entries)
    ensures (forall answers: seq<Answer> :: |answers| == |entries| ==> InvoicesMade(false, entries, answers) <= 1)
            <==> |entries| <= 1
  {
    if IsSafe(entries) {
      forall answers: seq<Answer> | |answers| == |entries| && AllReadable(answers)
        ensures InvoicesMade(false, entries, answers) <= 1
      {
        AtMostOneInvoice(entries, answers);
      }
    } else {
      HesitationMakesTwo(entries);
      assert AllReadable(Late(|entries|, Hesitation(entries), true));
    }
    if |entries| <= 1 {
      forall answers: seq<Answer> | |answers| == |entries|
        ensures InvoicesMade(false, entries, answers) <= 1
      {
        SingleAttempt(entries, answers);
      }
    } else {
      UnreadIsMadeAgain(entries);
      assert |Late(|entries|, 0, false)| == |entries|;
    }
  }

  lemma SingleAttempt(entries: seq<Entry>, answers: seq<Answer>)
    requires |answers| == |entries| <= 1
    ensures InvoicesMade(false, entries, answers) <= 1
  {
    if entries != [] {
      assert forall stored :: InvoicesMade(stored, entries[1..], answers[1..]) == 0;
    }
  }

  // ---------------------------------------------------------------- the panels

  function Hesitating(n: nat, reply: ApiBody): Script {
    Script(
      _ => Threw(NO_PANEL), _ => Threw(NO_PANEL), _ => Threw(NO_PANEL), _ => Threw(NO_PANEL), _ => Threw(NO_PANEL),
      _ => Threw(NO_PANEL), _ => Threw(NO_PANEL), i => if i < 2 * n then Threw(NO_PANEL) else Got(reply),
      _ => Threw(NO_PANEL), _ => Threw(NO_PANEL), _ => Threw(NO_PANEL), _ => Threw(NO_PANEL))
  }

  lemma HesitatingHesitates(n: nat, reply: ApiBody)
    ensures Hesitates(Hesitating(n, reply), 0, n, reply)
  {
  }

  const WITH_ID := ApiBody(Envelope(Some(100), "success", ""), TextId("77"), NoId)
  const WITHOUT_ID := ApiBody(Envelope(Some(100), "success", ""), NoId, NoId)

  lemma RepliesSuit(n: nat)
    ensures Suits(WITH_ID, n, false) && IdOf(WITH_ID) != ""
    ensures Suits(WITHOUT_ID, n, false) && IdOf(WITHOUT_ID) == ""
  {
    assert Trim("77") == "77" && Trim("") == "";
    LowerCaseStays("success");
  }

  lemma ReadyAccount(env: Env, user: User)
    requires Trim(env.domain) != "" && env.autoGateway.Some?
    requires user.email == "tg1@shop" && user.password == "secret" && user.recoverable == ""
    ensures IsReady(env, StoredOf(user))
  {
    assert Trim("secret") == "secret";
  }

  lemma NoInvoiceYet(order: ShopOrder)
    requires order.invId == "" && order.config == ""
    ensures !order.CanReuse() && Trim(order.config) == ""
  {
    assert Trim("") == "";
  }

  /** Attempts at a fresh order of a user with credentials, on a hesitating panel. */
  method AttemptsOn(env: Env, n: nat, reply: ApiBody, pid: int, billing: string, entries: seq<Entry>)
    returns (log: seq<Event>)
    requires Trim(env.domain) != "" && env.autoGateway.Some? && Suits(reply, n, false)
    ensures SumOf(log).invoices == InvoicesMade(false, entries, Late(|entries|, n, IdOf(reply) != ""))
    ensures SumOf(log).ids == if IdOf(reply) != "" then SumOf(log).invoices else 0
  {
    hide SumOf, Trim, Hesitates, Suits, InvoicesMade, Late, Hesitating, IsReady, Rehydrated, Follows, AnyTaken, IdOf;
    var api := new Api(Hesitating(n, reply));
    var user := new User("1", "tg1@shop", "secret", "", false);
    var order := new ShopOrder("", "", Creds("", ""));
    HesitatingHesitates(n, reply);
    ReadyAccount(env, user);
    NoInvoiceYet(order);
    assert Hesitates(api.script, |api.log|, n, reply);
    ghost var d, answers;
    var r;
    r, d, answers := ProvisionAgain(api, env, user, order, pid, billing, entries);
    log := api.log;
    assert log == d;
  }

  /** For every unsafe sequence of attempts there is a panel, each of its ids readable, that ends up with two
      invoices or more for one order. */
  method SecondInvoice(env: Env, pid: int, billing: string, entries: seq<Entry>) returns (log: seq<Event>)
    requires Trim(env.domain) != "" && env.autoGateway.Some? && !IsSafe(entries)
    ensures SumOf(log).invoices >= 2 && SumOf(log).ids == SumOf(log).invoices
  {
    hide SumOf, Trim, Suits, InvoicesMade, Late, IdOf, IsSafe, Hesitation;
    RepliesSuit(Hesitation(entries));
    HesitationMakesTwo(entries);
    log := AttemptsOn(env, Hesitation(entries), WITH_ID, pid, billing, entries);
  }

  /** And for any sequence at all there is one, whose invoices carry no id, that ends up with an invoice for
      every attempt. */
  method InvoiceForEachAttempt(env: Env, pid: int, billing: string, entries: seq<Entry>) returns (log: seq<Event>)
    requires Trim(env.domain) != "" && env.autoGateway.Some?
    ensures SumOf(log).invoices == |entries| && SumOf(log).ids == 0
  {
    hide SumOf, Trim, Suits, InvoicesMade, Late, IdOf;
    RepliesSuit(0);
    UnreadIsMadeAgain(entries);
    log := AttemptsOn(env, 0, WITHOUT_ID, pid, billing, entries);
  }
}

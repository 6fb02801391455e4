/** provisionPurchase for a new service: credentials, one invoice, payment, and the wait for a link. */
module NewPurchase {
  import opened Text
  import opened Numbers
  import opened Panel
  import opened Polling
  import opened InvoicePay
  import opened ReplyFacts
  import opened Tally
  import opened Credentials
  import opened Accounts
  import opened Invoicing
  import opened Payment

  /** A restart whose register call was refused because the address exists. */
  predicate RestartedAsTaken(d: seq<Event>, allow: bool) {
    (HasClear(d) || !allow) && AnyTaken(SinceClear(d))
  }

  /** A wipe that found another identity registered before it. */
  predicate WipesAlternate(d: seq<Event>) {
    exists i, j :: 0 <= i < j < |d| && d[i].RegisterTried? && d[j].CredentialsCleared?
  }

  /** The run went on with a password nobody has stored. A password left in the row prevents that: one that
      was there when a second pass began, or that of another identity saved through a copy of a user whose
      password column was NULL. */
  predicate Strays(d: seq<Event>, stored: Stored, allow: bool) {
    RestartedAsTaken(d, allow) && if allow then !(IsMissing(stored) && WipesAlternate(d)) else stored.password == ""
  }

  lemma WipeComesLast(a: seq<Event>, b: seq<Event>)
    requires SinceClear(a) == [] && SumOf(a).clears == 1 && SumOf(b).clears == 0
    ensures WipesAlternate(a + b) <==> SumOf(a).registers != 0
  {
    hide SumOf, SinceClear, HasClear;
    ClearFree(a);
    ClearFree(b);
    NoClearInside(b);
    RegisterFree(a);
    RegistersMeansOne(a);
    EndsCleared(a);
    WipedInFront(a, b);
  }

  lemma EndsCleared(a: seq<Event>)
    requires SinceClear(a) == [] && HasClear(a)
    ensures a != [] && a[|a| - 1].CredentialsCleared?
  {
  }

  lemma WipedInFront(a: seq<Event>, b: seq<Event>)
    requires a != [] && a[|a| - 1].CredentialsCleared?
    requires forall k :: 0 <= k < |b| ==> !b[k].CredentialsCleared?
    ensures WipesAlternate(a + b) <==> exists i :: 0 <= i < |a| && a[i].RegisterTried?
  {
    var d := a + b;
    assert forall k :: 0 <= k < |a| ==> d[k] == a[k];
    assert forall k :: |a| <= k < |d| ==> d[k] == b[k - |a|];
    if i :| 0 <= i < |a| && a[i].RegisterTried? {
      assert d[i].RegisterTried? && d[|a| - 1].CredentialsCleared?;
    }
  }

  lemma {:induction false} NoClearInside(d: seq<Event>)
    ensures !HasClear(d) ==> forall k :: 0 <= k < |d| ==> !d[k].CredentialsCleared?
  {
    if d != [] {
      var front := d[..|d| - 1];
      NoClearInside(front);
      assert forall k :: 0 <= k < |d| - 1 ==> d[k] == front[k];
    }
  }

  lemma {:induction false} RegistersMeansOne(d: seq<Event>)
    ensures SumOf(d).registers != 0 ==> exists k :: 0 <= k < |d| && d[k].RegisterTried?
  {
    hide SumOfEvent;
    if d != [] {
      var front, last := d[..|d| - 1], d[|d| - 1];
      KindCounts(last);
      RegistersMeansOne(front);
      assert forall k :: 0 <= k < |d| - 1 ==> d[k] == front[k];
    }
  }

  lemma NoTakenLater(a: seq<Event>, b: seq<Event>)
    requires SumOf(b).registers == 0
    ensures AnyTaken(a + b) <==> AnyTaken(a)
  {
    hide SumOf, ApiOk, EmailAlreadyRegistered;
    RegisterFree(b);
    var d := a + b;
    assert forall k :: 0 <= k < |a| ==> d[k] == a[k];
    assert forall k :: |a| <= k < |d| ==> d[k] == b[k - |a|];
  }

  /** After a wipe only the second pass matters. */
  lemma RestartJoins(a: seq<Event>, b: seq<Event>)
    requires SinceClear(a) == [] && SumOf(a).clears == 1 && SumOf(b).clears == 0
    ensures SumOf(a + b) == SumOf(a).Plus(SumOf(b))
    ensures SinceClear(a + b) == SinceClear(b)
    ensures RestartedAsTaken(a + b, true) <==> RestartedAsTaken(b, false)
    ensures forall c, i :: SawPaid(b, c, i) ==> SawPaid(a + b, c, i)
  {
    hide SumOf, AnyTaken, SinceClear, HasClear, SawPaid;
    SumOfConcat(a, b);
    ClearFree(a);
    ClearFree(b);
    ClearFree(a + b);
    SinceClearConcat(a, b);
    assert [] + b == b;
    forall c, i
      ensures SawPaid(b, c, i) ==> SawPaid(a + b, c, i)
    {
      SeenLater(a, b, c, i);
    }
  }

  /** Without a wipe only the first registration of a second pass can stray. */
  lemma StraightStrays(first: seq<Event>, e: seq<Event>, stored: Stored, allow: bool)
    requires SumOf(first).clears == 0 && SumOf(e).clears == 0 && SumOf(e).registers == 0
    ensures Strays(first + e, stored, allow) <==> !allow && AnyTaken(first) && stored.password == ""
    ensures SumOf(first + e).clears == 0
  {
    hide SumOf, SinceClear, HasClear, AnyTaken, WipesAlternate;
    SumOfConcat(first, e);
    ClearFree(first + e);
    NoTakenLater(first, e);
  }

  lemma StraightPassStrays(first: seq<Event>, e: seq<Event>, p: seq<Event>, stored: Stored, allow: bool)
    requires SumOf(first).clears == 0 && SumOf(e).clears == 0 && SumOf(p).clears == 0
    requires SumOf(e).registers == 0 && SumOf(p).registers == 0
    ensures Strays(first + e + p, stored, allow) <==> !allow && AnyTaken(first) && stored.password == ""
  {
    hide SumOf, Strays, AnyTaken;
    SumOfConcat(e, p);
    StraightStrays(first, e + p, stored, allow);
    assert first + (e + p) == first + e + p;
  }

  /** After a wipe the second pass decides; `left` is what the wipe has left of the user. */
  lemma RestartStrays(a: seq<Event>, b: seq<Event>, stored: Stored, left: Stored)
    requires SinceClear(a) == [] && SumOf(a).clears == 1 && SumOf(b).clears == 0
    requires left.password == "" <==> !(IsMissing(stored) && SumOf(a).registers != 0)
    ensures Strays(a + b, stored, true) <==> Strays(b, left, false)
  {
    hide SumOf, SinceClear, RestartedAsTaken, WipesAlternate;
    RestartJoins(a, b);
    WipeComesLast(a, b);
  }

  function OutcomeOf(poll: PollResult, creds: Creds, invid: string): Outcome {
    match poll
    case Delivered(picked) => Outcome.Delivered(picked.link, picked.sid, creds, invid)
    case Failed(_) => Aborted
  }

  /** The wait after a payment, and its outcome. */
  ghost predicate WaitsTo(bill: Bill, pid: int, pay: PayBody, shop: bool, d: seq<Event>, r: Outcome) {
    exists poll ::
      && WaitRun(WaitConfig(bill.creds, bill.invid, pid, None, true, pay, shop), d, poll)
      && r == OutcomeOf(poll, bill.creds, bill.invid)
  }

  ghost predicate IsPaymentRun(bill: Bill, shop: bool, d: seq<Event>, pay: PayBody) {
    if shop then SettleRun(bill, d, Some(pay)) else AutoPayRun(bill, d, pay)
  }

  /** Payment first, then the wait; no wait where payment has failed. */
  ghost predicate PaidRun(bill: Bill, pid: int, shop: bool, d: seq<Event>, r: Outcome) {
    || (shop && SettleRun(bill, d, None) && r.Aborted?)
    || exists n, pay ::
         0 <= n <= |d| && IsPaymentRun(bill, shop, d[..n], pay) && WaitsTo(bill, pid, pay, shop, d[n..], r)
  }

  ghost predicate PayAndWaitRun(env: Env, creds: Creds, invid: string, pid: int, shop: bool, d: seq<Event>,
                                r: Outcome) {
    match env.autoGateway
    case Some(gateway) => PaidRun(Bill(creds, invid, gateway), pid, shop, d, r)
    case None =>
      if shop || !env.gatewayPicker then d == [] && r.Aborted?
      else
        && |d| == 1 && d[0].GatewaysListed?
        && r == if d[0].gateways.Threw? || d[0].gateways.body == [] then Aborted else AwaitGateway(creds, invid)
  }

  lemma PaymentFailed(bill: Bill, pid: int, d: seq<Event>)
    requires SettleRun(bill, d, None)
    ensures PaidRun(bill, pid, true, d, Aborted)
  {
    hide SettleRun, WaitsTo;
  }

  lemma PaymentThenWait(bill: Bill, pid: int, shop: bool, p: seq<Event>, pay: PayBody, q: seq<Event>, poll: PollResult)
    requires if shop then SettleRun(bill, p, Some(pay)) else AutoPayRun(bill, p, pay)
    requires WaitRun(WaitConfig(bill.creds, bill.invid, pid, None, true, pay, shop), q, poll)
    ensures PaidRun(bill, pid, shop, p + q, OutcomeOf(poll, bill.creds, bill.invid))
  {
    hide SettleRun, AutoPayRun, WaitRun, WaitConfig, OutcomeOf;
    var d, n := p + q, |p|;
    assert d[..n] == p && d[n..] == q;
    assert IsPaymentRun(bill, shop, d[..n], pay);
    assert WaitsTo(bill, pid, pay, shop, d[n..], OutcomeOf(poll, bill.creds, bill.invid));
  }

  /** The last part of doNewPurchase, from the invoice id on. */
  method PayAndWait(api: Api, env: Env, creds: Creds, invid: string, pid: int, shop: bool)
    returns (r: Outcome, ghost d: seq<Event>)
    requires api.IsFaithful()
    modifies api
    ensures api.IsFaithful() && api.log == old(api.log) + d
    ensures PayAndWaitRun(env, creds, invid, pid, shop, d, r)
    ensures AllActAs(d, creds) && OnlyWrong(d)
    ensures shop ==> !r.AwaitGateway?
    ensures shop && r.Delivered? ==> SumOf(d) == ZERO
    ensures shop && env.autoGateway.None? ==> r.Aborted?
    ensures r.Delivered? ==> !PhpEmpty(r.link) && SawPaid(d, creds, invid)
    ensures !r.Aborted? ==> r.creds == creds && r.invid == invid
  {
    hide SumOf, AllActAs, OnlyWrong, SawPaid, PaidRun, SettleRun, AutoPayRun, WaitRun, WaitConfig, PhpEmpty, Follows;
    d := [];
    EmptySegment();
    QuietIsOnlyWrong(d);
    if env.autoGateway.Some? {
      var bill := Bill(creds, invid, env.autoGateway.value);
      var pay;
      if shop {
        var settled;
        settled, d := SettleForShop(api, bill);
        if settled.None? {
          PaymentFailed(bill, pid, d);
          return Aborted, d;
        }
        pay := settled.value;
      } else {
        pay, d := TryAutoPay(api, bill);
      }
      var poll;
      ghost var q;
      poll, q := WaitForLink(api, creds, invid, pid, None, true, pay, shop);
      LooksAfter(d, q, creds);
      SeenLater(d, q, creds, invid);
      PaymentThenWait(bill, pid, shop, d, pay, q, poll);
      d := d + q;
      r := match poll
           case Delivered(picked) => Outcome.Delivered(picked.link, picked.sid, creds, invid)
           case Failed(_) => Aborted;
    } else if !shop && env.gatewayPicker {
      var gateways := api.ListGateways();
      d := [GatewaysListed(gateways)];
      GatewaysActAsAnyone(d[0], creds);
      QuietIsOnlyWrong(d);
      r := if gateways.Threw? || gateways.body == [] then Aborted else AwaitGateway(creds, invid);
    } else {
      r := Aborted;
    }
  }

  /** What every run of doNewPurchase promises about the calls it made. */
  ghost predicate KeepsPromises(d: seq<Event>, r: Outcome, env: Env, shop: bool, allow: bool) {
    // Money already collected: the flow throws or delivers, and never on a wrong gateway's word.
    && (shop ==> !r.AwaitGateway?)
    && (shop && r.Delivered? ==> SumOf(d).wrong == 0)
    && (shop && env.autoGateway.None? ==> r.Aborted?)
    && (r.Delivered? ==> !PhpEmpty(r.link) && SawPaid(d, r.creds, r.invid))
    // The SQL shortcut to Paid is taken only where the flow is bound to throw.
    && (!r.Aborted? ==> SumOf(d).marks == 0)
    && (SumOf(d).marks > 0 ==> shop && env.autoGateway.None? && env.invoiceDbSync)
    // One wipe, nine registrations at most, and one identity for every call after the wipe.
    && 0 <= SumOf(d).clears <= One(allow)
    && 0 <= SumOf(d).registers <= (if allow then 9 else 1)
    && (!r.Aborted? ==> AllActAs(SinceClear(d), r.creds))
    // One invoice at most, and a throw where its id cannot be read.
    && 0 <= SumOf(d).ids <= SumOf(d).invoices <= 1
    && (SumOf(d).ids != SumOf(d).invoices ==> r.Aborted?)
  }

  lemma BillerAborts(d: seq<Event>, r: Outcome, env: Env, shop: bool, allow: bool)
    requires KeepsPromises(d, r, env, shop, allow)
    ensures shop && MeetsBiller(d) ==> r.Aborted?
  {
    hide SumOf, MeetsBiller, AllActAs, SinceClear, SawPaid;
    BillerIsCounted(d);
  }

  lemma AbortedAtOnce(d: seq<Event>, env: Env, shop: bool, allow: bool)
    requires OnlyCredentials(d, RegisterLimit(allow), 0)
    ensures KeepsPromises(d, Aborted, env, shop, allow) && SumOf(d).ids == 0 && SumOf(d).invoices == 0
  {
    hide SumOf, AllActAs, SinceClear;
  }

  lemma AbortedAtInvoice(first: seq<Event>, e: seq<Event>, env: Env, shop: bool, allow: bool)
    requires OnlyCredentials(first, RegisterLimit(allow), 0)
    requires SumOf(e).registers == 0 && SumOf(e).clears == 0 && SumOf(e).wrong == 0
    requires SumOf(e).marks == 0 && SumOf(e).ids == 0 <= SumOf(e).invoices <= 1
    ensures KeepsPromises(first + e, Aborted, env, shop, allow)
    ensures SumOf(first + e).ids == 0 && SumOf(first + e).invoices == SumOf(e).invoices
  {
    hide SumOf, AllActAs, SinceClear;
    SumOfConcat(first, e);
  }

  /** After a wipe the second pass speaks for the whole run. */
  lemma RestartKeepsPromises(a: seq<Event>, b: seq<Event>, r: Outcome, env: Env, shop: bool, stored: Stored,
                             left: Stored)
    requires SumOf(a).clears == 1 && 0 <= SumOf(a).registers <= ALTERNATE_ATTEMPTS
    requires SumOf(a).invoices == 0 && SumOf(a).ids == 0 && SumOf(a).marks == 0 && SumOf(a).wrong == 0
    requires SinceClear(a) == [] && KeepsPromises(b, r, env, shop, false)
    requires left.password == "" <==> !(IsMissing(stored) && SumOf(a).registers != 0)
    ensures KeepsPromises(a + b, r, env, shop, true)
    ensures SumOf(a + b).ids == SumOf(b).ids && SumOf(a + b).invoices == SumOf(b).invoices
    ensures SumOf(a + b).clears >= 1
    ensures Strays(a + b, stored, true) <==> Strays(b, left, false)
  {
    hide SumOf, AllActAs, SinceClear, SawPaid, RestartedAsTaken, Strays;
    RestartJoins(a, b);
    RestartStrays(a, b, stored, left);
  }

  lemma RestartAtOnce(first: seq<Event>, rest: seq<Event>, r: Outcome, env: Env, shop: bool, stored: Stored)
    requires OnlyCredentials(first, RegisterLimit(true), 1) && SumOf(first).registers == 0 && SinceClear(first) == []
    requires KeepsPromises(rest, r, env, shop, false)
    ensures KeepsPromises(first + rest, r, env, shop, true)
    ensures SumOf(first + rest).ids == SumOf(rest).ids && SumOf(first + rest).invoices == SumOf(rest).invoices
    ensures SumOf(first + rest).clears >= 1
    ensures Strays(first + rest, stored, true) <==> Strays(rest, Cleared(stored), false)
  {
    hide SumOf, SinceClear, KeepsPromises, Strays;
    RestartKeepsPromises(first, rest, r, env, shop, stored, Cleared(stored));
  }

  /** No wipe: registering, the invoice, the payment. */
  lemma StraightRunKeepsPromises(first: seq<Event>, e: seq<Event>, p: seq<Event>, creds: Creds, invid: string,
                                 r: Outcome, env: Env, shop: bool, allow: bool, stored: Stored)
    requires OnlyCredentials(first, RegisterLimit(allow), 0) && AllActAs(first, creds)
    requires AllActAs(e, creds) && SumOf(e).registers == 0 && SumOf(e).clears == 0 && SumOf(e).wrong == 0
    requires 0 <= SumOf(e).ids == SumOf(e).invoices <= 1
    requires SumOf(e).marks
             == (if SumOf(e).ids == 1 && shop && env.autoGateway.None? && env.invoiceDbSync then 1 else 0)
    requires AllActAs(p, creds) && OnlyWrong(p)
    requires shop ==> !r.AwaitGateway?
    requires shop && r.Delivered? ==> SumOf(p) == ZERO
    requires shop && env.autoGateway.None? ==> r.Aborted?
    requires r.Delivered? ==> !PhpEmpty(r.link) && SawPaid(p, creds, invid)
    requires !r.Aborted? ==> r.creds == creds && r.invid == invid
    ensures KeepsPromises(first + e + p, r, env, shop, allow)
    ensures SumOf(first + e + p).ids == SumOf(e).ids && SumOf(first + e + p).invoices == SumOf(e).invoices
    ensures Strays(first + e + p, stored, allow) <==> !allow && AnyTaken(first) && stored.password == ""
    ensures AnyTaken(first + e + p) <==> AnyTaken(first)
  {
    hide SumOf, AllActAs, SinceClear, SawPaid, HasClear, AnyTaken, Strays;
    var d := first + e + p;
    SumOfConcat(first, e);
    SumOfConcat(first + e, p);
    ActAsConcat(first, e, creds);
    ActAsConcat(first + e, p, creds);
    SeenLater(first + e, p, creds, invid);
    ClearFree(d);
    NoTakenLater(first, e);
    NoTakenLater(first + e, p);
    StraightPassStrays(first, e, p, stored, allow);
  }

  /** What a wipe leaves once the flow has had credentials: where those were saved through a copy of a user
      whose password column was NULL, the password stays. */
  function Wiped(stored: Stored, creds: Creds): Stored {
    if IsMissing(stored) then Stored(stored.idText, "", creds.password, false) else Cleared(stored)
  }

  /** A whole pass of doNewPurchase, from what is stored when it begins to its outcome, stage by stage;
      a restart is a second pass, without the right to restart, on a user without an address. */
  ghost predicate PurchaseRun(d: seq<Event>, env: Env, stored: Stored, reuse: Option<string>, pid: int, billing: string,
                              shop: bool, allow: bool, r: Outcome)
    decreases allow, 1
  {
    if Trim(env.domain) == "" then d == [] && r.Aborted?
    else
      exists n, found ::
        && 0 <= n <= |d| && CredentialsRun(d[..n], env, stored, allow, found)
        && AfterCredentials(d[n..], env, stored, reuse, pid, billing, shop, allow, found, r)
  }

  ghost predicate AfterCredentials(d: seq<Event>, env: Env, stored: Stored, reuse: Option<string>, pid: int,
                                   billing: string, shop: bool, allow: bool, found: CredResult, r: Outcome)
    decreases allow, 0
  {
    match found
    case NoCredentials => d == [] && r.Aborted?
    case Restart => allow && PurchaseRun(d, env, Cleared(stored), reuse, pid, billing, shop, false, r)
    case Ready(creds) =>
      exists n, invoice ::
        && 0 <= n <= |d| && InvoiceStage(d[..n], env, creds, pid, billing, shop, allow, reuse, invoice)
        && match invoice
           case NoInvoice => n == |d| && r.Aborted?
           case Again => allow && PurchaseRun(d[n..], env, Wiped(stored, creds), reuse, pid, billing, shop, false, r)
           case Have(invid) => PayAndWaitRun(env, creds, invid, pid, shop, d[n..], r)
  }

  lemma PassFrom(first: seq<Event>, rest: seq<Event>, env: Env, stored: Stored, reuse: Option<string>, pid: int,
                 billing: string, shop: bool, allow: bool, found: CredResult, r: Outcome)
    requires Trim(env.domain) != "" && CredentialsRun(first, env, stored, allow, found)
    requires AfterCredentials(rest, env, stored, reuse, pid, billing, shop, allow, found, r)
    ensures PurchaseRun(first + rest, env, stored, reuse, pid, billing, shop, allow, r)
  {
    hide CredentialsRun, AfterCredentials, Trim;
    assert (first + rest)[..|first|] == first && (first + rest)[|first|..] == rest;
  }

  lemma NoPass(env: Env, stored: Stored, reuse: Option<string>, pid: int, billing: string, shop: bool, allow: bool)
    ensures Trim(env.domain) == "" ==> PurchaseRun([], env, stored, reuse, pid, billing, shop, allow, Aborted)
    ensures AfterCredentials([], env, stored, reuse, pid, billing, shop, allow, NoCredentials, Aborted)
  {
    hide Trim;
  }

  lemma RestartAfterCredentials(d: seq<Event>, env: Env, stored: Stored, reuse: Option<string>, pid: int,
                                billing: string, shop: bool, r: Outcome)
    requires PurchaseRun(d, env, Cleared(stored), reuse, pid, billing, shop, false, r)
    ensures AfterCredentials(d, env, stored, reuse, pid, billing, shop, true, Restart, r)
  {
    hide PurchaseRun;
  }

  lemma InvoiceAfterCredentials(e: seq<Event>, p: seq<Event>, env: Env, stored: Stored, reuse: Option<string>, pid: int,
                                billing: string, shop: bool, allow: bool, creds: Creds, invoice: InvoiceResult,
                                r: Outcome)
    requires InvoiceStage(e, env, creds, pid, billing, shop, allow, reuse, invoice)
    requires match invoice
             case NoInvoice => p == [] && r.Aborted?
             case Again => allow && PurchaseRun(p, env, Wiped(stored, creds), reuse, pid, billing, shop, false, r)
             case Have(invid) => PayAndWaitRun(env, creds, invid, pid, shop, p, r)
    ensures AfterCredentials(e + p, env, stored, reuse, pid, billing, shop, allow, Ready(creds), r)
  {
    hide InvoiceStage, PurchaseRun, PayAndWaitRun;
    assert (e + p)[..|e|] == e && (e + p)[|e|..] == p;
  }

  /** doNewPurchase. The source calls it again with `allow` off only after wiping the user's address. */
  method DoNewPurchase(api: Api, env: Env, user: User, order: ShopOrder, pid: int, billing: string,
                       shop: bool, allow: bool)
    returns (r: Outcome, ghost d: seq<Event>)
    requires !allow ==> user.email == ""
    requires api.IsFaithful()
    modifies api, user, order
    decreases allow, 1
    ensures api.IsFaithful() && api.log == old(api.log) + d
    ensures PurchaseRun(d, env, old(StoredOf(user)), old(order.Reusable()), pid, billing, shop, allow, r)
    ensures KeepsPromises(d, r, env, shop, allow)
    // Money the shop holds is never paid twice: a gateway that bills the customer ends the flow.
    ensures shop && MeetsBiller(d) ==> r.Aborted?
    // The stored credentials are the ones the run used, unless a restart met a taken address.
    ensures !r.Aborted? ==> (user.Holds(r.creds) <==> !Strays(d, old(StoredOf(user)), allow))
    // Without a register call or a wipe the user stays as it was.
    ensures SumOf(d).registers == 0 && SumOf(d).clears == 0 ==> StoredOf(user) == old(StoredOf(user))
    // A user whose address is taken on the panel and whose password the shop does not have gets nowhere.
    ensures allow && old(user.IsCleared()) && SumOf(d).clears == 0 && AnyTaken(d) ==> r.Aborted?
    // An invoice id is stored when it is created, and used again while the order has no link.
    ensures order.config == old(order.config)
    ensures old(order.CanReuse()) ==> SumOf(d).invoices == 0
    ensures SumOf(d).ids == 0 ==> order.invId == old(order.invId) && order.maker == old(order.maker)
    ensures SumOf(d).ids == 1 ==> Trim(order.invId) != ""
    ensures !r.Aborted? ==> r.invid == Trim(order.invId)
    // The credentials of the run are those the invoice was made with, now or earlier.
    ensures !r.Aborted? && (SumOf(d).ids == 1 || old(Matches(user, order))) ==> r.creds == order.maker
    ensures old(Matches(user, order)) && !Strays(d, old(StoredOf(user)), allow) ==> Matches(user, order)
  {
    hide SumOf, AllActAs, SinceClear, HasClear, SawPaid, AnyTaken, Strays, RestartedAsTaken, KeepsPromises;
    hide OnlyCredentials, PurchaseRun, AfterCredentials, CredentialsRun, InvoiceStage, PayAndWaitRun, InvoiceCounts;
    hide OnlyWrong, Follows, Trim, Rehydrated, ZERO, MeetsBiller;
    d := [];
    ghost var stored, reuse := StoredOf(user), order.Reusable();
    EmptySegment();
    NothingDone(allow);
    NoPass(env, stored, reuse, pid, billing, shop, allow);
    if Trim(env.domain) == "" {
      AbortedAtOnce(d, env, shop, allow);
      return Aborted, d;
    }
    var _ := ResolvePassword(user);
    assert StoredOf(user) == stored;
    var found;
    ghost var first, rest;
    found, first := EnsureCredentials(api, env, user, allow);
    match found {
      case NoCredentials =>
        AbortedAtOnce(first, env, shop, allow);
        r, rest := Aborted, [];
        assert first + rest == first;
      case Restart =>
        r, rest := DoNewPurchase(api, env, user, order, pid, billing, shop, false);
        RestartAfterCredentials(rest, env, stored, reuse, pid, billing, shop, r);
        RestartAtOnce(first, rest, r, env, shop, stored);
      case Ready(creds) =>
        r, rest := BuyAs(api, env, user, order, creds, pid, billing, shop, allow, stored, first);
    }
    PassFrom(first, rest, env, stored, reuse, pid, billing, shop, allow, found, r);
    NothingRegistered(first, rest);
    d := first + rest;
    BillerAborts(d, r, env, shop, allow);
  }

  /** doNewPurchase once it has credentials; `first` is what it took to get them. */
  method BuyAs(api: Api, env: Env, user: User, order: ShopOrder, creds: Creds, pid: int, billing: string,
               shop: bool, allow: bool, ghost stored: Stored, ghost first: seq<Event>)
    returns (r: Outcome, ghost rest: seq<Event>)
    requires user.idText == stored.idText && creds.email != "" && (allow ==> user.Holds(creds))
    requires OnlyCredentials(first, RegisterLimit(allow), 0) && AllActAs(first, creds)
    requires user.Holds(creds) <==> !(!allow && AnyTaken(first) && stored.password == "")
    requires user.stale <==> IsMissing(stored)
    requires user.stale ==> allow && SumOf(first).registers > 0
    requires user.Holds(creds) || user.email == ""
    requires api.IsFaithful()
    modifies api, user, order
    decreases allow, 0
    ensures api.IsFaithful() && api.log == old(api.log) + rest
    ensures AfterCredentials(rest, env, stored, old(order.Reusable()), pid, billing, shop, allow, Ready(creds), r)
    ensures KeepsPromises(first + rest, r, env, shop, allow)
    ensures !r.Aborted? ==> (user.Holds(r.creds) <==> !Strays(first + rest, stored, allow))
    ensures SumOf(first + rest).clears == 0 ==> unchanged(user)
    ensures SumOf(first + rest).clears == 0 && AnyTaken(first + rest) ==> AnyTaken(first) || r.Aborted?
    ensures order.config == old(order.config)
    ensures old(order.CanReuse()) ==> SumOf(first + rest).invoices == 0
    ensures SumOf(first + rest).ids == 0 ==> order.invId == old(order.invId) && order.maker == old(order.maker)
    ensures SumOf(first + rest).ids == 1 ==> Trim(order.invId) != ""
    ensures !r.Aborted? ==> r.invid == Trim(order.invId)
    ensures !r.Aborted? && (SumOf(first + rest).ids == 1 || old(Matches(user, order))) ==> r.creds == order.maker
    ensures old(Matches(user, order)) && !Strays(first + rest, stored, allow) ==> Matches(user, order)
  {
    hide SumOf, AllActAs, SinceClear, HasClear, SawPaid, AnyTaken, Strays, RestartedAsTaken, KeepsPromises;
    hide OnlyCredentials, PurchaseRun, AfterCredentials, CredentialsRun, InvoiceStage, PayAndWaitRun, InvoiceCounts;
    hide OnlyWrong, Follows, Trim, Rehydrated;
    ghost var reused, reuse := order.CanReuse(), order.Reusable();
    assert creds == Creds(creds.email, creds.password);
    RehydratedTwice("", "");
    var invoice;
    ghost var e, later;
    invoice, e := EnsureInvoice(api, env, user, order, creds, pid, billing, shop, allow);
    StageCounts(e, reused, shop && env.autoGateway.None? && env.invoiceDbSync, invoice);
    match invoice {
      case NoInvoice =>
        AbortedAtInvoice(first, e, env, shop, allow);
        r, later := Aborted, [];
        assert first + (e + later) == first + e;
      case Again =>
        WipedAtInvoice(first, e);
        r, later := DoNewPurchase(api, env, user, order, pid, billing, shop, false);
        RestartKeepsPromises(first + e, later, r, env, shop, stored, Wiped(stored, creds));
        assert first + (e + later) == first + e + later;
      case Have(invid) =>
        r, later := PayAndWait(api, env, creds, invid, pid, shop);
        StraightRunKeepsPromises(first, e, later, creds, invid, r, env, shop, allow, stored);
        assert first + (e + later) == first + e + later;
    }
    InvoiceAfterCredentials(e, later, env, stored, reuse, pid, billing, shop, allow, creds, invoice, r);
    rest := e + later;
  }

  lemma NothingRegistered(first: seq<Event>, rest: seq<Event>)
    ensures SumOf(first + rest).registers == 0 ==> SumOf(first).registers == 0
  {
    hide SumOf;
    SumOfConcat(first, rest);
    RegisterFree(first);
    RegisterFree(rest);
  }

  lemma NothingDone(allow: bool)
    ensures OnlyCredentials([], RegisterLimit(allow), 0)
  {
  }

  lemma WipedAtInvoice(first: seq<Event>, e: seq<Event>)
    requires OnlyCredentials(first, RegisterLimit(true), 0)
    requires SumOf(e).registers == 0 && SumOf(e).clears == 1 && SumOf(e).wrong == 0
    requires SumOf(e).marks == 0 && SumOf(e).ids == 0 && SumOf(e).invoices == 0 && SinceClear(e) == []
    ensures SumOf(first + e).clears == 1
    ensures 0 <= SumOf(first + e).registers == SumOf(first).registers <= ALTERNATE_ATTEMPTS
    ensures SumOf(first + e).invoices == 0 && SumOf(first + e).ids == 0
    ensures SumOf(first + e).marks == 0 && SumOf(first + e).wrong == 0
    ensures SinceClear(first + e) == []
  {
    hide SumOf, SinceClear, HasClear;
    SumOfConcat(first, e);
    SinceClearConcat(first, e);
    ClearFree(e);
  }
}

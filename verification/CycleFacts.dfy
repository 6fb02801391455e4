/** Which billing cycle a whole purchase asks for first. */
module CycleFacts {
  import opened Text
  import opened Panel
  import opened Polling
  import opened PollingFacts
  import opened InvoicePay
  import opened Billing
  import opened BillingFacts
  import opened Tally
  import opened Credentials
  import opened Accounts
  import opened Invoicing
  import opened Payment
  import opened NewPurchase

  predicate MakesNothing(e: Event) {
    !e.CreateTried? && !e.PackageRead?
  }

  predicate AllMakeNothing(d: seq<Event>) {
    forall k :: 0 <= k < |d| ==> MakesNothing(d[k])
  }

  /** Whenever the panel has been asked about the package, the first cycle an invoice is asked for is the one to be
      tried first; and no invoice is asked for at the very start. */
  predicate TriesInOrder(d: seq<Event>, pid: int, billing: string) {
    && (d != [] ==> !d[0].CreateTried?)
    && (forall k :: 0 <= k < |d| && (d[k].PackageRead? || d[k].CreateTried?) ==> d[k].pid == pid)
    && forall k :: 1 <= k < |d| && d[k].CreateTried? && d[k - 1].PackageRead? ==>
         d[k].billing == FirstCycle(billing, d[k - 1].package)
  }

  lemma NothingInOrder(d: seq<Event>, pid: int, billing: string)
    requires AllMakeNothing(d)
    ensures TriesInOrder(d, pid, billing)
  {
    assert d != [] ==> MakesNothing(d[0]);
  }

  lemma OrderedInTurn(a: seq<Event>, b: seq<Event>, pid: int, billing: string)
    requires TriesInOrder(a, pid, billing) && TriesInOrder(b, pid, billing)
    ensures TriesInOrder(a + b, pid, billing)
  {
    hide FirstCycle;
    var d := a + b;
    forall k | 1 <= k < |d| && d[k].CreateTried? && d[k - 1].PackageRead?
      ensures d[k].billing == FirstCycle(billing, d[k - 1].package)
    {
      if k < |a| {
        assert d[k] == a[k] && d[k - 1] == a[k - 1];
      } else {
        assert d[k] == b[k - |a|] && (k > |a| ==> d[k - 1] == b[k - |a| - 1]);
      }
    }
    assert forall k :: |a| <= k < |d| ==> d[k] == b[k - |a|];
  }

  lemma SplitAt(d: seq<Event>, n: int)
    requires 0 <= n <= |d|
    ensures d == d[..n] + d[n..]
  {
  }

  // ---------------------------------------------------------------- stages that make nothing

  lemma CredentialsMakeNothing(d: seq<Event>, env: Env, stored: Stored, allow: bool, r: CredResult)
    requires CredentialsRun(d, env, stored, allow, r)
    ensures AllMakeNothing(d)
  {
    hide EmailAlreadyRegistered, EmailNotFound, InvalidPassword, ApiOk, Trim, Rehydrated, AsksForAnother;
    if stored.email != "" && stored.password == "" {
      var recovered :| RecoverRun(d, stored.email, env.domain, recovered) && r == FromRecovery(recovered);
      assert forall k :: 1 <= k < |d| ==> d[k] == d[1..][k - 1];
    }
  }

  lemma LooksMakeNothing(d: seq<Event>, creds: Creds)
    requires OnlyLooks(d, creds)
    ensures AllMakeNothing(d)
  {
    forall k | 0 <= k < |d|
      ensures MakesNothing(d[k])
    {
      assert IsLook(d[k], creds);
    }
  }

  lemma BillMakesNothing(bill: Bill, d: seq<Event>, r: Option<PayBody>)
    requires SettleRun(bill, d, r)
    ensures AllMakeNothing(d)
  {
    hide StrictRun, NeedsNoPay;
    if !NeedsNoPay(d[0]) {
      var pay :| StrictRun(bill, d[1..], pay) && r == Accepted(pay);
      StrictStaysOnBill(bill, d[1..], pay);
      forall k | 1 <= k < |d|
        ensures MakesNothing(d[k])
      {
        assert d[k] == d[1..][k - 1] && IsBillEvent(d[1..][k - 1], bill);
      }
    }
  }

  lemma WaitMakesNothing(cfg: PollConfig, d: seq<Event>, r: PollResult)
    requires WaitRun(cfg, d, r)
    ensures AllMakeNothing(d)
  {
    hide PollRun, Flatten;
    var rounds :| PollRun(cfg, rounds, r) && d == Flatten(cfg, rounds);
    PollOnlyLooks(cfg, rounds);
    LooksMakeNothing(d, cfg.creds);
  }

  lemma PayAndWaitMakesNothing(env: Env, creds: Creds, invid: string, pid: int, shop: bool, d: seq<Event>, r: Outcome)
    requires PayAndWaitRun(env, creds, invid, pid, shop, d, r)
    ensures AllMakeNothing(d)
  {
    hide SettleRun, WaitRun, WaitConfig;
    if env.autoGateway.Some? {
      var bill := Bill(creds, invid, env.autoGateway.value);
      if shop && SettleRun(bill, d, None) && r.Aborted? {
        BillMakesNothing(bill, d, None);
      } else {
        var n, pay :|
          0 <= n <= |d| && IsPaymentRun(bill, shop, d[..n], pay) && WaitsTo(bill, pid, pay, shop, d[n..], r);
        if shop {
          BillMakesNothing(bill, d[..n], Some(pay));
        }
        var poll :|
          && WaitRun(WaitConfig(bill.creds, bill.invid, pid, None, true, pay, shop), d[n..], poll)
          && r == OutcomeOf(poll, bill.creds, bill.invid);
        WaitMakesNothing(WaitConfig(bill.creds, bill.invid, pid, None, true, pay, shop), d[n..], poll);
        NothingInTurn(d, n);
      }
    }
  }

  lemma NothingInTurn(d: seq<Event>, n: int)
    requires 0 <= n <= |d| && AllMakeNothing(d[..n]) && AllMakeNothing(d[n..])
    ensures AllMakeNothing(d)
  {
    forall k | 0 <= k < |d|
      ensures MakesNothing(d[k])
    {
      assert d[k] == if k < n then d[..n][k] else d[n..][k - n];
    }
  }

  // ---------------------------------------------------------------- the search, and the whole purchase

  lemma SearchInOrder(creds: Creds, pid: int, billing: string, d: seq<Event>, r: CreateResult)
    requires CreateRun(creds, pid, billing, d, r)
    ensures TriesInOrder(d, pid, billing)
  {
    hide ApiOk, BillingUnavailable, CandidatesOf, Canonical, FirstCycle, OnlyAddsTraffic;
    FirstAttemptExactlyWhen(creds, pid, billing, d, r);
    assert forall k :: 1 <= k < |d| ==> d[k] == d[1..][k - 1];
  }

  lemma StageInOrder(d: seq<Event>, env: Env, creds: Creds, pid: int, billing: string, shop: bool, restart: bool,
                     reuse: Option<string>, r: InvoiceResult)
    requires InvoiceStage(d, env, creds, pid, billing, shop, restart, reuse, r)
    ensures TriesInOrder(d, pid, billing)
  {
    hide CreateRun, ApiOk, EmailNotFound, IdOf, FirstCycle;
    if reuse.None? {
      var mark := shop && env.autoGateway.None? && env.invoiceDbSync;
      var created, n :|
        && 0 <= n <= |d| && CreateRun(creds, pid, billing, d[..n], created)
        && InvoiceEnds(created, d[n..], mark, restart, r);
      SearchInOrder(creds, pid, billing, d[..n], created);
      NothingInOrder(d[n..], pid, billing);
      OrderedInTurn(d[..n], d[n..], pid, billing);
      SplitAt(d, n);
    }
  }

  /** In every run of doNewPurchase, restarts included, an invoice is asked for only after the package, and first for
      the cycle preferred by the plan where the package offers it or lists nothing, otherwise for the shortest one it
      offers. */
  lemma {:induction false} PurchaseTriesInOrder(d: seq<Event>, env: Env, stored: Stored, reuse: Option<string>,
                                                pid: int, billing: string, shop: bool, allow: bool, r: Outcome)
    requires PurchaseRun(d, env, stored, reuse, pid, billing, shop, allow, r)
    ensures TriesInOrder(d, pid, billing)
    decreases allow, 1
  {
    hide CredentialsRun, AfterCredentials, TriesInOrder, Trim;
    if Trim(env.domain) == "" {
      NothingInOrder(d, pid, billing);
    } else {
      var n, found :|
        && 0 <= n <= |d| && CredentialsRun(d[..n], env, stored, allow, found)
        && AfterCredentials(d[n..], env, stored, reuse, pid, billing, shop, allow, found, r);
      CredentialsMakeNothing(d[..n], env, stored, allow, found);
      NothingInOrder(d[..n], pid, billing);
      RestTriesInOrder(d[n..], env, stored, reuse, pid, billing, shop, allow, found, r);
      OrderedInTurn(d[..n], d[n..], pid, billing);
      SplitAt(d, n);
    }
  }

  lemma {:induction false} RestTriesInOrder(d: seq<Event>, env: Env, stored: Stored, reuse: Option<string>, pid: int,
                                            billing: string, shop: bool, allow: bool, found: CredResult, r: Outcome)
    requires AfterCredentials(d, env, stored, reuse, pid, billing, shop, allow, found, r)
    ensures TriesInOrder(d, pid, billing)
    decreases allow, 0
  {
    hide InvoiceStage, PurchaseRun, PayAndWaitRun, TriesInOrder;
    match found
    case NoCredentials => NothingInOrder(d, pid, billing);
    case Restart => PurchaseTriesInOrder(d, env, Cleared(stored), reuse, pid, billing, shop, false, r);
    case Ready(creds) =>
      var n, invoice :|
        && 0 <= n <= |d| && InvoiceStage(d[..n], env, creds, pid, billing, shop, allow, reuse, invoice)
        && match invoice
           case NoInvoice => n == |d| && r.Aborted?
           case Again => allow && PurchaseRun(d[n..], env, Wiped(stored, creds), reuse, pid, billing, shop, false, r)
           case Have(invid) => PayAndWaitRun(env, creds, invid, pid, shop, d[n..], r);
      StageInOrder(d[..n], env, creds, pid, billing, shop, allow, reuse, invoice);
      match invoice {
        case NoInvoice => NothingInOrder(d[n..], pid, billing);
        case Again =>
          PurchaseTriesInOrder(d[n..], env, Wiped(stored, creds), reuse, pid, billing, shop, false, r);
        case Have(invid) =>
          PayAndWaitMakesNothing(env, creds, invid, pid, shop, d[n..], r);
          NothingInOrder(d[n..], pid, billing);
      }
      OrderedInTurn(d[..n], d[n..], pid, billing);
      SplitAt(d, n);
  }
}

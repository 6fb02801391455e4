/** Paying an invoice whose money the shop already holds: nothing counts but evidence. */
module InvoicePay {
  import opened Panel

  const PAY_RETRIES := 3
  const RECOVERY_VIEWS := 8

  datatype Bill = Bill(creds: Creds, invid: string, gateway: int)

  // ---------------------------------------------------------------- the shape of a run

  predicate IsPayOf(e: Event, bill: Bill) {
    e.PayTried? && e.creds == bill.creds && e.invid == bill.invid && e.gateway == bill.gateway
  }

  predicate IsViewOf(e: Event, bill: Bill) {
    e.Viewed? && e.creds == bill.creds && e.invid == bill.invid
  }

  predicate ShowsPaid(e: Event) {
    e.Viewed? && e.view.Got? && ViewIsPaid(e.view.body)
  }

  predicate ShowsSuccess(e: Event) {
    e.PayTried? && e.pay.Got? && PayLooksSuccessful(e.pay.body)
  }

  /** What the shop accepts as proof that the invoice is settled. */
  predicate IsEvidence(e: Event) {
    ShowsPaid(e) || ShowsSuccess(e)
  }

  /** Up to n looks at the invoice. */
  predicate RecoveryRun(bill: Bill, d: seq<Event>, pay: PayBody, n: nat, r: Option<PayBody>) {
    if n == 0 then d == [] && r == None
    else
      && d != [] && IsViewOf(d[0], bill)
      && if ShowsPaid(d[0]) then |d| == 1 && r == Some(Recovered(pay))
         else RecoveryRun(bill, d[1..], pay, n - 1, r)
  }

  predicate ClosingRun(bill: Bill, d: seq<Event>, pay: PayBody, r: Option<PayBody>) {
    if PayBodyIsEmpty(pay) then RecoveryRun(bill, d, pay, RECOVERY_VIEWS, r) else d == [] && r == None
  }

  /** Up to n times a look and then another try; `pay` is the last body received. */
  predicate RetryRun(bill: Bill, d: seq<Event>, pay: PayBody, n: nat, r: Option<PayBody>) {
    if n == 0 then ClosingRun(bill, d, pay, r)
    else
      && d != [] && IsViewOf(d[0], bill)
      && if ShowsPaid(d[0]) then |d| == 1 && r == Some(Recovered(pay))
         else
           && |d| > 1 && IsPayOf(d[1], bill)
           && match d[1].pay
              case Threw(_) => RetryRun(bill, d[2..], pay, n - 1, r)
              case Got(again) =>
                if PayLooksSuccessful(again) then |d| == 2 && r == Some(again)
                else if PayBodyIsEmpty(again) then RetryRun(bill, d[2..], again, n - 1, r)
                else ClosingRun(bill, d[2..], again, r)
  }

  /** A whole run: the calls made, and the accepted reply, None when the routine throws. */
  predicate StrictRun(bill: Bill, d: seq<Event>, r: Option<PayBody>) {
    && d != [] && IsPayOf(d[0], bill)
    && match d[0].pay
       case Threw(_) => |d| == 1 && r == None
       case Got(pay) =>
         if PayLooksSuccessful(pay) then |d| == 1 && r == Some(pay)
         else if PayBodyIsEmpty(pay) then RetryRun(bill, d[1..], pay, PAY_RETRIES, r)
         else ClosingRun(bill, d[1..], pay, r)
  }

  // ---------------------------------------------------------------- the source's loops

  /** After the calls `d`, whatever is a retry run from here completes a strict run. */
  ghost predicate RetriesFrom(bill: Bill, d: seq<Event>, pay: PayBody, n: nat) {
    forall t, r :: RetryRun(bill, t, pay, n, r) ==> StrictRun(bill, d + t, r)
  }

  ghost predicate ClosesFrom(bill: Bill, d: seq<Event>, pay: PayBody) {
    forall t, r :: ClosingRun(bill, t, pay, r) ==> StrictRun(bill, d + t, r)
  }

  lemma RetriesFromStart(bill: Bill, e: Event)
    requires IsPayOf(e, bill) && e.pay.Got? && !PayLooksSuccessful(e.pay.body) && PayBodyIsEmpty(e.pay.body)
    ensures RetriesFrom(bill, [e], e.pay.body, PAY_RETRIES)
  {
    hide PayLooksSuccessful, PayBodyIsEmpty, RetryRun;
    forall t, r | RetryRun(bill, t, e.pay.body, PAY_RETRIES, r)
      ensures StrictRun(bill, [e] + t, r)
    {
      assert ([e] + t)[1..] == t;
    }
  }

  lemma ClosesFromStart(bill: Bill, e: Event)
    requires IsPayOf(e, bill) && e.pay.Got? && !PayLooksSuccessful(e.pay.body) && !PayBodyIsEmpty(e.pay.body)
    ensures ClosesFrom(bill, [e], e.pay.body)
  {
    hide PayLooksSuccessful, PayBodyIsEmpty, ClosingRun;
    forall t, r | ClosingRun(bill, t, e.pay.body, r)
      ensures StrictRun(bill, [e] + t, r)
    {
      assert ([e] + t)[1..] == t;
    }
  }

  /** One unpaid look and one more try lead to the next retry, or out of the loop. */
  lemma RetryStep(bill: Bill, d: seq<Event>, pay: PayBody, n: nat, look: Event, try_: Event)
    requires RetriesFrom(bill, d, pay, n + 1)
    requires IsViewOf(look, bill) && !ShowsPaid(look) && IsPayOf(try_, bill)
    ensures try_.pay.Threw? ==> RetriesFrom(bill, d + [look, try_], pay, n)
    ensures try_.pay.Got? && PayLooksSuccessful(try_.pay.body) ==>
              StrictRun(bill, d + [look, try_], Some(try_.pay.body))
    ensures try_.pay.Got? && !PayLooksSuccessful(try_.pay.body) ==>
              if PayBodyIsEmpty(try_.pay.body) then RetriesFrom(bill, d + [look, try_], try_.pay.body, n)
              else ClosesFrom(bill, d + [look, try_], try_.pay.body)
  {
    hide PayLooksSuccessful, PayBodyIsEmpty, StrictRun, ClosingRun, ShowsPaid;
    var pair := [look, try_];
    forall t: seq<Event>
      ensures (d + pair) + t == d + (pair + t)
      ensures (pair + t)[2..] == t && (pair + t)[0] == look && (pair + t)[1] == try_
    {
    }
    assert pair + [] == pair;
    if try_.pay.Got? && PayLooksSuccessful(try_.pay.body) {
      assert RetryRun(bill, pair, pay, n + 1, Some(try_.pay.body));
    } else {
      var next := if try_.pay.Threw? then pay else try_.pay.body;
      forall t, r
        ensures RetryRun(bill, t, next, n, r) && (try_.pay.Threw? || PayBodyIsEmpty(next))
                ==> StrictRun(bill, (d + pair) + t, r)
        ensures ClosingRun(bill, t, next, r) && !(try_.pay.Threw? || PayBodyIsEmpty(next))
                ==> StrictRun(bill, (d + pair) + t, r)
      {
        if try_.pay.Threw? || PayBodyIsEmpty(next) {
          if RetryRun(bill, t, next, n, r) {
            assert RetryRun(bill, pair + t, pay, n + 1, r);
          }
        } else if ClosingRun(bill, t, next, r) {
          assert RetryRun(bill, pair + t, pay, n + 1, r);
        }
      }
    }
  }

  lemma RetryFindsPaid(bill: Bill, d: seq<Event>, pay: PayBody, n: nat, look: Event)
    requires RetriesFrom(bill, d, pay, n + 1) && IsViewOf(look, bill) && ShowsPaid(look)
    ensures StrictRun(bill, d + [look], Some(Recovered(pay)))
  {
    hide StrictRun, ShowsPaid;
    assert RetryRun(bill, [look], pay, n + 1, Some(Recovered(pay)));
  }

  lemma RetriesExhausted(bill: Bill, d: seq<Event>, pay: PayBody)
    requires RetriesFrom(bill, d, pay, 0)
    ensures ClosesFrom(bill, d, pay)
  {
    hide StrictRun, ClosingRun;
  }

  lemma ClosingCompletes(bill: Bill, d: seq<Event>, pay: PayBody, t: seq<Event>, r: Option<PayBody>)
    requires ClosesFrom(bill, d, pay) && ClosingRun(bill, t, pay, r)
    ensures StrictRun(bill, d + t, r)
  {
    hide StrictRun, ClosingRun;
  }

  /** A look at the invoice, then t: how a recovery run grows at its end. */
  lemma {:induction false} RecoveryGrows(bill: Bill, t: seq<Event>, pay: PayBody, n: nat, look: Event)
    requires RecoveryRun(bill, t, pay, n, None)
    requires IsViewOf(look, bill)
    ensures |t| == n
    ensures RecoveryRun(bill, t + [look], pay, n + 1, if ShowsPaid(look) then Some(Recovered(pay)) else None)
    ensures ShowsPaid(look) ==>
              forall m :: m > n ==> RecoveryRun(bill, t + [look], pay, m, Some(Recovered(pay)))
  {
    hide ShowsPaid;
    if n > 0 {
      RecoveryGrows(bill, t[1..], pay, n - 1, look);
      assert (t + [look])[1..] == t[1..] + [look];
      if ShowsPaid(look) {
        forall m | m > n
          ensures RecoveryRun(bill, t + [look], pay, m, Some(Recovered(pay)))
        {
          assert RecoveryRun(bill, t[1..] + [look], pay, m - 1, Some(Recovered(pay)));
        }
      }
    } else {
      assert t + [look] == [look] && [look][1..] == [];
      assert RecoveryRun(bill, [], pay, 0, None);
    }
  }

  /** recoverShopInvoicePayAfterEmptyResponse. */
  method RecoverAfterEmptyResponse(api: Api, bill: Bill, pay: PayBody)
    returns (r: Option<PayBody>, ghost t: seq<Event>)
    requires api.IsFaithful()
    modifies api
    ensures api.IsFaithful() && api.log == old(api.log) + t
    ensures ClosingRun(bill, t, pay, r)
  {
    hide ShowsPaid;
    t := [];
    if !PayBodyIsEmpty(pay) {
      return None, [];
    }
    for i := 0 to RECOVERY_VIEWS
      invariant api.IsFaithful() && api.log == old(api.log) + t
      invariant RecoveryRun(bill, t, pay, i, None)
    {
      var view := api.InvoiceView(bill.creds, bill.invid);
      ghost var look := Viewed(bill.creds, bill.invid, view);
      RecoveryGrows(bill, t, pay, i, look);
      t := t + [look];
      if view.Got? && ViewIsPaid(view.body) {
        assert ShowsPaid(look) by { PaidViewShows(look); }
        return Some(Recovered(pay)), t;
      }
      assert !ShowsPaid(look) by { PaidViewShows(look); }
    }
    r := None;
  }

  lemma PaidViewShows(e: Event)
    requires e.Viewed?
    ensures ShowsPaid(e) <==> e.view.Got? && ViewIsPaid(e.view.body)
  {
  }

  /** runInvoicePayStrictForShopCollected; None where the source throws. */
  method RunInvoicePayStrict(api: Api, bill: Bill) returns (r: Option<PayBody>, ghost d: seq<Event>)
    requires api.IsFaithful()
    modifies api
    ensures api.IsFaithful() && api.log == old(api.log) + d
    ensures StrictRun(bill, d, r)
  {
    hide RetriesFrom, ClosesFrom, RetryRun, ClosingRun, ShowsPaid, PayLooksSuccessful, PayBodyIsEmpty;
    var first := api.InvoicePay(bill.creds, bill.invid, bill.gateway);
    d := [PayTried(bill.creds, bill.invid, bill.gateway, first)];
    if first.Threw? {
      return None, d;
    }
    var pay := first.body;
    if PayLooksSuccessful(pay) {
      return Some(pay), d;
    }
    if PayBodyIsEmpty(pay) {
      RetriesFromStart(bill, d[0]);
      var retry := 1;
      var leave := false;
      while retry <= PAY_RETRIES && !leave
        invariant 1 <= retry <= PAY_RETRIES + 1
        invariant api.IsFaithful() && api.log == old(api.log) + d
        invariant if leave then ClosesFrom(bill, d, pay) else RetriesFrom(bill, d, pay, PAY_RETRIES + 1 - retry)
        decreases PAY_RETRIES + 1 - retry, !leave
      {
        ghost var left := PAY_RETRIES - retry;
        var view := api.InvoiceView(bill.creds, bill.invid);
        ghost var look := Viewed(bill.creds, bill.invid, view);
        PaidViewShows(look);
        if view.Got? && ViewIsPaid(view.body) {
          RetryFindsPaid(bill, d, pay, left, look);
          return Some(Recovered(pay)), d + [look];
        }
        var again := api.InvoicePay(bill.creds, bill.invid, bill.gateway);
        ghost var tried := PayTried(bill.creds, bill.invid, bill.gateway, again);
        RetryStep(bill, d, pay, left, look, tried);
        d := d + [look, tried];
        if again.Got? {
          if PayLooksSuccessful(again.body) {
            return Some(again.body), d;
          }
          pay := again.body;
          leave := !PayBodyIsEmpty(pay);
        }
        if !leave {
          retry := retry + 1;
        }
      }
      if !leave {
        RetriesExhausted(bill, d, pay);
      }
    } else {
      ClosesFromStart(bill, d[0]);
    }
    ghost var t;
    r, t := RecoverAfterEmptyResponse(api, bill, pay);
    ClosingCompletes(bill, d, pay, t, r);
    d := d + t;
  }

  // ---------------------------------------------------------------- what every run promises

  function PayCalls(d: seq<Event>): nat {
    if d == [] then 0 else (if d[0].PayTried? then 1 else 0) + PayCalls(d[1..])
  }

  function ViewCalls(d: seq<Event>): nat {
    if d == [] then 0 else (if d[0].Viewed? then 1 else 0) + ViewCalls(d[1..])
  }

  /** Evidence stands at the end of the trace or nowhere, and the routine returns exactly on it. */
  predicate EndsOnEvidence(d: seq<Event>, r: Option<PayBody>) {
    && (forall k :: 0 <= k < |d| - 1 ==> !IsEvidence(d[k]))
    && (r.Some? <==> d != [] && IsEvidence(d[|d| - 1]))
    && (r.Some? ==> PayLooksSuccessful(r.value))
  }

  lemma EvidenceLater(e: Event, t: seq<Event>, r: Option<PayBody>)
    requires !IsEvidence(e) && EndsOnEvidence(t, r)
    ensures EndsOnEvidence([e] + t, r)
  {
    hide IsEvidence, PayLooksSuccessful;
    var d := [e] + t;
    assert d[0] == e && forall k :: 0 < k < |d| ==> d[k] == t[k - 1];
  }

  lemma RecoveredSucceeds(pay: PayBody)
    ensures PayLooksSuccessful(Recovered(pay))
  {
  }

  lemma EvidenceNow(e: Event, pay: PayBody)
    requires IsEvidence(e) && PayLooksSuccessful(pay)
    ensures EndsOnEvidence([e], Some(pay))
  {
  }

  lemma {:induction false} RecoveryEndsOnEvidence(bill: Bill, d: seq<Event>, pay: PayBody, n: nat, r: Option<PayBody>)
    requires RecoveryRun(bill, d, pay, n, r) && PayBodyIsEmpty(pay)
    ensures EndsOnEvidence(d, r)
  {
    hide PayBodyIsEmpty, PayLooksSuccessful, ViewIsPaid;
    RecoveredSucceeds(pay);
    if n > 0 {
      assert d == [d[0]] + d[1..];
      if ShowsPaid(d[0]) {
        EvidenceNow(d[0], Recovered(pay));
      } else {
        RecoveryEndsOnEvidence(bill, d[1..], pay, n - 1, r);
        EvidenceLater(d[0], d[1..], r);
      }
    }
  }

  lemma ClosingEndsOnEvidence(bill: Bill, d: seq<Event>, pay: PayBody, r: Option<PayBody>)
    requires ClosingRun(bill, d, pay, r)
    ensures EndsOnEvidence(d, r)
  {
    hide PayBodyIsEmpty, PayLooksSuccessful;
    if PayBodyIsEmpty(pay) {
      RecoveryEndsOnEvidence(bill, d, pay, RECOVERY_VIEWS, r);
    }
  }

  lemma {:induction false} RetryEndsOnEvidence(bill: Bill, d: seq<Event>, pay: PayBody, n: nat, r: Option<PayBody>)
    requires RetryRun(bill, d, pay, n, r) && PayBodyIsEmpty(pay)
    ensures EndsOnEvidence(d, r)
  {
    hide PayBodyIsEmpty, PayLooksSuccessful, ClosingRun, ViewIsPaid, EndsOnEvidence;
    RecoveredSucceeds(pay);
    if n == 0 {
      ClosingEndsOnEvidence(bill, d, pay, r);
    } else {
      assert d == [d[0]] + d[1..];
      if ShowsPaid(d[0]) {
        EvidenceNow(d[0], Recovered(pay));
        assert d == [d[0]];
      } else {
        var rest := d[2..];
        assert d[1..] == [d[1]] + rest;
        if ShowsSuccess(d[1]) {
          EvidenceNow(d[1], d[1].pay.body);
          assert d[1..] == [d[1]];
        } else {
          if d[1].pay.Threw? {
            RetryEndsOnEvidence(bill, rest, pay, n - 1, r);
          } else if PayBodyIsEmpty(d[1].pay.body) {
            RetryEndsOnEvidence(bill, rest, d[1].pay.body, n - 1, r);
          } else {
            ClosingEndsOnEvidence(bill, rest, d[1].pay.body, r);
          }
          EvidenceLater(d[1], rest, r);
        }
        EvidenceLater(d[0], d[1..], r);
      }
    }
  }

  /** The strict routine returns exactly when it has seen a successful pay reply or a Paid invoice,
      makes no call after that, and what it returns passes as successful. */
  lemma StrictReturnsOnEvidence(bill: Bill, d: seq<Event>, r: Option<PayBody>)
    ensures StrictRun(bill, d, r) ==> EndsOnEvidence(d, r)
  {
    hide PayBodyIsEmpty, PayLooksSuccessful, ClosingRun, RetryRun, ViewIsPaid, EndsOnEvidence;
    if StrictRun(bill, d, r) {
      assert d == [d[0]] + d[1..];
      if ShowsSuccess(d[0]) {
        EvidenceNow(d[0], d[0].pay.body);
        assert d == [d[0]];
      } else {
        if d[0].pay.Threw? {
          assert EndsOnEvidence([], r) by { NothingSeen(r); }
        } else if PayBodyIsEmpty(d[0].pay.body) {
          RetryEndsOnEvidence(bill, d[1..], d[0].pay.body, PAY_RETRIES, r);
        } else {
          ClosingEndsOnEvidence(bill, d[1..], d[0].pay.body, r);
        }
        EvidenceLater(d[0], d[1..], r);
      }
    }
  }

  lemma NothingSeen(r: Option<PayBody>)
    requires r == None
    ensures EndsOnEvidence([], r)
  {
  }

  lemma {:induction false} RecoveryCalls(bill: Bill, d: seq<Event>, pay: PayBody, n: nat, r: Option<PayBody>)
    requires RecoveryRun(bill, d, pay, n, r)
    ensures PayCalls(d) == 0 && ViewCalls(d) == |d| <= n
    ensures r == None ==> |d| == n
  {
    hide ShowsPaid;
    if n > 0 && !ShowsPaid(d[0]) {
      RecoveryCalls(bill, d[1..], pay, n - 1, r);
    } else if n > 0 {
      assert d[1..] == [];
    }
  }

  lemma ClosingCalls(bill: Bill, d: seq<Event>, pay: PayBody, r: Option<PayBody>)
    requires ClosingRun(bill, d, pay, r)
    ensures PayCalls(d) == 0 && ViewCalls(d) <= RECOVERY_VIEWS
    ensures r == None && PayBodyIsEmpty(pay) ==> ViewCalls(d) == RECOVERY_VIEWS
  {
    hide PayBodyIsEmpty;
    if PayBodyIsEmpty(pay) {
      RecoveryCalls(bill, d, pay, RECOVERY_VIEWS, r);
    }
  }

  predicate AllPaysEmpty(d: seq<Event>) {
    forall k :: 0 <= k < |d| && d[k].PayTried? ==> d[k].pay.Got? && PayBodyIsEmpty(d[k].pay.body)
  }

  lemma {:induction false} RetryCalls(bill: Bill, d: seq<Event>, pay: PayBody, n: nat, r: Option<PayBody>)
    requires RetryRun(bill, d, pay, n, r) && PayBodyIsEmpty(pay)
    ensures PayCalls(d) <= n && ViewCalls(d) <= n + RECOVERY_VIEWS
    ensures r == None && AllPaysEmpty(d) ==> PayCalls(d) == n && ViewCalls(d) == n + RECOVERY_VIEWS
  {
    hide PayBodyIsEmpty, PayLooksSuccessful, ClosingRun, ShowsPaid;
    if n == 0 {
      ClosingCalls(bill, d, pay, r);
    } else if ShowsPaid(d[0]) {
      assert d[1..] == [];
    } else {
      var rest := d[2..];
      assert d[1..][1..] == rest && d[1..][0] == d[1];
      assert PayCalls(d) == 1 + PayCalls(rest) && ViewCalls(d) == 1 + ViewCalls(rest) by {
        assert PayCalls(d[1..]) == 1 + PayCalls(rest) && ViewCalls(d[1..]) == ViewCalls(rest);
      }
      assert AllPaysEmpty(d) ==> AllPaysEmpty(rest);
      if d[1].pay.Threw? {
        RetryCalls(bill, rest, pay, n - 1, r);
      } else if PayLooksSuccessful(d[1].pay.body) {
        assert rest == [];
      } else if PayBodyIsEmpty(d[1].pay.body) {
        RetryCalls(bill, rest, d[1].pay.body, n - 1, r);
      } else {
        ClosingCalls(bill, rest, d[1].pay.body, r);
      }
    }
  }

  /** At most four tries to pay and eleven looks; a panel that answers nothing but empty bodies and
      never reports Paid gets exactly that many before the routine throws. */
  lemma StrictCallsAreBounded(bill: Bill, d: seq<Event>, r: Option<PayBody>)
    ensures StrictRun(bill, d, r) ==>
              && 1 <= PayCalls(d) <= 4 && ViewCalls(d) <= 11
              && (r == None && AllPaysEmpty(d) ==> PayCalls(d) == 4 && ViewCalls(d) == 11)
  {
    hide PayBodyIsEmpty, PayLooksSuccessful, ClosingRun, RetryRun;
    if StrictRun(bill, d, r) {
      assert AllPaysEmpty(d) ==> AllPaysEmpty(d[1..]);
      if d[0].pay.Threw? || PayLooksSuccessful(d[0].pay.body) {
        assert d[1..] == [];
      } else if PayBodyIsEmpty(d[0].pay.body) {
        RetryCalls(bill, d[1..], d[0].pay.body, PAY_RETRIES, r);
      } else {
        ClosingCalls(bill, d[1..], d[0].pay.body, r);
      }
    }
  }

  // ---------------------------------------------------------------- wrong gateways

  predicate IsWrongGateway(pay: PayBody) {
    PayIsCustomerSide(pay) || PayIsCard2Card(pay)
  }

  /** No reply in the trace came from a gateway that leaves the bill with the customer. */
  predicate NoWrongGateway(d: seq<Event>) {
    forall k :: 0 <= k < |d| && d[k].PayTried? && d[k].pay.Got? ==> !IsWrongGateway(d[k].pay.body)
  }

  lemma {:induction false} RecoveryHasNoPay(bill: Bill, d: seq<Event>, pay: PayBody, n: nat, r: Option<PayBody>)
    requires RecoveryRun(bill, d, pay, n, r)
    ensures NoWrongGateway(d)
  {
    hide IsWrongGateway, ShowsPaid;
    if n > 0 && !ShowsPaid(d[0]) {
      RecoveryHasNoPay(bill, d[1..], pay, n - 1, r);
      assert forall k :: 0 < k < |d| ==> d[k] == d[1..][k - 1];
    }
  }

  /** A reply that is neither successful nor empty sinks the run, so it cannot precede a return. */
  lemma {:induction false} RetryIsClean(bill: Bill, d: seq<Event>, pay: PayBody, n: nat, r: Option<PayBody>)
    requires RetryRun(bill, d, pay, n, r) && r.Some? && !IsWrongGateway(r.value) && PayBodyIsEmpty(pay)
    ensures NoWrongGateway(d)
  {
    hide IsWrongGateway, ShowsPaid, PayLooksSuccessful, PayBodyIsEmpty;
    if n == 0 {
      RecoveryHasNoPay(bill, d, pay, RECOVERY_VIEWS, r);
    } else if !ShowsPaid(d[0]) {
      assert forall k :: 1 < k < |d| ==> d[k] == d[2..][k - 2];
      if d[1].pay.Threw? {
        RetryIsClean(bill, d[2..], pay, n - 1, r);
      } else if !PayLooksSuccessful(d[1].pay.body) {
        assert PayBodyIsEmpty(d[1].pay.body);
        EmptyIsNotWrong(d[1].pay.body);
        RetryIsClean(bill, d[2..], d[1].pay.body, n - 1, r);
      }
    }
  }

  lemma EmptyIsNotWrong(pay: PayBody)
    requires PayBodyIsEmpty(pay)
    ensures !IsWrongGateway(pay)
  {
    EmptyBodyIsSafe(pay);
  }

  /** When the accepted reply is not from a wrong gateway, no reply in the whole run was. */
  lemma AcceptedMeansClean(bill: Bill, d: seq<Event>, r: Option<PayBody>)
    ensures StrictRun(bill, d, r) && r.Some? && !IsWrongGateway(r.value) ==> NoWrongGateway(d)
  {
    hide IsWrongGateway, PayLooksSuccessful, PayBodyIsEmpty, RetryRun;
    if StrictRun(bill, d, r) && r.Some? && !IsWrongGateway(r.value) {
      assert forall k :: 0 < k < |d| ==> d[k] == d[1..][k - 1];
      if !PayLooksSuccessful(d[0].pay.body) {
        assert PayBodyIsEmpty(d[0].pay.body);
        EmptyIsNotWrong(d[0].pay.body);
        RetryIsClean(bill, d[1..], d[0].pay.body, PAY_RETRIES, r);
      }
    }
  }

  /** Where the accepted reply comes from: it is the last reply received, or it was made up from an
      empty one after the invoice was seen Paid. */
  lemma AcceptedReplyIsReal(bill: Bill, d: seq<Event>, r: Option<PayBody>)
    ensures StrictRun(bill, d, r) && r.Some? ==>
              || (ShowsSuccess(d[|d| - 1]) && r.value == d[|d| - 1].pay.body)
              || (ShowsPaid(d[|d| - 1])
                  && exists k :: 0 <= k < |d| && d[k].PayTried? && d[k].pay.Got?
                                 && PayBodyIsEmpty(d[k].pay.body) && r.value == Recovered(d[k].pay.body))
  {
    hide PayLooksSuccessful, PayBodyIsEmpty, RetryRun, ViewIsPaid;
    if StrictRun(bill, d, r) && r.Some? && !PayLooksSuccessful(d[0].pay.body) {
      assert PayBodyIsEmpty(d[0].pay.body);
      assert d[1..] == d[1..];
      RetryReplyIsReal(bill, d, 1, d[0].pay.body, PAY_RETRIES, r);
    }
  }

  ghost predicate ComesFrom(d: seq<Event>, r: PayBody) {
    || (d != [] && ShowsSuccess(d[|d| - 1]) && r == d[|d| - 1].pay.body)
    || (d != [] && ShowsPaid(d[|d| - 1])
        && exists k :: 0 <= k < |d| && d[k].PayTried? && d[k].pay.Got?
                       && PayBodyIsEmpty(d[k].pay.body) && r == Recovered(d[k].pay.body))
  }

  lemma {:induction false} RecoveryEndsPaid(bill: Bill, d: seq<Event>, pay: PayBody, n: nat, r: Option<PayBody>)
    requires RecoveryRun(bill, d, pay, n, r) && r.Some?
    ensures d != [] && ShowsPaid(d[|d| - 1]) && r.value == Recovered(pay)
  {
    hide ShowsPaid;
    if n > 0 && !ShowsPaid(d[0]) {
      RecoveryEndsPaid(bill, d[1..], pay, n - 1, r);
    }
  }

  lemma {:induction false} RetryReplyIsReal(bill: Bill, d: seq<Event>, from: nat, pay: PayBody, n: nat,
                                            r: Option<PayBody>)
    requires 0 < from <= |d| && r.Some?
    requires RetryRun(bill, d[from..], pay, n, r) && PayBodyIsEmpty(pay)
    requires exists k :: 0 <= k < from && d[k].PayTried? && d[k].pay.Got? && d[k].pay.body == pay
    ensures ComesFrom(d, r.value)
    decreases n
  {
    hide PayLooksSuccessful, PayBodyIsEmpty, ShowsPaid;
    var rest := d[from..];
    if n == 0 {
      RecoveryEndsPaid(bill, rest, pay, RECOVERY_VIEWS, r);
      assert d[|d| - 1] == rest[|rest| - 1];
    } else if ShowsPaid(rest[0]) {
      assert d[|d| - 1] == rest[0];
    } else {
      assert rest[2..] == d[from + 2..] && rest[1] == d[from + 1];
      if rest[1].pay.Threw? {
        RetryReplyIsReal(bill, d, from + 2, pay, n - 1, r);
      } else if PayLooksSuccessful(rest[1].pay.body) {
        assert d[|d| - 1] == rest[1];
      } else {
        assert PayBodyIsEmpty(rest[1].pay.body);
        RetryReplyIsReal(bill, d, from + 2, rest[1].pay.body, n - 1, r);
      }
    }
  }
}

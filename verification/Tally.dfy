/** Adding up what a trace of calls did. */
module Tally {
  import opened Text
  import opened Numbers
  import opened Panel
  import opened Billing
  import opened InvoicePay
  import opened PollingFacts
  import opened ReplyFacts

  /** The id the shop reads out of an invoice/create reply: a text id at either place, a numeric one
      only at the top. */
  function IdOf(api: ApiBody): string {
    var found := if api.invid.NoId? then api.dataInvid else api.invid;
    Trim(if found.TextId? && found.text != "" then found.text
         else if api.invid.NoId? then ""
         else api.invid.text)
  }

  /** An accepted invoice/create that hands the shop a usable id. */
  predicate YieldsId(e: Event) {
    IsAccepted(e) && IdOf(e.created.body) != ""
  }

  /** Registrations, wiped credentials, invoices the panel made, those of them whose id the shop can read,
      rows marked Paid by SQL, and pay replies from a gateway that bills the customer again. */
  datatype Sum = Sum(registers: int, clears: int, invoices: int, ids: int, marks: int, wrong: int) {
    function Plus(other: Sum): Sum {
      Sum(registers + other.registers, clears + other.clears, invoices + other.invoices, ids + other.ids,
          marks + other.marks, wrong + other.wrong)
    }
  }

  const ZERO := Sum(0, 0, 0, 0, 0, 0)

  predicate IsWrongReply(e: Event) {
    e.PayTried? && e.pay.Got? && IsWrongGateway(e.pay.body)
  }

  function SumOfEvent(e: Event): Sum {
    Sum(One(e.RegisterTried?), One(e.CredentialsCleared?), One(IsAccepted(e)), One(YieldsId(e)), One(e.MarkedPaid?),
        One(IsWrongReply(e)))
  }

  function SumOf(d: seq<Event>): Sum {
    if d == [] then ZERO else SumOf(d[..|d| - 1]).Plus(SumOfEvent(d[|d| - 1]))
  }

  lemma PlusIsAssociative(a: Sum, b: Sum, c: Sum)
    ensures a.Plus(b).Plus(c) == a.Plus(b.Plus(c)) && a.Plus(ZERO) == a
  {
  }

  lemma {:induction false} SumOfConcat(a: seq<Event>, b: seq<Event>)
    ensures SumOf(a + b) == SumOf(a).Plus(SumOf(b))
  {
    hide SumOfEvent, Sum.Plus, ZERO;
    if b == [] {
      assert a + b == a;
      PlusIsAssociative(SumOf(a), ZERO, ZERO);
    } else {
      var front, last := b[..|b| - 1], b[|b| - 1];
      assert (a + b)[..|a + b| - 1] == a + front && (a + b)[|a + b| - 1] == last;
      SumOfConcat(a, front);
      PlusIsAssociative(SumOf(a), SumOf(front), SumOfEvent(last));
    }
  }

  lemma SumOfAppend(d: seq<Event>, e: Event)
    ensures SumOf(d + [e]) == SumOf(d).Plus(SumOfEvent(e))
  {
    hide SumOfEvent;
    assert (d + [e])[..|d|] == d;
  }

  /** Events that neither create nor pay count by their kind alone. */
  lemma SumOfPlainEvent(e: Event)
    requires !e.CreateTried? && !e.PayTried?
    ensures SumOfEvent(e)
            == ZERO.(registers := One(e.RegisterTried?), clears := One(e.CredentialsCleared?),
                     marks := One(e.MarkedPaid?))
  {
  }

  lemma SumOfOne(e: Event)
    ensures SumOf([e]) == SumOfEvent(e)
  {
    hide SumOfEvent;
    assert [e][..0] == [];
  }

  /** Looks and payment attempts leave every count where it was. */
  lemma {:induction false} QuietSum(d: seq<Event>)
    requires forall k :: 0 <= k < |d| ==> SumOfEvent(d[k]) == ZERO
    ensures SumOf(d) == ZERO
  {
    hide SumOfEvent, Sum.Plus, ZERO;
    if d != [] {
      QuietSum(d[..|d| - 1]);
      PlusIsAssociative(ZERO, ZERO, ZERO);
    }
  }

  // ---------------------------------------------------------------- whose credentials

  /** Calls about invoices and the account are made as `creds`; registering, probing with a made-up
      password and reading packages are not such calls. */
  predicate ActsAs(e: Event, creds: Creds) {
    match e
    case Viewed(c, _, _) => c == creds
    case PayTried(c, _, _, _) => c == creds
    case ServiceRead(c, _, _) => c == creds
    case InvoicesListed(c, _) => c == creds
    case CreateTried(c, _, _, _) => c == creds
    case RenewTried(c, _, _) => c == creds
    case _ => true
  }

  predicate AllActAs(d: seq<Event>, creds: Creds) {
    forall k :: 0 <= k < |d| ==> ActsAs(d[k], creds)
  }

  lemma ActAsConcat(a: seq<Event>, b: seq<Event>, creds: Creds)
    ensures AllActAs(a + b, creds) <==> AllActAs(a, creds) && AllActAs(b, creds)
  {
    hide ActsAs;
    var d := a + b;
    assert forall k :: 0 <= k < |a| ==> d[k] == a[k];
    assert forall k :: 0 <= k < |b| ==> d[|a| + k] == b[k];
    assert forall k :: |a| <= k < |d| ==> d[k] == b[k - |a|];
  }

  /** The part of a trace after its last CredentialsCleared. */
  function SinceClear(d: seq<Event>): (t: seq<Event>)
    ensures |t| <= |d|
  {
    if d == [] || d[|d| - 1].CredentialsCleared? then []
    else SinceClear(d[..|d| - 1]) + [d[|d| - 1]]
  }

  predicate HasClear(d: seq<Event>) {
    d != [] && (d[|d| - 1].CredentialsCleared? || HasClear(d[..|d| - 1]))
  }

  lemma {:induction false} SinceClearConcat(a: seq<Event>, b: seq<Event>)
    ensures SinceClear(a + b) == if HasClear(b) then SinceClear(b) else SinceClear(a) + b
  {
    if b == [] {
      assert a + b == a;
    } else {
      var front, last := b[..|b| - 1], b[|b| - 1];
      assert (a + b)[..|a + b| - 1] == a + front && (a + b)[|a + b| - 1] == last;
      SinceClearConcat(a, front);
      assert SinceClear(a) + front + [last] == SinceClear(a) + b;
    }
  }

  lemma KindCounts(e: Event)
    ensures SumOfEvent(e).registers == One(e.RegisterTried?) && SumOfEvent(e).clears == One(e.CredentialsCleared?)
  {
    hide YieldsId, IsWrongReply;
  }

  lemma {:induction false} ClearFree(d: seq<Event>)
    ensures SumOf(d).clears >= 0
    ensures SumOf(d).clears == 0 <==> !HasClear(d)
    ensures SumOf(d).clears == 0 ==> SinceClear(d) == d
  {
    hide SumOfEvent;
    if d != [] {
      KindCounts(d[|d| - 1]);
      ClearFree(d[..|d| - 1]);
    }
  }

  lemma {:induction false} RegisterFree(d: seq<Event>)
    ensures SumOf(d).registers >= 0
    ensures SumOf(d).registers == 0 ==> forall k :: 0 <= k < |d| ==> !d[k].RegisterTried?
  {
    hide SumOfEvent;
    if d != [] {
      var front, last := d[..|d| - 1], d[|d| - 1];
      KindCounts(last);
      RegisterFree(front);
      assert forall k :: 0 <= k < |d| - 1 ==> d[k] == front[k];
    }
  }

  // ---------------------------------------------------------------- segments of a run

  /** What polling and the strict pay routine leave behind. */
  lemma PollSegment(d: seq<Event>, creds: Creds)
    requires OnlyLooks(d, creds)
    ensures SumOf(d) == ZERO && AllActAs(d, creds)
  {
    hide SumOf, SumOfEvent;
    forall k | 0 <= k < |d|
      ensures SumOfEvent(d[k]) == ZERO
    {
      SumOfPlainEvent(d[k]);
    }
    QuietSum(d);
  }

  predicate IsBillEvent(e: Event, bill: Bill) {
    IsPayOf(e, bill) || IsViewOf(e, bill)
  }

  lemma {:induction false} RecoveryStaysOnBill(bill: Bill, d: seq<Event>, pay: PayBody, n: nat, r: Option<PayBody>)
    requires RecoveryRun(bill, d, pay, n, r)
    ensures forall k :: 0 <= k < |d| ==> IsBillEvent(d[k], bill)
  {
    hide ShowsPaid;
    if n > 0 && !ShowsPaid(d[0]) {
      RecoveryStaysOnBill(bill, d[1..], pay, n - 1, r);
      assert forall k :: 0 < k < |d| ==> d[k] == d[1..][k - 1];
    }
  }

  lemma {:induction false} RetryStaysOnBill(bill: Bill, d: seq<Event>, pay: PayBody, n: nat, r: Option<PayBody>)
    requires RetryRun(bill, d, pay, n, r)
    ensures forall k :: 0 <= k < |d| ==> IsBillEvent(d[k], bill)
  {
    hide ShowsPaid, PayLooksSuccessful, PayBodyIsEmpty;
    if n == 0 {
      if PayBodyIsEmpty(pay) {
        RecoveryStaysOnBill(bill, d, pay, RECOVERY_VIEWS, r);
      }
    } else if !ShowsPaid(d[0]) {
      assert forall k :: 1 < k < |d| ==> d[k] == d[2..][k - 2];
      if d[1].pay.Threw? {
        RetryStaysOnBill(bill, d[2..], pay, n - 1, r);
      } else if !PayLooksSuccessful(d[1].pay.body) {
        if PayBodyIsEmpty(d[1].pay.body) {
          RetryStaysOnBill(bill, d[2..], d[1].pay.body, n - 1, r);
        }
      }
    }
  }

  lemma StrictStaysOnBill(bill: Bill, d: seq<Event>, r: Option<PayBody>)
    requires StrictRun(bill, d, r)
    ensures forall k :: 0 <= k < |d| ==> IsBillEvent(d[k], bill)
  {
    hide ShowsPaid, PayLooksSuccessful, PayBodyIsEmpty, RetryRun;
    assert forall k :: 0 < k < |d| ==> d[k] == d[1..][k - 1];
    if d[0].pay.Got? && !PayLooksSuccessful(d[0].pay.body) && PayBodyIsEmpty(d[0].pay.body) {
      RetryStaysOnBill(bill, d[1..], d[0].pay.body, PAY_RETRIES, r);
    }
  }

  lemma BillEventIsQuiet(e: Event, bill: Bill)
    requires IsBillEvent(e, bill)
    ensures SumOfEvent(e) == ZERO.(wrong := One(IsWrongReply(e))) && ActsAs(e, bill.creds)
  {
    hide IsWrongReply;
    if e.PayTried? {
      assert !IsAccepted(e);
    } else {
      SumOfPlainEvent(e);
      assert !IsWrongReply(e) by { OnlyPaysAreWrong(e); }
    }
  }

  lemma OnlyPaysAreWrong(e: Event)
    requires !e.PayTried?
    ensures !IsWrongReply(e)
  {
  }

  /** A strict run moves no count but that of wrong gateways, and not even that one when the reply it
      accepts is not from such a gateway. */
  lemma StrictSegment(bill: Bill, d: seq<Event>, r: Option<PayBody>)
    requires StrictRun(bill, d, r)
    ensures AllActAs(d, bill.creds)
    ensures SumOf(d) == ZERO.(wrong := SumOf(d).wrong)
    ensures r.Some? && !IsWrongGateway(r.value) ==> SumOf(d) == ZERO
  {
    hide StrictRun, IsBillEvent, SumOfEvent, ActsAs, IsWrongGateway, SumOf;
    StrictStaysOnBill(bill, d, r);
    forall k | 0 <= k < |d|
      ensures SumOfEvent(d[k]) == ZERO.(wrong := One(IsWrongReply(d[k]))) && ActsAs(d[k], bill.creds)
    {
      BillEventIsQuiet(d[k], bill);
    }
    OnlyWrongSum(d);
    if r.Some? && !IsWrongGateway(r.value) {
      AcceptedMeansClean(bill, d, r);
      QuietSum(d);
    }
  }

  lemma {:induction false} OnlyWrongSum(d: seq<Event>)
    requires forall k :: 0 <= k < |d| ==> SumOfEvent(d[k]) == ZERO.(wrong := One(IsWrongReply(d[k])))
    ensures SumOf(d) == ZERO.(wrong := SumOf(d).wrong)
  {
    hide SumOfEvent, IsWrongReply;
    if d != [] {
      OnlyWrongSum(d[..|d| - 1]);
    }
  }

  /** A reply from a gateway that bills the customer is counted. */
  lemma {:induction false} BillerIsCounted(d: seq<Event>)
    ensures SumOf(d).wrong >= 0 && (MeetsBiller(d) ==> SumOf(d).wrong > 0)
  {
    hide MeetsBiller, SumOfEvent, IsWrongReply;
    if d == [] {
      NoBillerYet();
    } else {
      var front, last := d[..|d| - 1], d[|d| - 1];
      BillerIsCounted(front);
      WrongIsCounted(last);
      assert d == front + [last];
      BillerIsSomewhere(front, last);
    }
  }

  lemma NoBillerYet()
    ensures !MeetsBiller([])
  {
  }

  lemma BillerIsSomewhere(d: seq<Event>, e: Event)
    ensures MeetsBiller(d + [e]) ==> MeetsBiller(d) || IsWrongReply(e)
  {
    hide BillsCustomer, IsWrongGateway;
    var longer := d + [e];
    if MeetsBiller(longer) {
      var k :| 0 <= k < |longer| && longer[k].PayTried? && longer[k].pay.Got? && BillsCustomer(longer[k].pay.body);
      if k < |d| {
        assert longer[k] == d[k];
      } else {
        BillsCustomerExactlyWhen(e.pay.body);
      }
    }
  }

  lemma WrongIsCounted(e: Event)
    ensures SumOfEvent(e).wrong == One(IsWrongReply(e))
  {
    hide YieldsId, IsWrongReply;
  }
}

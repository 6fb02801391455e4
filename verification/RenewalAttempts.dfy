/** Renewal invoices for the same order again and again: how many of them the panel ends up with. */
module RenewalAttempts {
  import opened Text
  import opened Numbers
  import opened Panel
  import opened Tally
  import opened Credentials
  import opened Invoicing
  import opened Payment
  import opened ServiceRules
  import opened Enforcement
  import opened Renewal
  import opened RenewalFacts
  import opened WebCheckout
  import opened WebRenewal
  import opened Attempts

  /** An accepted service/renew makes an invoice, whatever its reply says of it. */
  predicate IsRenewal(e: Event) {
    e.RenewTried? && e.renewed.Got? && ApiOk(e.renewed.body)
  }

  function Asks(d: seq<Event>): (n: int)
    ensures n >= 0
  {
    if d == [] then 0 else Asks(d[..|d| - 1]) + One(d[|d| - 1].RenewTried?)
  }

  function Renewals(d: seq<Event>): (n: int)
    ensures 0 <= n <= Asks(d)
  {
    if d == [] then 0 else Renewals(d[..|d| - 1]) + One(IsRenewal(d[|d| - 1]))
  }

  lemma {:induction false} CountsAddUp(a: seq<Event>, b: seq<Event>)
    ensures Asks(a + b) == Asks(a) + Asks(b) && Renewals(a + b) == Renewals(a) + Renewals(b)
  {
    hide IsRenewal;
    if b == [] {
      assert a + b == a;
    } else {
      assert (a + b)[..|a + b| - 1] == a + b[..|b| - 1];
      CountsAddUp(a, b[..|b| - 1]);
    }
  }

  lemma {:induction false} NoAskNoRenewal(d: seq<Event>)
    requires AsksNoRenewal(d)
    ensures Asks(d) == 0
  {
    if d != [] {
      assert forall k :: 0 <= k < |d| - 1 ==> d[..|d| - 1][k] == d[k];
      NoAskNoRenewal(d[..|d| - 1]);
    }
  }

  lemma OneAsk(e: Event)
    requires e.RenewTried?
    ensures Asks([e]) == 1 && Renewals([e]) == One(IsRenewal(e))
  {
    assert [e][..0] == [];
  }

  // ---------------------------------------------------------------- one attempt

  /** Every renewal the panel accepts comes with an id the shop can read. */
  predicate AllNamed(d: seq<Event>) {
    forall k :: 0 <= k < |d| && IsRenewal(d[k]) ==> RenewalIdOf(d[k].renewed.body) != ""
  }

  /** Every look at an invoice shows it Pending and linked. */
  predicate AllOfferable(d: seq<Event>) {
    forall k :: 0 <= k < |d| && d[k].Viewed? ==> IsOfferable(d[k])
  }

  lemma FlagsAddUp(a: seq<Event>, b: seq<Event>)
    ensures AllNamed(a + b) <==> AllNamed(a) && AllNamed(b)
    ensures AllOfferable(a + b) <==> AllOfferable(a) && AllOfferable(b)
  {
    hide IsRenewal, IsOfferable, RenewalIdOf;
    var d := a + b;
    assert forall k :: 0 <= k < |a| ==> d[k] == a[k];
    assert forall k :: 0 <= k < |b| ==> d[|a| + k] == b[k];
    assert forall k :: |a| <= k < |d| ==> d[k] == b[k - |a|];
  }

  lemma NoAskIsNamed(d: seq<Event>)
    requires AsksNoRenewal(d)
    ensures AllNamed(d)
  {
    hide RenewalIdOf;
  }

  /** No renewal was made, and what was stored still is. */
  predicate KeepsInvoice(d: seq<Event>, existing: string, left: string) {
    existing == "" || (Renewals(d) == 0 && left == existing)
  }

  /** One question at most. What is stored afterwards was stored before, or is the readable id of a renewal just
      made. Settling gives a stored invoice up only where the panel disowns it, the checkout (`web`) only where
      it is not shown Pending and linked. */
  predicate AsksOnce(d: seq<Event>, existing: string, left: string, web: bool) {
    && Asks(d) <= 1
    && (Renewals(d) == 1 ==> (left != "" <==> AllNamed(d)))
    && (Renewals(d) == 0 ==> AllNamed(d) && (left == "" || left == existing))
    && (!web && !AnyDisowns(d) ==> KeepsInvoice(d, existing, left))
    && (web && AllOfferable(d) ==> KeepsInvoice(d, existing, left))
  }

  lemma QuietAsksOnce(d: seq<Event>, existing: string, web: bool)
    requires AsksNoRenewal(d)
    ensures AsksOnce(d, existing, existing, web)
  {
    hide AsksNoRenewal, Asks, Renewals, AllNamed, AnyDisowns, AllOfferable;
    NoAskNoRenewal(d);
    NoAskIsNamed(d);
  }

  lemma BetweenQuiet(a: seq<Event>, d: seq<Event>, b: seq<Event>, existing: string, left: string, web: bool)
    requires AsksNoRenewal(a) && AsksNoRenewal(b) && AsksOnce(d, existing, left, web)
    ensures AsksOnce(a + (d + b), existing, left, web)
  {
    hide AsksNoRenewal, Asks, Renewals, AllNamed, AnyDisowns, AllOfferable;
    var later := d + b;
    NoAskNoRenewal(a);
    NoAskNoRenewal(b);
    NoAskIsNamed(a);
    NoAskIsNamed(b);
    CountsAddUp(d, b);
    CountsAddUp(a, later);
    FlagsAddUp(d, b);
    FlagsAddUp(a, later);
    DisownedLater(d, b);
    DisownedLater(a, later);
  }

  lemma InvoiceAsksOnce(d: seq<Event>, creds: Creds, sid: int, stored: string, sync: bool, mark: bool,
                        r: Option<string>)
    requires RenewalInvoiceRun(d, creds, sid, stored, sync, mark, r)
    ensures AsksOnce(d, stored, Kept(r), false)
  {
    hide CheckRun, RenewRun, AsksNoRenewal, AsksOnce, Linking, AnyDisowns;
    var n :| && 0 <= n <= |d| && CheckRun(d[..n], creds, sid, stored)
             && var kept := KeptInvoice(d[..n], stored);
                if kept != "" then d[n..] == Linking(sync, kept, sid) && r == Some(kept)
                else RenewRun(d[n..], creds, sid, sync, mark, r);
    var c, t := d[..n], d[n..];
    assert c + t == d;
    CheckAsks(c, creds, sid, stored);
    if KeptInvoice(c, stored) != "" {
      LinkingAsks(sync, stored, sid);
      InTurn(c, t);
      QuietAsksOnce(d, stored, false);
    } else {
      RenewAsksOnce(t, creds, sid, sync, mark, r);
      AskedAfterCheck(c, t, stored, Kept(r));
    }
  }

  lemma AskedAfterCheck(c: seq<Event>, t: seq<Event>, stored: string, left: string)
    requires AsksNoRenewal(c) && (stored == "" || AnyDisowns(c))
    requires Asks(t) == 1 && if left != "" then Renewals(t) == 1 && AllNamed(t) else Renewals(t) == 1 ==> !AllNamed(t)
    requires Renewals(t) == 0 ==> AllNamed(t)
    ensures AsksOnce(c + t, stored, left, false)
  {
    hide AsksNoRenewal, Asks, Renewals, AllNamed, AnyDisowns;
    NoAskNoRenewal(c);
    NoAskIsNamed(c);
    CountsAddUp(c, t);
    FlagsAddUp(c, t);
    DisownedLater(c, t);
  }

  lemma RenewAsksOnce(t: seq<Event>, creds: Creds, sid: int, sync: bool, mark: bool, r: Option<string>)
    requires RenewRun(t, creds, sid, sync, mark, r)
    ensures Asks(t) == 1 && Renewals(t) == One(r.Some?)
    ensures AllNamed(t) <==> r != Some("")
  {
    hide ApiOk, RenewalIdOf, Asks, Renewals, AllNamed;
    OneAsk(t[0]);
    assert t == [t[0]] + t[1..];
    CountsAddUp([t[0]], t[1..]);
    FlagsAddUp([t[0]], t[1..]);
    NoAskNoRenewal(t[1..]);
    NoAskIsNamed(t[1..]);
    OneIsNamed(t[0]);
  }

  lemma OneIsNamed(e: Event)
    ensures AllNamed([e]) <==> (IsRenewal(e) ==> RenewalIdOf(e.renewed.body) != "")
  {
    hide RenewalIdOf, IsRenewal;
    assert [e][0] == e;
  }

  lemma RenewalAsksOnce(env: Env, stored: Stored, original: Original, existing: string, left: string, pid: int,
                        shop: bool, changed: bool, d: seq<Event>, tail: seq<Event>, r: Outcome)
    requires RenewalRun(env, stored, original, existing, left, pid, shop, changed, d, tail, r)
    ensures AsksOnce(d, existing, left, false)
  {
    hide PrepareRun, RenewalInvoiceRun, AfterInvoice, AsksNoRenewal, AsksOnce, MarksRenewal;
    if PrepareRun(d, stored, original, None) && left == existing {
      PrepareStage(d, stored, original, None);
      QuietAsksOnce(d, existing, false);
    } else {
      var n, creds :|
        && 0 <= n <= |d| && PrepareRun(d[..n], stored, original, Some(creds)) && original.sid.Some?
        && AfterPrepare(env, creds, original.sid.value, existing, left, pid, shop, changed, d[n..], tail, r);
      var sid, e := original.sid.value, d[n..];
      PrepareStage(d[..n], stored, original, Some(creds));
      var m, invoice :|
        && 0 <= m <= |e| && left == Kept(invoice)
        && RenewalInvoiceRun(e[..m], creds, sid, existing, env.invoiceDbSync, MarksRenewal(env, shop), invoice)
        && AfterInvoice(env, creds, sid, pid, shop, changed, invoice, e[m..], tail, r);
      InvoiceAsksOnce(e[..m], creds, sid, existing, env.invoiceDbSync, MarksRenewal(env, shop), invoice);
      EndStage(env, creds, sid, pid, shop, changed, invoice, e[m..], tail, r);
      BetweenQuiet(d[..n], e[..m], e[m..], existing, left, false);
      assert e[..m] + e[m..] == e && d[..n] + e == d;
    }
  }

  lemma WebAsksOnce(d: seq<Event>, stored: Stored, original: Original, existing: string, left: string, r: WebResult)
    requires WebRenewalRun(d, stored, original, existing, left, r)
    ensures AsksOnce(d, existing, left, true)
  {
    hide PrepareRun, AsksNoRenewal, AsksOnce, WebRenews;
    if PrepareRun(d, stored, original, None) && left == existing {
      PrepareStage(d, stored, original, None);
      QuietAsksOnce(d, existing, true);
    } else {
      var n, creds :|
        && 0 <= n <= |d| && PrepareRun(d[..n], stored, original, Some(creds)) && original.sid.Some?
        && WebRenews(d[n..], creds, original.sid.value, existing, left, r);
      PrepareStage(d[..n], stored, original, Some(creds));
      WebRenewsOnce(d[n..], creds, original.sid.value, existing, left, r);
      AsksOfNothing();
      BetweenQuiet(d[..n], d[n..], [], existing, left, true);
      assert d[n..] + [] == d[n..] && d[..n] + d[n..] == d;
    }
  }

  lemma WebRenewsOnce(d: seq<Event>, creds: Creds, sid: int, existing: string, left: string, r: WebResult)
    requires WebRenews(d, creds, sid, existing, left, r)
    ensures AsksOnce(d, existing, left, true)
  {
    hide AsksOnce, WebAsks;
    if existing == "" {
      WebAsksNamed(d, creds, sid, left, r);
      AskedByWeb([], d, existing, left);
      assert [] + d == d;
    } else {
      assert d == [d[0]] + d[1..];
      if IsOfferable(d[0]) {
        QuietAsksOnce(d, existing, true);
      } else {
        WebAsksNamed(d[1..], creds, sid, left, r);
        AskedByWeb([d[0]], d[1..], existing, left);
      }
    }
  }

  lemma WebAsksNamed(d: seq<Event>, creds: Creds, sid: int, left: string, r: WebResult)
    requires WebAsks(d, creds, sid, left, r)
    ensures Asks(d) == 1 && if left != "" then Renewals(d) == 1 && AllNamed(d) else Renewals(d) == 1 ==> !AllNamed(d)
    ensures Renewals(d) == 0 ==> AllNamed(d)
  {
    hide Asks, Renewals, AllNamed, ApiOk, Trim;
    TrimOfEmpty();
    OneAsk(d[0]);
    OneIsNamed(d[0]);
    assert d == [d[0]];
  }

  lemma AskedByWeb(look: seq<Event>, t: seq<Event>, existing: string, left: string)
    requires if existing == "" then look == [] else |look| == 1 && look[0].Viewed? && !IsOfferable(look[0])
    requires Asks(t) == 1 && if left != "" then Renewals(t) == 1 && AllNamed(t) else Renewals(t) == 1 ==> !AllNamed(t)
    requires Renewals(t) == 0 ==> AllNamed(t)
    ensures AsksOnce(look + t, existing, left, true)
  {
    hide Asks, Renewals, AllNamed, IsOfferable;
    NoAskNoRenewal(look);
    NoAskIsNamed(look);
    CountsAddUp(look, t);
    FlagsAddUp(look, t);
  }

  // ---------------------------------------------------------------- counting answers

  /** How the panel meets one attempt: as it meets one at a purchase, and whether it disowns the stored invoice.
      The checkout does not look for that. */
  datatype RenewalAnswer = RenewalAnswer(common: Answer, disowns: bool)

  predicate IsUsable(stored: bool, entry: Entry, a: RenewalAnswer) {
    stored && (entry.Checkout? || !a.disowns)
  }

  /** Settling uses a stored invoice again unless it is disowned, the checkout only one that is kept as Pending. */
  predicate MakesRenewal(stored: bool, entry: Entry, a: RenewalAnswer) {
    Makes(IsUsable(stored, entry, a), entry, a.common)
  }

  predicate RenewalStored(stored: bool, entry: Entry, a: RenewalAnswer) {
    if entry.Fulfilment? then stored else StoredAfter(IsUsable(stored, entry, a), entry, a.common)
  }

  /** Renewal invoices on the panel after a sequence of attempts that ends with the first one delivered. */
  function RenewalsMade(stored: bool, entries: seq<Entry>, answers: seq<RenewalAnswer>): int
    requires |answers| == |entries|
    decreases |entries|
  {
    if entries == [] then 0
    else
      One(MakesRenewal(stored, entries[0], answers[0]))
      + if GoesOn(entries[0], answers[0].common)
        then RenewalsMade(RenewalStored(stored, entries[0], answers[0]), entries[1..], answers[1..])
        else 0
  }

  predicate NoneDisowned(answers: seq<RenewalAnswer>) {
    forall k :: 0 <= k < |answers| ==> !answers[k].disowns
  }

  predicate AllKept(answers: seq<Answer>) {
    forall k :: 0 <= k < |answers| ==> answers[k].keeps
  }

  function Commons(answers: seq<RenewalAnswer>): (commons: seq<Answer>)
    ensures |commons| == |answers|
  {
    seq(|answers|, i requires 0 <= i < |answers| => answers[i].common)
  }

  /** A panel that disowns no invoice ends up with as many as for a new purchase. */
  lemma {:induction false} UnlessDisowned(stored: bool, entries: seq<Entry>, answers: seq<RenewalAnswer>)
    requires |answers| == |entries| && NoneDisowned(answers)
    ensures RenewalsMade(stored, entries, answers) == InvoicesMade(stored, entries, Commons(answers))
    decreases |entries|
  {
    hide Makes, StoredAfter;
    if entries != [] {
      var later := answers[1..];
      assert Commons(answers)[1..] == Commons(later);
      assert forall k :: 0 <= k < |later| ==> later[k] == answers[k + 1];
      assert entries[0].Fulfilment? ==> StoredAfter(stored, entries[0], answers[0].common) == stored by {
        RollbackKeepsStored(stored, entries[0], answers[0].common);
      }
      UnlessDisowned(RenewalStored(stored, entries[0], answers[0]), entries[1..], later);
    }
  }

  lemma RollbackKeepsStored(stored: bool, entry: Entry, a: Answer)
    ensures entry.Fulfilment? ==> StoredAfter(stored, entry, a) == stored
  {
  }

  predicate OnlyLastFulfils(entries: seq<Entry>) {
    forall k :: 0 <= k < |entries| - 1 ==> !entries[k].Fulfilment?
  }

  lemma {:induction false} KeptIsEnough(entries: seq<Entry>, answers: seq<Answer>)
    requires |answers| == |entries| && AllKept(answers)
    ensures InvoicesMade(true, entries, answers) == 0
  {
    if entries != [] {
      assert forall k :: 0 <= k < |entries| - 1 ==> answers[1..][k] == answers[k + 1];
      KeptIsEnough(entries[1..], answers[1..]);
    }
  }

  lemma {:induction false} AtMostOneKept(entries: seq<Entry>, answers: seq<Answer>)
    requires |answers| == |entries| && AllKept(answers) && AllReadable(answers) && OnlyLastFulfils(entries)
    ensures 0 <= InvoicesMade(false, entries, answers) <= 1
  {
    if entries != [] {
      var more := entries[1..];
      assert forall k :: 0 <= k < |more| ==> more[k] == entries[k + 1] && answers[1..][k] == answers[k + 1];
      AtMostOneKept(more, answers[1..]);
      KeptIsEnough(more, answers[1..]);
      if more == [] {
        assert forall stored :: InvoicesMade(stored, more, answers[1..]) == 0;
      }
    }
  }

  /** Enough for one renewal invoice: none disowned, all named, and attempts in a safe order; or, where the
      checkout always finds the stored invoice Pending, fulfilment last. */
  lemma AtMostOneRenewal(entries: seq<Entry>, answers: seq<RenewalAnswer>)
    requires |answers| == |entries| && NoneDisowned(answers) && AllReadable(Commons(answers))
    ensures IsSafe(entries) || (AllKept(Commons(answers)) && OnlyLastFulfils(entries)) ==>
              RenewalsMade(false, entries, answers) <= 1
  {
    hide NoneDisowned, AllReadable, AllKept, IsSafe, OnlyLastFulfils, InvoicesMade, RenewalsMade, Commons;
    UnlessDisowned(false, entries, answers);
    if IsSafe(entries) {
      AtMostOneInvoice(entries, Commons(answers));
    } else if AllKept(Commons(answers)) && OnlyLastFulfils(entries) {
      AtMostOneKept(entries, Commons(answers));
    }
  }

  /** A panel that refuses the first n renewals, makes the later ones, disowns none and is never paid; `shown`
      says that it answers looks at an invoice, and then with Pending. */
  function Stalled(count: nat, n: nat, readable: bool, shown: bool): (answers: seq<RenewalAnswer>)
    ensures |answers| == count && NoneDisowned(answers) && (readable ==> AllReadable(Commons(answers)))
    ensures shown ==> AllKept(Commons(answers))
  {
    seq(count, i => RenewalAnswer(Answer(i >= n, readable, shown, true), false))
  }

  lemma StalledStep(stored: bool, entries: seq<Entry>, n: nat, readable: bool, shown: bool)
    requires entries != []
    ensures var first := RenewalAnswer(Answer(n == 0, readable, shown, true), false);
            RenewalsMade(stored, entries, Stalled(|entries|, n, readable, shown))
            == One(MakesRenewal(stored, entries[0], first))
               + RenewalsMade(RenewalStored(stored, entries[0], first), entries[1..],
                              Stalled(|entries| - 1, Pred(n), readable, shown))
  {
    hide MakesRenewal, RenewalStored, NoneDisowned, AllReadable, AllKept, Commons;
    assert Stalled(|entries|, n, readable, shown)[1..] == Stalled(|entries| - 1, Pred(n), readable, shown);
  }

  /** Where looks fail, a stalling panel is a hesitating one. */
  lemma UnshownIsLate(entries: seq<Entry>, n: nat, readable: bool)
    ensures RenewalsMade(false, entries, Stalled(|entries|, n, readable, false))
            == InvoicesMade(false, entries, Late(|entries|, n, readable))
  {
    hide RenewalsMade, InvoicesMade;
    UnlessDisowned(false, entries, Stalled(|entries|, n, readable, false));
    assert Commons(Stalled(|entries|, n, readable, false)) == Late(|entries|, n, readable);
  }

  lemma {:induction false} RenewalsNotNegative(stored: bool, entries: seq<Entry>, answers: seq<RenewalAnswer>)
    requires |answers| == |entries|
    ensures RenewalsMade(stored, entries, answers) >= 0
    decreases |entries|
  {
    if entries != [] {
      RenewalsNotNegative(RenewalStored(stored, entries[0], answers[0]), entries[1..], answers[1..]);
    }
  }

  /** A fulfilment that loses its invoice, and the attempt after it. */
  lemma {:induction false} LostRenewalIsMadeAgain(entries: seq<Entry>, k: nat)
    requires k + 1 < |entries| && entries[k].Fulfilment?
    ensures RenewalsMade(false, entries, Stalled(|entries|, k, true, true)) >= 2
  {
    StalledStep(false, entries, k, true, true);
    if k == 0 {
      StalledStep(false, entries[1..], 0, true, true);
      RenewalsNotNegative(true, entries[1..][1..], Stalled(|entries| - 2, 0, true, true));
      RenewalsNotNegative(false, entries[1..][1..], Stalled(|entries| - 2, 0, true, true));
    } else {
      LostRenewalIsMadeAgain(entries[1..], k - 1);
    }
  }

  lemma FulfilsEarly(entries: seq<Entry>)
    requires !OnlyLastFulfils(entries)
    ensures FirstFulfilment(entries) + 1 < |entries|
  {
  }

  /** One renewal invoice an order. On a panel that disowns none and names each, that is certain exactly when
      fulfilment comes last if at all, as its rollback forgets the id, and the checkout first if at all, as it
      forgets an id it does not see Pending. Where the checkout always sees it Pending and linked, fulfilment
      alone decides. On every other panel it is certain only of a single attempt. */
  lemma OneRenewalExactlyWhen(entries: seq<Entry>)
    ensures (forall answers: seq<RenewalAnswer> ::
               |answers| == |entries| && NoneDisowned(answers) && AllReadable(Commons(answers)) ==>
                 RenewalsMade(false, entries, answers) <= 1)
            <==> IsSafe(entries)
    ensures (forall answers: seq<RenewalAnswer> ::
               && |answers| == |entries| && NoneDisowned(answers) && AllReadable(Commons(answers))
               && AllKept(Commons(answers)) ==>
                 RenewalsMade(false, entries, answers) <= 1)
            <==> OnlyLastFulfils(entries)
    ensures (forall answers: seq<RenewalAnswer> ::
               |answers| == |entries| ==> RenewalsMade(false, entries, answers) <= 1)
            <==> |entries| <= 1
  {
    hide NoneDisowned, AllReadable, AllKept, IsSafe, OnlyLastFulfils, InvoicesMade, RenewalsMade, Commons, Stalled;
    forall answers: seq<RenewalAnswer> |
      |answers| == |entries| && NoneDisowned(answers) && AllReadable(Commons(answers))
      ensures IsSafe(entries) || (AllKept(Commons(answers)) && OnlyLastFulfils(entries)) ==>
                RenewalsMade(false, entries, answers) <= 1
    {
      AtMostOneRenewal(entries, answers);
    }
    if !IsSafe(entries) {
      HesitationMakesTwo(entries);
      UnshownIsLate(entries, Hesitation(entries), true);
    }
    if !OnlyLastFulfils(entries) {
      FulfilsEarly(entries);
      LostRenewalIsMadeAgain(entries, FirstFulfilment(entries));
    }
    if |entries| <= 1 {
      forall answers: seq<RenewalAnswer> | |answers| == |entries|
        ensures RenewalsMade(false, entries, answers) <= 1
      {
        SingleRenewal(entries, answers);
      }
    } else {
      UnreadIsMadeAgain(entries);
      UnshownIsLate(entries, 0, false);
    }
  }

  lemma SingleRenewal(entries: seq<Entry>, answers: seq<RenewalAnswer>)
    requires |answers| == |entries| <= 1
    ensures RenewalsMade(false, entries, answers) <= 1
  {
    if entries != [] {
      assert forall stored :: RenewalsMade(stored, entries[1..], answers[1..]) == 0;
    }
  }

  // ---------------------------------------------------------------- attempts at one order

  /** `left` is what is stored before a rollback, trimmed. */
  ghost predicate RenewAttemptRun(d: seq<Event>, env: Env, stored: Stored, original: Original, existing: string,
                                  left: string, pid: int, entry: Entry, r: Outcome) {
    if entry.Checkout? then r.Aborted? && exists offer :: WebRenewalRun(d, stored, original, existing, left, offer)
    else exists changed, tail :: RenewalRun(env, stored, original, existing, left, pid, true, changed, d, tail, r)
  }

  /** The answer that one attempt amounts to. */
  function AnswerIn(d: seq<Event>, existing: string, left: string, entry: Entry, r: Outcome): RenewalAnswer {
    var keeps := KeepsInvoice(d, existing, left);
    RenewalAnswer(Answer(Renewals(d) == 1, AllNamed(d), entry.Checkout? ==> keeps, r.Aborted?),
                  !entry.Checkout? && !keeps)
  }

  /** It counts what the attempt did, and none of its flags is set without a call that shows it. */
  lemma AnswerFits(d: seq<Event>, existing: string, left: string, entry: Entry, r: Outcome)
    requires AsksOnce(d, existing, left, entry.Checkout?)
    ensures var a, stored := AnswerIn(d, existing, left, entry, r), existing != "";
            && Renewals(d) == One(MakesRenewal(stored, entry, a)) && Asks(d) <= 1
            && (RenewalStored(stored, entry, a) <==> (if entry.Fulfilment? then existing else left) != "")
            && (a.disowns ==> AnyDisowns(d)) && (AllNamed(d) ==> a.common.readable)
            && (AllOfferable(d) ==> a.common.keeps) && a.common.aborts == r.Aborted?
  {
    hide Asks, Renewals, AllNamed, AnyDisowns, AllOfferable;
  }

  /** One attempt with its rollback. */
  method RenewAttempt(api: Api, table: ServiceTable, env: Env, user: User, order: ShopOrder, original: Original,
                      pid: int, planDays: int, entry: Entry)
    returns (r: Outcome, ghost d: seq<Event>, ghost left: string)
    requires api.IsFaithful()
    modifies api, table, user, order
    ensures api.IsFaithful() && api.log == old(api.log) + d
    ensures RenewAttemptRun(d, env, old(StoredOf(user)), original, old(Trim(order.invId)), left, pid, entry, r)
    ensures AsksOnce(d, old(Trim(order.invId)), left, entry.Checkout?)
    ensures Trim(order.invId) == if entry.Fulfilment? && r.Aborted? then old(Trim(order.invId)) else left
    ensures StoredOf(user) == old(StoredOf(user))
  {
    hide Trim, Rehydrated, Follows, RenewalRun, WebRenewalRun, KeepsRenewalPromises, SumOf, AsksOnce, Passes;
    hide RenewedAtMostOnce, DueMovedAtMostOnce, BeginsEligible, Flips, AfterFlip, SawItMissing, LastLookFailed;
    ghost var stored, existing := StoredOf(user), Trim(order.invId);
    if entry.Checkout? {
      var offer;
      offer, d := OfferRenewal(api, user, order, original);
      r, left := Aborted, Trim(order.invId);
      WebAsksOnce(d, stored, original, existing, left, offer);
    } else {
      var email, password, recoverable, unset := user.email, user.password, user.recoverable, user.unset;
      var invId := order.invId;
      ghost var maker, tail, prepared := order.maker, [], table.rows;
      r, d, tail, prepared := DoRenewal(api, table, env, user, order, Some(original), pid, planDays, true);
      left := Trim(order.invId);
      RenewalAsksOnce(env, stored, original, existing, left, pid, true, table.rows != prepared, d, tail, r);
      if r.Aborted? && entry.Fulfilment? {
        user.email, user.password, user.recoverable, user.unset := email, password, recoverable, unset;
        order.invId, order.maker := invId, maker;
      }
    }
  }
}

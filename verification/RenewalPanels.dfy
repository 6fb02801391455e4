/** Renewals again and again on a panel that makes them and is never paid. */
module RenewalPanels {
  import opened Text
  import opened Numbers
  import opened Panel
  import opened RowSelection
  import opened InvoicePay
  import opened Credentials
  import opened Invoicing
  import opened Payment
  import opened RenewalDates
  import opened ServiceRules
  import opened Enforcement
  import opened Renewal
  import opened RenewalFacts
  import opened WebCheckout
  import opened WebRenewal
  import opened Attempts
  import opened RenewalAttempts

  // ---------------------------------------------------------------- a panel that stalls

  /** How many renewals it still refuses, whether it shows invoices, its answer to service/info, and its answer
      to service/renew. */
  datatype Stall = Stall(n: nat, shown: bool, look: ServiceBody, reply: ApiBody)

  /** From the moment `from` on the panel refuses the first n renewals, asked for with two calls each, and accepts
      all later ones; the service may be renewed and has no link, nothing is ever paid and no account read. A look
      at an invoice shows it Pending and linked, or fails. */
  ghost predicate Stalls(script: Script, from: nat, st: Stall) {
    && MayRenew(st.look) && LinkOfService(st.look).None? && ApiOk(st.reply)
    && forall i: nat :: i >= from ==>
         && (if st.shown then script.view(i) == Got(AWAITING) else script.view(i).Threw?)
         && script.service(i) == Got(st.look) && script.pay(i).Threw? && script.account(i).Threw?
         && if i < from + 2 * st.n then script.renew(i).Threw? else script.renew(i) == Got(st.reply)
  }

  const AWAITING := ViewBody(Envelope(Some(100), "success", ""),
                             Some(InvoiceRow(Some("Pending"), Number(7), Missing, Missing, None, "")))

  lemma AwaitingIsPending(e: Event, st: Stall)
    requires e.Viewed? && if st.shown then e.view == Got(AWAITING) else e.view.Threw?
    ensures !ShowsPaid(e) && !Disowns(e) && (IsOfferable(e) <==> st.shown)
  {
    LowerOfPending();
  }

  lemma LowerOfPending()
    ensures Lower("Pending") == "pending"
  {
  }

  lemma AnswerAt(script: Script, from: nat, st: Stall, at: nat, e: Event)
    requires Stalls(script, from, st) && at >= from && IsAnswer(script, at, e)
    ensures e.Viewed? ==> if st.shown then e.view == Got(AWAITING) else e.view.Threw?
    ensures e.ServiceRead? ==> e.service == Got(st.look) && MayRenew(st.look) && LinkOfService(st.look).None?
    ensures e.PayTried? ==> e.pay.Threw?
    ensures e.AccountRead? ==> e.account.Threw?
    ensures e.RenewTried? ==>
              if at < from + 2 * st.n then e.renewed.Threw? else e.renewed == Got(st.reply) && ApiOk(st.reply)
  {
    hide MayRenew, LinkOfService, ApiOk;
  }

  lemma StallsFrom(script: Script, from: nat, st: Stall, later: nat)
    requires Stalls(script, from, st) && st.n == 0
    ensures Stalls(script, from + later, st)
  {
    hide MayRenew, LinkOfService, ApiOk;
  }

  function Next(st: Stall): Stall {
    st.(n := Pred(st.n))
  }

  lemma StallsLater(script: Script, from: nat, st: Stall, spent: nat)
    requires Stalls(script, from, st) && (st.n > 0 ==> spent == 2)
    ensures Stalls(script, from + spent, Next(st))
  {
    hide MayRenew, LinkOfService, ApiOk;
  }

  /** It disowns nothing, names what its reply names, and shows what it shows. */
  lemma StalledTrace(script: Script, st: Stall, d: seq<Event>)
    requires Stalls(script, 0, st) && Follows(script, 0, d)
    ensures !AnyDisowns(d) && (RenewalIdOf(st.reply) != "" ==> AllNamed(d)) && (st.shown ==> AllOfferable(d))
  {
    hide Stalls, IsAnswer, MayRenew, LinkOfService, ApiOk, Disowns, IsOfferable, RenewalIdOf;
    forall k | 0 <= k < |d|
      ensures !Disowns(d[k]) && (d[k].Viewed? && st.shown ==> IsOfferable(d[k]))
      ensures IsRenewal(d[k]) ==> d[k].renewed.body == st.reply
    {
      assert IsAnswer(script, 0 + k, d[k]);
      AnswerAt(script, 0, st, k, d[k]);
      DisownsNothing(d[k], st);
    }
  }

  lemma DisownsNothing(e: Event, st: Stall)
    requires e.Viewed? ==> if st.shown then e.view == Got(AWAITING) else e.view.Threw?
    requires e.ServiceRead? ==> e.service.Got?
    ensures !Disowns(e) && (e.Viewed? && st.shown ==> IsOfferable(e))
  {
    hide SaysNotFound, ViewHasServiceId, IsOfferable;
    if e.Viewed? {
      AwaitingIsPending(e, st);
    }
  }

  /** The user and the renewed order have what a renewal needs to ask. */
  predicate CanAsk(stored: Stored, original: Original) {
    && stored.password != "" && original.sid.Some? && original.sid.value > 0
    && Trim(RenewalEmail(stored, original)) != ""
  }

  /** A stored invoice needs a panel that no longer refuses and that names its invoices. */
  predicate Awaits(st: Stall, existing: string) {
    existing != "" ==> st.n == 0 && RenewalIdOf(st.reply) != ""
  }

  predicate BeginsWith(d: seq<Event>, look: ServiceBody, sid: int) {
    d != [] && d[0].ServiceRead? && d[0].sid == sid && d[0].service == Got(look)
  }

  lemma PreparedOnPanel(script: Script, from: nat, st: Stall, d: seq<Event>, stored: Stored, original: Original,
                        r: Option<Creds>)
    requires Stalls(script, from, st) && Follows(script, from, d) && CanAsk(stored, original)
    requires PrepareRun(d, stored, original, r)
    ensures |d| == 1 && r.Some? && BeginsWith(d, st.look, original.sid.value)
  {
    hide MayRenew, LinkOfService, ApiOk, Trim, Stalls, IsAnswer, Follows;
    if d != [] {
      FirstFollows(script, from, d);
      AnswerAt(script, from, st, from, d[0]);
    }
  }

  /** The id that a new renewal leaves. */
  function IdFrom(st: Stall): string {
    if st.n > 0 then "" else RenewalIdOf(st.reply)
  }

  lemma AskedOnPanel(script: Script, from: nat, st: Stall, t: seq<Event>, creds: Creds, sid: int, sync: bool,
                     mark: bool, r: Option<string>)
    requires Stalls(script, from, st) && Follows(script, from + 1, t)
    requires RenewRun(t, creds, sid, sync, mark, r)
    ensures r == (if st.n > 0 then None else Some(RenewalIdOf(st.reply))) && (st.n > 0 ==> |t| == 1)
    ensures Renewals(t) == One(st.n == 0)
  {
    hide Stalls, IsAnswer, Follows, MayRenew, LinkOfService, ApiOk, Asks, Renewals, RenewalIdOf;
    FirstFollows(script, from + 1, t);
    AnswerAt(script, from, st, from + 1, t[0]);
    OneAsk(t[0]);
    assert t == [t[0]] + t[1..];
    CountsAddUp([t[0]], t[1..]);
    NoAskNoRenewal(t[1..]);
  }

  lemma KeptOnPanel(script: Script, from: nat, st: Stall, d: seq<Event>, creds: Creds, sid: int, existing: string)
    requires Stalls(script, from, st) && Follows(script, from, d) && existing != ""
    requires CheckRun(d, creds, sid, existing)
    ensures !AnyDisowns(d) && KeptInvoice(d, existing) == existing
  {
    hide Stalls, IsAnswer, MayRenew, LinkOfService, ApiOk, SaysNotFound, ViewHasServiceId;
    assert IsAnswer(script, from + 0, d[0]);
    AnswerAt(script, from, st, from, d[0]);
    AwaitingIsPending(d[0], st);
    assert IsAnswer(script, from + 1, d[1]);
    AnswerAt(script, from, st, from + 1, d[1]);
  }

  lemma InvoicedOnPanel(script: Script, from: nat, st: Stall, d: seq<Event>, creds: Creds, sid: int, existing: string,
                        sync: bool, mark: bool, r: Option<string>)
    requires Stalls(script, from, st) && Follows(script, from + 1, d) && Awaits(st, existing)
    requires RenewalInvoiceRun(d, creds, sid, existing, sync, mark, r)
    ensures Kept(r) == (if existing != "" then existing else IdFrom(st)) && (r.None? <==> st.n > 0)
    ensures Renewals(d) == One(st.n == 0 && existing == "") && (st.n > 0 ==> |d| == 1)
  {
    hide Stalls, CheckRun, RenewRun, AnyDisowns, Asks, Renewals, RenewalIdOf, Follows, Linking;
    var k :| && 0 <= k <= |d| && CheckRun(d[..k], creds, sid, existing)
             && var kept := KeptInvoice(d[..k], existing);
                if kept != "" then d[k..] == Linking(sync, kept, sid) && r == Some(kept)
                else RenewRun(d[k..], creds, sid, sync, mark, r);
    FollowsPart(script, from + 1, d, k);
    if existing != "" {
      StallsFrom(script, from, st, 1);
      KeptOnPanel(script, from + 1, st, d[..k], creds, sid, existing);
      CheckAsks(d[..k], creds, sid, existing);
      LinkingAsks(sync, existing, sid);
      NoAskNoRenewal(d[..k]);
      NoAskNoRenewal(d[k..]);
      assert d[..k] + d[k..] == d;
      CountsAddUp(d[..k], d[k..]);
    } else {
      NothingToCheck(d, creds, sid, k);
      AskedOnPanel(script, from, st, d, creds, sid, sync, mark, r);
    }
  }

  lemma NothingToCheck(d: seq<Event>, creds: Creds, sid: int, k: nat)
    requires k <= |d| && CheckRun(d[..k], creds, sid, "")
    ensures k == 0 && d[k..] == d && KeptInvoice(d[..k], "") == ""
  {
    hide AnyDisowns;
  }

  /** Nothing is paid, and without an invoice there is no link. */
  lemma EndedOnPanel(script: Script, from: nat, st: Stall, d: seq<Event>, env: Env, creds: Creds, sid: int, pid: int,
                     changed: bool, invoice: Option<string>, tail: seq<Event>, r: Outcome)
    requires Stalls(script, from, st) && Follows(script, from, d)
    requires AfterInvoice(env, creds, sid, pid, true, changed, invoice, d, tail, r)
    ensures r.Aborted? && tail == []
  {
    hide Stalls, IsAnswer, ReadLinkRun, PaidRenewalRun, WithoutAutoPayRun, Follows;
    if invoice.Some? && invoice.value == "" {
      UnlinkedOnPanel(script, from, st, d, creds, sid, pid, r);
    } else if invoice.Some? && env.autoGateway.Some? {
      UnpaidOnPanel(script, from, st, d, env, Bill(creds, invoice.value, env.autoGateway.value), sid, pid, changed,
                    tail, r);
    }
  }

  lemma UnlinkedOnPanel(script: Script, from: nat, st: Stall, d: seq<Event>, creds: Creds, sid: int, pid: int,
                        r: Outcome)
    requires Stalls(script, from, st) && Follows(script, from, d)
    requires ReadLinkRun(d, creds, sid, pid, r)
    ensures r.Aborted?
  {
    hide Stalls, IsAnswer, LinkOfService, StrictLink, MayRenew, ApiOk;
    assert IsAnswer(script, from + 0, d[0]);
    AnswerAt(script, from, st, from, d[0]);
    assert IsAnswer(script, from + 1, d[1]);
    AnswerAt(script, from, st, from + 1, d[1]);
  }

  lemma UnpaidOnPanel(script: Script, from: nat, st: Stall, d: seq<Event>, env: Env, bill: Bill, sid: int, pid: int,
                      changed: bool, tail: seq<Event>, r: Outcome)
    requires Stalls(script, from, st) && Follows(script, from, d)
    requires PaidRenewalRun(env, bill, sid, pid, true, changed, d, tail, r)
    ensures r.Aborted? && tail == []
  {
    hide Stalls, SettleRenewalRun, RenewalWaits, Follows;
    if n, pay :| 0 <= n <= |d| && SettleRenewalRun(bill, true, d[..n], Some(pay))
                 && RenewalWaits(env, bill, sid, pid, pay, true, changed, d[n..], tail, r) {
      FollowsPart(script, from, d, n);
      NotSettledOnPanel(script, from, st, d[..n], bill, Some(pay));
      assert false;
    }
  }

  lemma NotSettledOnPanel(script: Script, from: nat, st: Stall, d: seq<Event>, bill: Bill, pay: Option<PayBody>)
    requires Stalls(script, from, st) && Follows(script, from, d)
    requires SettleRenewalRun(bill, true, d, pay)
    ensures pay.None?
  {
    hide Stalls, IsAnswer, PayLooksSuccessful, PayBodyIsEmpty, RetryRun, ClosingRun, IsWrongGateway, ShowsPaid, Disowns;
    hide MayRenew, LinkOfService, ApiOk, IsOfferable;
    assert IsAnswer(script, from + 0, d[0]);
    AnswerAt(script, from, st, from, d[0]);
    AwaitingIsPending(d[0], st);
    var strict :| StrictRun(bill, d[1..], strict) && pay == Accepted(strict);
    assert d[1..][0] == d[1] && IsAnswer(script, from + 1, d[1]);
    AnswerAt(script, from, st, from + 1, d[1]);
  }

  /** What one attempt comes to on such a panel: only the checkout gives a stored invoice up, when it is not
      shown. */
  predicate StallsOnce(d: seq<Event>, st: Stall, existing: string, left: string, web: bool) {
    var keeps := existing != "" && (web ==> st.shown);
    && Renewals(d) == One(st.n == 0 && !keeps) && (st.n > 0 ==> |d| == 2)
    && left == if keeps then existing else IdFrom(st)
  }

  lemma RenewedOnPanel(script: Script, from: nat, st: Stall, d: seq<Event>, env: Env, stored: Stored,
                       original: Original, existing: string, left: string, pid: int, changed: bool, tail: seq<Event>,
                       r: Outcome)
    requires Stalls(script, from, st) && Follows(script, from, d) && CanAsk(stored, original) && Awaits(st, existing)
    requires RenewalRun(env, stored, original, existing, left, pid, true, changed, d, tail, r)
    ensures r.Aborted? && tail == [] && StallsOnce(d, st, existing, left, false)
    ensures BeginsWith(d, st.look, original.sid.value)
  {
    hide Stalls, Follows, CanAsk, PrepareRun, AfterPrepare, Asks, Renewals, AsksNoRenewal, Awaits, IdFrom;
    if PrepareRun(d, stored, original, None) {
      PreparedOnPanel(script, from, st, d, stored, original, None);
      assert false;
    }
    var m, creds :|
      && 0 <= m <= |d| && PrepareRun(d[..m], stored, original, Some(creds)) && original.sid.Some?
      && AfterPrepare(env, creds, original.sid.value, existing, left, pid, true, changed, d[m..], tail, r);
    FollowsPart(script, from, d, m);
    PreparedOnPanel(script, from, st, d[..m], stored, original, Some(creds));
    PrepareStage(d[..m], stored, original, Some(creds));
    NoAskNoRenewal(d[..m]);
    GoesOnOnPanel(script, from, st, d[m..], env, creds, original.sid.value, existing, left, pid, changed, tail, r);
    assert d == d[..m] + d[m..];
    CountsAddUp(d[..m], d[m..]);
  }

  lemma GoesOnOnPanel(script: Script, from: nat, st: Stall, d: seq<Event>, env: Env, creds: Creds, sid: int,
                      existing: string, left: string, pid: int, changed: bool, tail: seq<Event>, r: Outcome)
    requires Stalls(script, from, st) && Follows(script, from + 1, d) && Awaits(st, existing)
    requires AfterPrepare(env, creds, sid, existing, left, pid, true, changed, d, tail, r)
    ensures r.Aborted? && tail == [] && Renewals(d) == One(st.n == 0 && existing == "") && (st.n > 0 ==> |d| == 1)
    ensures left == if existing != "" then existing else IdFrom(st)
  {
    hide Stalls, Follows, RenewalInvoiceRun, AfterInvoice, Asks, Renewals, RenewalIdOf, MarksRenewal, AsksNoRenewal;
    var mark := MarksRenewal(env, true);
    var k, invoice :|
      && 0 <= k <= |d| && left == Kept(invoice)
      && RenewalInvoiceRun(d[..k], creds, sid, existing, env.invoiceDbSync, mark, invoice)
      && AfterInvoice(env, creds, sid, pid, true, changed, invoice, d[k..], tail, r);
    FollowsPart(script, from + 1, d, k);
    InvoicedOnPanel(script, from, st, d[..k], creds, sid, existing, env.invoiceDbSync, mark, invoice);
    EndStage(env, creds, sid, pid, true, changed, invoice, d[k..], tail, r);
    NoAskNoRenewal(d[k..]);
    assert d == d[..k] + d[k..];
    CountsAddUp(d[..k], d[k..]);
    if st.n == 0 {
      StallsFrom(script, from, st, 1 + k);
      EndedOnPanel(script, from + 1 + k, st, d[k..], env, creds, sid, pid, changed, invoice, tail, r);
    } else {
      EndsUnrenewed(env, creds, sid, pid, changed, invoice, d[k..], tail, r);
    }
  }

  lemma EndsUnrenewed(env: Env, creds: Creds, sid: int, pid: int, changed: bool, invoice: Option<string>,
                      d: seq<Event>, tail: seq<Event>, r: Outcome)
    requires AfterInvoice(env, creds, sid, pid, true, changed, invoice, d, tail, r) && invoice.None?
    ensures d == [] && r.Aborted? && tail == []
  {
  }

  lemma WebRenewedOnPanel(script: Script, from: nat, st: Stall, d: seq<Event>, stored: Stored, original: Original,
                          existing: string, left: string, w: WebResult)
    requires Stalls(script, from, st) && Follows(script, from, d) && CanAsk(stored, original) && Awaits(st, existing)
    requires WebRenewalRun(d, stored, original, existing, left, w)
    ensures StallsOnce(d, st, existing, left, true)
  {
    hide Stalls, Follows, CanAsk, PrepareRun, WebRenews, Asks, Renewals, Awaits, IdFrom;
    if PrepareRun(d, stored, original, None) {
      PreparedOnPanel(script, from, st, d, stored, original, None);
      assert false;
    }
    var m, creds :|
      && 0 <= m <= |d| && PrepareRun(d[..m], stored, original, Some(creds)) && original.sid.Some?
      && WebRenews(d[m..], creds, original.sid.value, existing, left, w);
    FollowsPart(script, from, d, m);
    PreparedOnPanel(script, from, st, d[..m], stored, original, Some(creds));
    PrepareStage(d[..m], stored, original, Some(creds));
    NoAskNoRenewal(d[..m]);
    WebGoesOnOnPanel(script, from, st, d[m..], creds, original.sid.value, existing, left, w);
    assert d == d[..m] + d[m..];
    CountsAddUp(d[..m], d[m..]);
  }

  lemma WebGoesOnOnPanel(script: Script, from: nat, st: Stall, d: seq<Event>, creds: Creds, sid: int, existing: string,
                         left: string, w: WebResult)
    requires Stalls(script, from, st) && Follows(script, from + 1, d) && Awaits(st, existing)
    requires WebRenews(d, creds, sid, existing, left, w)
    ensures var keeps := existing != "" && st.shown;
            Renewals(d) == One(st.n == 0 && !keeps) && left == (if keeps then existing else IdFrom(st))
    ensures st.n > 0 ==> |d| == 1
  {
    hide Stalls, IsAnswer, Follows, WebAsks, Asks, Renewals, IsOfferable, IdFrom, MayRenew, LinkOfService, ApiOk;
    if existing == "" {
      WebAskedOnPanel(script, from, st, from + 1, d, creds, sid, left, w);
    } else {
      FirstFollows(script, from + 1, d);
      AnswerAt(script, from, st, from + 1, d[0]);
      AwaitingIsPending(d[0], st);
      NoAskNoRenewal([d[0]]);
      assert d == [d[0]] + d[1..];
      if !IsOfferable(d[0]) {
        FollowsPart(script, from + 1, d, 1);
        WebAskedOnPanel(script, from, st, from + 2, d[1..], creds, sid, left, w);
        CountsAddUp([d[0]], d[1..]);
      } else {
        assert d == [d[0]];
      }
    }
  }

  lemma WebAskedOnPanel(script: Script, from: nat, st: Stall, at: nat, d: seq<Event>, creds: Creds, sid: int,
                        left: string, w: WebResult)
    requires Stalls(script, from, st) && Follows(script, at, d) && (at == from + 1 || (at > from && st.n == 0))
    requires WebAsks(d, creds, sid, left, w)
    ensures |d| == 1 && Renewals(d) == One(st.n == 0) && left == IdFrom(st)
  {
    hide Stalls, IsAnswer, Follows, MayRenew, LinkOfService, ApiOk, Asks, Renewals, Trim;
    TrimOfEmpty();
    FirstFollows(script, at, d);
    AnswerAt(script, from, st, at, d[0]);
    OneAsk(d[0]);
    assert d == [d[0]];
  }

  lemma AttemptStalls(script: Script, from: nat, st: Stall, d: seq<Event>, env: Env, stored: Stored, original: Original,
                      existing: string, left: string, pid: int, entry: Entry, r: Outcome)
    requires Stalls(script, from, st) && Follows(script, from, d) && CanAsk(stored, original) && Awaits(st, existing)
    requires RenewAttemptRun(d, env, stored, original, existing, left, pid, entry, r)
    ensures r.Aborted? && StallsOnce(d, st, existing, left, entry.Checkout?)
  {
    hide Stalls, Follows, CanAsk, Awaits, StallsOnce, RenewalRun, WebRenewalRun;
    if entry.Checkout? {
      var offer :| WebRenewalRun(d, stored, original, existing, left, offer);
      WebRenewedOnPanel(script, from, st, d, stored, original, existing, left, offer);
    } else {
      var changed, tail :| RenewalRun(env, stored, original, existing, left, pid, true, changed, d, tail, r);
      RenewedOnPanel(script, from, st, d, env, stored, original, existing, left, pid, changed, tail, r);
    }
  }

  /** The answers of such a panel. */
  function AnswersOf(count: nat, st: Stall): (answers: seq<RenewalAnswer>)
    ensures |answers| == count
  {
    Stalled(count, st.n, RenewalIdOf(st.reply) != "", st.shown)
  }

  /** What an attempt does on a stalling panel is what AnswersOf has for it. */
  lemma StalledOnPanel(d: seq<Event>, existing: string, left: string, entries: seq<Entry>, st: Stall)
    requires entries != [] && Awaits(st, existing) && StallsOnce(d, st, existing, left, entries[0].Checkout?)
    ensures var after := if entries[0].Fulfilment? then existing else left;
            && Awaits(Next(st), after)
            && RenewalsMade(existing != "", entries, AnswersOf(|entries|, st))
               == Renewals(d) + RenewalsMade(after != "", entries[1..], AnswersOf(|entries| - 1, Next(st)))
  {
    hide RenewalIdOf, Renewals, RenewalsMade, Stalled;
    StalledStep(existing != "", entries, st.n, RenewalIdOf(st.reply) != "", st.shown);
  }

  // ---------------------------------------------------------------- attempt after attempt

  function Unasked(count: nat): (answers: seq<RenewalAnswer>)
    ensures |answers| == count && NoneDisowned(answers) && AllReadable(Commons(answers)) && AllKept(Commons(answers))
  {
    seq(count, _ => RenewalAnswer(Answer(false, true, true, false), false))
  }

  lemma NoRenewalYet(stored: bool)
    ensures RenewalsMade(stored, [], []) == 0 && Renewals([]) == 0 && Asks([]) == 0
    ensures forall st :: RenewalsMade(stored, [], AnswersOf(0, st)) == 0
    ensures NoneDisowned([]) && AllReadable(Commons([])) && AllKept(Commons([]))
  {
  }

  lemma OneMoreRenewal(stored: bool, entries: seq<Entry>, a: RenewalAnswer, later: seq<RenewalAnswer>)
    requires entries != [] && |later| == |entries| - 1
    ensures RenewalsMade(stored, entries, [a] + later)
            == One(MakesRenewal(stored, entries[0], a))
               + if GoesOn(entries[0], a.common)
                 then RenewalsMade(RenewalStored(stored, entries[0], a), entries[1..], later)
                 else 0
  {
    hide MakesRenewal, RenewalStored;
    assert ([a] + later)[1..] == later;
  }

  lemma OneMoreAnswer(a: RenewalAnswer, later: seq<RenewalAnswer>)
    ensures !a.disowns && NoneDisowned(later) ==> NoneDisowned([a] + later)
    ensures a.common.readable && AllReadable(Commons(later)) ==> AllReadable(Commons([a] + later))
    ensures a.common.keeps && AllKept(Commons(later)) ==> AllKept(Commons([a] + later))
  {
    var answers := [a] + later;
    assert forall k :: 1 <= k < |answers| ==> answers[k] == later[k - 1] == answers[1..][k - 1];
    assert forall k :: 1 <= k < |answers| ==> Commons(answers)[k] == Commons(later)[k - 1];
  }

  /** The flags of the answers follow from the calls. */
  predicate ShownBy(d: seq<Event>, answers: seq<RenewalAnswer>) {
    && (!AnyDisowns(d) ==> NoneDisowned(answers))
    && (AllNamed(d) ==> AllReadable(Commons(answers)))
    && (AllOfferable(d) ==> AllKept(Commons(answers)))
  }

  lemma ShownInTurn(first: seq<Event>, a: RenewalAnswer, rest: seq<Event>, later: seq<RenewalAnswer>)
    requires (a.disowns ==> AnyDisowns(first)) && (AllNamed(first) ==> a.common.readable)
    requires (AllOfferable(first) ==> a.common.keeps) && ShownBy(rest, later)
    ensures ShownBy(first + rest, [a] + later)
  {
    hide AnyDisowns, AllNamed, AllOfferable, NoneDisowned, AllReadable, AllKept, Commons;
    DisownedLater(first, rest);
    FlagsAddUp(first, rest);
    OneMoreAnswer(a, later);
  }

  /** Attempts at one renewal order, each reading the stored rows afresh, up to the first that delivers. */
  method RenewAgain(api: Api, table: ServiceTable, env: Env, user: User, order: ShopOrder, original: Original,
                    pid: int, planDays: int, entries: seq<Entry>)
    returns (r: Outcome, ghost d: seq<Event>, ghost answers: seq<RenewalAnswer>)
    requires api.IsFaithful()
    modifies api, table, user, order
    ensures api.IsFaithful() && api.log == old(api.log) + d
    // The renewals the panel has accepted are those of the answers, and the answers are what the calls show.
    ensures |answers| == |entries| && Renewals(d) == RenewalsMade(old(Trim(order.invId)) != "", entries, answers)
    ensures Asks(d) <= |entries| && ShownBy(d, answers)
    // A fresh order is renewed once at most while every invoice is named and none is disowned, if fulfilment comes
    // last and the checkout first; where the checkout sees every invoice Pending and linked, if fulfilment does.
    ensures old(Trim(order.invId)) == "" && !AnyDisowns(d) && AllNamed(d) ==>
              (IsSafe(entries) || (AllOfferable(d) && OnlyLastFulfils(entries)) ==> Renewals(d) <= 1)
    // Conversely, these answers come from a panel.
    ensures forall st ::
              && Stalls(api.script, |old(api.log)|, st) && CanAsk(old(StoredOf(user)), original)
              && Awaits(st, old(Trim(order.invId))) ==>
                Renewals(d) == RenewalsMade(old(Trim(order.invId)) != "", entries, AnswersOf(|entries|, st))
    decreases |entries|
  {
    hide Trim, Rehydrated, Follows, RenewAttemptRun, AsksOnce, Stalls, CanAsk, Awaits, RenewalsMade, MakesRenewal;
    hide RenewalStored, Asks, Renewals, StoredOf, AnswersOf, Next, AnyDisowns, AllNamed, AllOfferable, ShownBy, IsSafe;
    hide OnlyLastFulfils, NoneDisowned, AllReadable, AllKept, Commons, StallsOnce, KeepsInvoice;
    r, d, answers := Aborted, [], [];
    ghost var existing, from, was := Trim(order.invId), |api.log|, StoredOf(user);
    NoRenewalYet(existing != "");
    assert ShownBy(d, answers) by { NothingShown(d); }
    if entries != [] {
      ghost var first, left, rest, later;
      r, first, left := RenewAttempt(api, table, env, user, order, original, pid, planDays, entries[0]);
      ghost var ended, a := r, AnswerIn(first, existing, left, entries[0], r);
      ghost var middle := Trim(order.invId);
      rest, later := [], Unasked(|entries| - 1);
      NothingShown(rest);
      assert ShownBy(rest, later) by { UnaskedIsShown(rest, |entries| - 1); }
      AnswerFits(first, existing, left, entries[0], r);
      AnsweredSince(api.script, api.log, from, first);
      ghost var at := |api.log|;
      assert at == from + |first| && |entries[1..]| == |entries| - 1;
      if entries[0].Checkout? || r.Aborted? {
        r, rest, later := RenewAgain(api, table, env, user, order, original, pid, planDays, entries[1..]);
      }
      forall st | Stalls(api.script, from, st) && CanAsk(was, original) && Awaits(st, existing)
        ensures Renewals(first) + Renewals(rest)
                == RenewalsMade(existing != "", entries, AnswersOf(|entries|, st))
      {
        AttemptStalls(api.script, from, st, first, env, was, original, existing, left, pid, entries[0], ended);
        SpendsTwo(first, st, existing, left, entries[0].Checkout?);
        StallsLater(api.script, from, st, |first|);
        StalledOnPanel(first, existing, left, entries, st);
        assert Stalls(api.script, at, Next(st)) && Awaits(Next(st), middle);
      }
      OneMoreRenewal(existing != "", entries, a, later);
      CountsAddUp(first, rest);
      ShownInTurn(first, a, rest, later);
      d, answers := first + rest, [a] + later;
    }
    SafeOnceShown(d, entries, answers);
  }

  lemma NothingShown(d: seq<Event>)
    requires d == []
    ensures ShownBy(d, [])
  {
  }

  lemma UnaskedIsShown(d: seq<Event>, count: nat)
    ensures ShownBy(d, Unasked(count))
  {
    hide NoneDisowned, AllReadable, AllKept, Commons;
  }

  lemma SpendsTwo(d: seq<Event>, st: Stall, existing: string, left: string, web: bool)
    requires StallsOnce(d, st, existing, left, web)
    ensures st.n > 0 ==> |d| == 2
  {
  }

  lemma SafeOnceShown(d: seq<Event>, entries: seq<Entry>, answers: seq<RenewalAnswer>)
    requires |answers| == |entries| && ShownBy(d, answers)
    ensures !AnyDisowns(d) && AllNamed(d) ==>
              (IsSafe(entries) || (AllOfferable(d) && OnlyLastFulfils(entries)) ==>
                 RenewalsMade(false, entries, answers) <= 1)
  {
    hide AnyDisowns, AllNamed, AllOfferable, NoneDisowned, AllReadable, AllKept, Commons, IsSafe, OnlyLastFulfils;
    hide RenewalsMade;
    if !AnyDisowns(d) && AllNamed(d) {
      AtMostOneRenewal(entries, answers);
    }
  }

  // ---------------------------------------------------------------- the panels

  const LINKLESS := EXPIRED_SERVICE.(links := [])
  const RENEWED_AS := ApiBody(Envelope(Some(100), "success", ""), TextId("77"), NoId)

  function Stalling(st: Stall): Script {
    Script(
      _ => if st.shown then Got(AWAITING) else Threw(NO_PANEL), _ => Threw(NO_PANEL), _ => Threw(NO_PANEL),
      _ => Got(st.look), _ => Threw(NO_PANEL), _ => Threw(NO_PANEL), _ => Threw(NO_PANEL), _ => Threw(NO_PANEL),
      i => if i < 2 * st.n then Threw(NO_PANEL) else Got(st.reply), _ => Threw(NO_PANEL), _ => Threw(NO_PANEL),
      _ => Threw(NO_PANEL))
  }

  lemma LinklessReplies()
    ensures MayRenew(LINKLESS) && LinkOfService(LINKLESS).None?
    ensures ApiOk(RENEWED_AS) && RenewalIdOf(RENEWED_AS) == "77" && ApiOk(RENEWED) && RenewalIdOf(RENEWED) == ""
  {
    ForgetfulReplies();
    assert Trim("77") == "77";
  }

  lemma StallingStalls(st: Stall)
    requires MayRenew(st.look) && LinkOfService(st.look).None? && ApiOk(st.reply)
    ensures Stalls(Stalling(st), 0, st)
  {
    hide MayRenew, LinkOfService, ApiOk;
  }

  /** Attempts at a fresh renewal order of a user with credentials, on a stalling panel. */
  method RenewOn(env: Env, st: Stall, pid: int, planDays: int, sid: int, entries: seq<Entry>)
    returns (log: seq<Event>)
    requires sid > 0 && MayRenew(st.look) && LinkOfService(st.look).None? && ApiOk(st.reply)
    ensures Renewals(log) == RenewalsMade(false, entries, AnswersOf(|entries|, st)) && Asks(log) <= |entries|
    ensures !AnyDisowns(log) && (RenewalIdOf(st.reply) != "" ==> AllNamed(log)) && (st.shown ==> AllOfferable(log))
  {
    hide Asks, Renewals, Stalls, RenewalsMade, AnswersOf, Stalling, Rehydrated, Follows, RenewalIdOf, ApiOk, MayRenew;
    hide LinkOfService, AnyDisowns, AllNamed, AllOfferable, ShownBy;
    var api := new Api(Stalling(st));
    var table := new ServiceTable(_ => false, _ => 0, map[]);
    var user := new User("1", "tg1@shop", "secret", "", false);
    var order := new ShopOrder("", "", Creds("", ""));
    var original := Original("tg1@shop", Some(sid));
    StallingStalls(st);
    assert CanAsk(StoredOf(user), original) by { KnownCustomer(user, original); }
    TrimOfEmpty();
    assert Awaits(st, Trim(order.invId));
    assert Stalls(api.script, |api.log|, st);
    ghost var d, answers;
    var r;
    r, d, answers := RenewAgain(api, table, env, user, order, original, pid, planDays, entries);
    log := api.log;
    assert log == d;
    StalledTrace(api.script, st, log);
  }

  lemma KnownCustomer(user: User, original: Original)
    requires user.email == "tg1@shop" && user.password == "secret" && user.recoverable == ""
    requires original.sid.Some? && original.sid.value > 0
    ensures CanAsk(StoredOf(user), original)
  {
    assert Trim("secret") == "secret" && Trim("tg1@shop") != "";
  }

  /** For every unsafe sequence of attempts there is a panel, with each invoice named and none disowned, on which
      the renewal is asked for and accepted twice or more. */
  method SecondRenewal(env: Env, pid: int, planDays: int, sid: int, entries: seq<Entry>) returns (log: seq<Event>)
    requires sid > 0 && !IsSafe(entries)
    ensures 2 <= Renewals(log) <= Asks(log) <= |entries| && !AnyDisowns(log) && AllNamed(log)
  {
    hide Asks, Renewals, RenewalsMade, Stalled, RenewalIdOf, ApiOk, IsSafe, AnyDisowns, AllNamed, AllOfferable;
    hide MayRenew, LinkOfService, Late, InvoicesMade, LINKLESS, RENEWED_AS, Hesitation;
    var n := Hesitation(entries);
    LinklessReplies();
    HesitationMakesTwo(entries);
    UnshownIsLate(entries, n, true);
    log := RenewOn(env, Stall(n, false, LINKLESS, RENEWED_AS), pid, planDays, sid, entries);
  }

  /** If fulfilment is not the last attempt, that panel may even show every invoice Pending and linked. */
  method SecondThoughShown(env: Env, pid: int, planDays: int, sid: int, entries: seq<Entry>)
    returns (log: seq<Event>)
    requires sid > 0 && !OnlyLastFulfils(entries)
    ensures 2 <= Renewals(log) <= Asks(log) <= |entries| && !AnyDisowns(log) && AllNamed(log) && AllOfferable(log)
  {
    hide Asks, Renewals, RenewalsMade, Stalled, RenewalIdOf, ApiOk, AnyDisowns, AllNamed, AllOfferable, LINKLESS;
    hide MayRenew, LinkOfService, RENEWED_AS, OnlyLastFulfils;
    var n := FirstFulfilment(entries);
    LinklessReplies();
    FulfilsEarly(entries);
    LostRenewalIsMadeAgain(entries, n);
    log := RenewOn(env, Stall(n, true, LINKLESS, RENEWED_AS), pid, planDays, sid, entries);
  }

  /** And for any sequence at all there is one that renews at every attempt, as it names no invoice. */
  method RenewalForEachAttempt(env: Env, pid: int, planDays: int, sid: int, entries: seq<Entry>)
    returns (log: seq<Event>)
    requires sid > 0
    ensures Renewals(log) == Asks(log) == |entries| && !AnyDisowns(log)
  {
    hide Asks, Renewals, RenewalsMade, Stalled, RenewalIdOf, ApiOk, AnyDisowns, AllNamed, AllOfferable, LINKLESS;
    hide MayRenew, LinkOfService, Late, InvoicesMade, RENEWED;
    LinklessReplies();
    UnreadIsMadeAgain(entries);
    UnshownIsLate(entries, 0, false);
    log := RenewOn(env, Stall(0, false, LINKLESS, RENEWED), pid, planDays, sid, entries);
  }

  // ---------------------------------------------------------------- a flip that stays

  const NEARLY_USED_UP := LINKLESS.(usage := UsageRow("Active", None, 100, 95))
  const ACTIVE_RECORD := ServiceRecord(ACTIVE, Known(0), 100, 0, 90, 5, 0)

  lemma NearlyUsedUpIsFlipped(d: seq<Event>, env: Env, sid: int)
    requires BeginsWith(d, NEARLY_USED_UP, sid) && sid > 0 && env.mysqlDirect
    ensures Flips(d, env, true, map[sid := ACTIVE_RECORD], sid)
  {
    NearlyUsedUp();
  }

  lemma NearlyUsedUp()
    ensures var row := NEARLY_USED_UP.usage; HasLowTraffic(row) && !IsExpired(row)
    ensures MayRenew(NEARLY_USED_UP) && LinkOfService(NEARLY_USED_UP).None?
  {
    hide ContainsAny;
    assert Lower("Active") == "active";
    ActiveIsNotExpired(NEARLY_USED_UP.usage);
    LinklessReplies();
  }

  /** An Active service that is nearly used up is flipped to expired, its renewal invoice is made, the payment
      fails and the renewal throws: the service stays expired. */
  method LeftExpired(env: Env, pid: int, planDays: int, sid: int) returns (r: Outcome, rec: ServiceRecord)
    requires env.mysqlDirect && sid > 0
    ensures r.Aborted? && rec == FlippedToExpired(ACTIVE_RECORD) != ACTIVE_RECORD
  {
    hide Stalls, Stalling, Rehydrated, Follows, RenewalIdOf, ApiOk, NEARLY_USED_UP, RenewalRun, StallsOnce, Trim;
    hide KeepsRenewalPromises, BeginsWith, Flips, RenewedAtMostOnce, DueMovedAtMostOnce, MayRenew, LinkOfService;
    hide BeginsEligible, Passes;
    var st := Stall(0, false, NEARLY_USED_UP, RENEWED_AS);
    var api := new Api(Stalling(st));
    var table := new ServiceTable(_ => true, _ => 0, map[sid := ACTIVE_RECORD]);
    var user := new User("1", "tg1@shop", "secret", "", false);
    var order := new ShopOrder("", "", Creds("", ""));
    var original := Original("tg1@shop", Some(sid));
    NearlyUsedUp();
    LinklessReplies();
    StallingStalls(st);
    KnownCustomer(user, original);
    TrimOfEmpty();
    ghost var stored := StoredOf(user);
    ghost var d, tail, prepared;
    r, d, tail, prepared := DoRenewal(api, table, env, user, order, Some(original), pid, planDays, true);
    assert api.log == d;
    RenewedOnPanel(api.script, 0, st, d, env, stored, original, "", Trim(order.invId), pid, table.rows != prepared,
                   tail, r);
    NearlyUsedUpIsFlipped(d, env, sid);
    Renewal.NothingSeen();
    rec := table.rows[sid];
  }
}

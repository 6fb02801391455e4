/** A purchase that ends with credentials nobody has stored. */
module PurchaseFacts {
  import opened Text
  import opened Panel
  import opened RowSelection
  import opened Polling
  import opened Billing
  import opened InvoicePay
  import opened Tally
  import opened Credentials
  import opened Accounts
  import opened Invoicing
  import opened Payment
  import opened NewPurchase

  const GONE := ApiBody(Envelope(None, "error", "does not exist"), NoId, NoId)
  const MADE := ApiBody(Envelope(Some(100), "success", ""), TextId("77"), NoId)
  const FINE := Envelope(Some(100), "success", "")
  const PAID_ROW := InvoiceRow(Some("Paid"), Number(7), Missing, Missing, None, "")

  function Listed(pid: int): AccountBody {
    AccountBody(ApiBody(FINE, NoId, NoId), Rows([Row("fresh link", Some(7), pid, "Active")]))
  }

  /** The panel has lost the stored account and still knows the standing address; it makes invoices after the
      first refusal, and every invoice is paid and has its service. */
  function Forgetting(pid: int): Script {
    Script(
      _ => Got(ViewBody(FINE, Some(PAID_ROW))), _ => Threw(NO_PANEL), _ => Got(Listed(pid)), _ => Threw(NO_PANEL),
      _ => Threw(NO_PANEL), _ => Got(TAKEN), _ => Threw(NO_PANEL), i => if i < 2 then Got(GONE) else Got(MADE),
      _ => Threw(NO_PANEL), _ => Threw(NO_PANEL), _ => Threw(NO_PANEL), _ => Threw(NO_PANEL))
  }

  lemma ForgettingAnswers(pid: int, at: nat, e: Event)
    requires IsAnswer(Forgetting(pid), at, e)
    ensures e.Viewed? ==> e.view == Got(ViewBody(FINE, Some(PAID_ROW)))
    ensures e.AccountRead? ==> e.account == Got(Listed(pid))
    ensures e.RegisterTried? ==> e.registered == Got(TAKEN)
    ensures e.CreateTried? ==> e.created == Got(if at < 2 then GONE else MADE)
    ensures e.PackageRead? ==> e.package.Threw?
  {
  }

  lemma GoneMeansGone()
    ensures EmailNotFound(GONE.env) && !ApiOk(GONE) && !BillingUnavailable(GONE.env)
  {
    hide Contains;
    LowerCaseStays("does not exist");
    LowerCaseStays("error");
    ContainsAt("does not exist", "does not exist", 0);
    NoPairNoNeedle("does not exist", "billing", 0);
  }

  lemma MadeHasId()
    ensures ApiOk(MADE) && IdOf(MADE) == "77"
  {
    assert Trim("77") == "77";
  }

  lemma FineIsFound()
    ensures !EmailNotFound(FINE)
  {
    hide Contains;
    LowerCaseStays("success");
  }

  lemma PaidAndLinked()
    ensures var view := ViewBody(FINE, Some(PAID_ROW)); ViewIsPaid(view) && ViewHasServiceId(view)
  {
    assert Lower("Paid") == "paid";
  }

  // ---------------------------------------------------------------- the stages

  lemma SearchOn(pid: int, from: nat, creds: Creds, of: int, billing: string, c: seq<Event>, created: CreateResult)
    requires Follows(Forgetting(pid), from, c) && CreateRun(creds, of, billing, c, created) && from != 1
    ensures |c| == 2 && c[0].PackageRead? && c[1].CreateTried? && created == Replied(if from < 1 then GONE else MADE)
  {
    hide ApiOk, BillingUnavailable, Canonical, CandidatesOf, Forgetting, IsAnswer, Follows;
    GoneMeansGone();
    MadeHasId();
    FirstFollows(Forgetting(pid), from, c);
    ForgettingAnswers(pid, from, c[0]);
    UnknownPackageIsTried(Canonical(billing), c[0].package);
    FollowsPart(Forgetting(pid), from, c, 1);
    FirstFollows(Forgetting(pid), from + 1, c[1..]);
    ForgettingAnswers(pid, from + 1, c[1]);
  }

  lemma StageOn(pid: int, from: nat, e: seq<Event>, env: Env, creds: Creds, of: int, billing: string, restart: bool,
                invoice: InvoiceResult)
    requires Follows(Forgetting(pid), from, e) && from != 1 && env.autoGateway.Some? && (from < 1 ==> restart)
    requires InvoiceStage(e, env, creds, of, billing, true, restart, None, invoice)
    ensures if from < 1 then |e| == 3 && e[2].CredentialsCleared? && invoice.Again?
            else |e| == 2 && invoice == Have("77")
    ensures e[0].PackageRead? && e[1].CreateTried?
  {
    hide ApiOk, IdOf, CreateRun, EmailNotFound, Follows, Forgetting;
    GoneMeansGone();
    MadeHasId();
    var created, n :| 0 <= n <= |e| && CreateRun(creds, of, billing, e[..n], created)
                      && InvoiceEnds(created, e[n..], false, restart, invoice);
    FollowsPart(Forgetting(pid), from, e, n);
    SearchOn(pid, from, creds, of, billing, e[..n], created);
    assert e[0] == e[..n][0] && e[1] == e[..n][1];
    if from < 1 {
      assert e[n..][0] == e[2];
    }
  }

  /** Polling begins with its first round. */
  lemma {:induction false} BeginsWithFirst(cfg: PollConfig, rounds: seq<Round>)
    requires rounds != []
    ensures Play(cfg, 0, rounds[0]).events <= Flatten(cfg, rounds)
  {
    hide Play;
    if |rounds| == 1 {
      assert rounds[..0] == [];
    } else {
      BeginsWithFirst(cfg, rounds[..|rounds| - 1]);
    }
  }

  lemma RoundOn(pid: int, from: nat, cfg: PollConfig, round: Round)
    requires Follows(Forgetting(pid), from, Play(cfg, 0, round).events) && cfg.pid == pid
    ensures Play(cfg, 0, round).verdict.Deliver?
  {
    hide PaidStage, KnownStage, Forgetting, IsAnswer, EmailNotFound, ViewHasServiceId;
    FineIsFound();
    PaidAndLinked();
    var e := Play(cfg, 0, round).events;
    assert e[0] == Viewed(cfg.creds, cfg.invid, round.view);
    FirstFollows(Forgetting(pid), from, e);
    ForgettingAnswers(pid, from, e[0]);
    assert PendingVerdict(cfg, 0, IsPending(round)).Wait?;
    assert e[1] == AccountRead(cfg.creds, round.account);
    FollowsPart(Forgetting(pid), from, e, 1);
    FirstFollows(Forgetting(pid), from + 1, e[1..]);
    ForgettingAnswers(pid, from + 1, e[1]);
    ListedIsPicked(cfg, 0, round);
  }

  lemma ListedIsPicked(cfg: PollConfig, i: nat, round: Round)
    requires round.account == Got(Listed(cfg.pid))
    ensures PaidStage(cfg, i, round).verdict.Deliver?
  {
    hide Pick;
    var rows := [Row("fresh link", Some(7), cfg.pid, "Active")];
    assert HasLink(rows[0]);
    PickFindsEveryLink(rows, cfg.pid, cfg.knownSid);
  }

  lemma WaitOn(pid: int, from: nat, cfg: PollConfig, d: seq<Event>, poll: PollResult)
    requires Follows(Forgetting(pid), from, d) && WaitRun(cfg, d, poll) && cfg.maxAttempts > 0 && cfg.pid == pid
    ensures poll.Delivered?
  {
    hide Play, Follows, Forgetting;
    var rounds :| PollRun(cfg, rounds, poll) && d == Flatten(cfg, rounds);
    assert rounds != [];
    BeginsWithFirst(cfg, rounds);
    var first := Play(cfg, 0, rounds[0]).events;
    FollowsPart(Forgetting(pid), from, d, |first|);
    assert d[..|first|] == first;
    RoundOn(pid, from, cfg, rounds[0]);
    if |rounds| > 1 {
      assert rounds[..|rounds| - 1][0] == rounds[0];
    }
  }

  lemma PaymentOn(pid: int, from: nat, bill: Bill, p: seq<Event>, r: Outcome)
    requires Follows(Forgetting(pid), from, p) && PaidRun(bill, pid, true, p, r)
    ensures r.Delivered?
  {
    hide WaitRun, Follows, Forgetting, IsAnswer, ViewIsPaid, ViewHasServiceId, StrictRun, PayLooksAsync;
    PaidAndLinked();
    if SettleRun(bill, p, None) {
      SettledOn(pid, from, bill, p, None);
      assert false;
    }
    var n, pay :| 0 <= n <= |p| && IsPaymentRun(bill, true, p[..n], pay) && WaitsTo(bill, pid, pay, true, p[n..], r);
    var cfg := WaitConfig(bill.creds, bill.invid, pid, None, true, pay, true);
    var poll :| WaitRun(cfg, p[n..], poll) && r == OutcomeOf(poll, bill.creds, bill.invid);
    FollowsPart(Forgetting(pid), from, p, n);
    WaitOn(pid, from + n, cfg, p[n..], poll);
  }

  lemma SettledOn(pid: int, from: nat, bill: Bill, p: seq<Event>, pay: Option<PayBody>)
    requires Follows(Forgetting(pid), from, p) && SettleRun(bill, p, pay)
    ensures pay.Some?
  {
    hide Follows, Forgetting, IsAnswer, ViewIsPaid, ViewHasServiceId, StrictRun;
    PaidAndLinked();
    FirstFollows(Forgetting(pid), from, p);
    ForgettingAnswers(pid, from, p[0]);
  }

  // ---------------------------------------------------------------- the two passes

  lemma FirstPass(d: seq<Event>, env: Env, stored: Stored, pid: int, billing: string, r: Outcome)
    requires Follows(Forgetting(pid), 0, d) && PurchaseRun(d, env, stored, None, pid, billing, true, true, r)
    requires Trim(env.domain) != "" && env.autoGateway.Some? && IsComplete(stored)
    ensures |d| >= 3 && d[0].PackageRead? && d[1].CreateTried? && d[2].CredentialsCleared?
    ensures PurchaseRun(d[3..], env, Cleared(stored), None, pid, billing, true, false, r)
  {
    hide Follows, Forgetting, InvoiceStage, PayAndWaitRun, RegisterRun, RecoverRun, Trim;
    var creds := Creds(stored.email, stored.password);
    assert forall k, found :: 0 <= k <= |d| && CredentialsRun(d[..k], env, stored, true, found) ==>
                                k == 0 && found == Ready(creds);
    assert d[0..] == d;
    var m, invoice :| 0 <= m <= |d| && InvoiceStage(d[..m], env, creds, pid, billing, true, true, None, invoice)
                      && match invoice
                         case NoInvoice => m == |d| && r.Aborted?
                         case Again =>
                           PurchaseRun(d[m..], env, Wiped(stored, creds), None, pid, billing, true, false, r)
                         case Have(invid) => PayAndWaitRun(env, creds, invid, pid, true, d[m..], r);
    FollowsPart(Forgetting(pid), 0, d, m);
    StageOn(pid, 0, d[..m], env, creds, pid, billing, true, invoice);
    assert d[0] == d[..m][0] && d[1] == d[..m][1] && d[2] == d[..m][2];
  }

  lemma SecondPass(d: seq<Event>, from: nat, env: Env, stored: Stored, pid: int, billing: string, r: Outcome)
    requires Follows(Forgetting(pid), from, d) && from >= 2
    requires PurchaseRun(d, env, Cleared(stored), None, pid, billing, true, false, r)
    requires Trim(env.domain) != "" && !env.sendCode && env.autoGateway.Some?
    ensures d != [] && RefusedAsTaken(d[0]) && r.Delivered?
  {
    hide Follows, Forgetting, InvoiceStage, PaidRun, RecoverRun, Trim, IsAnswer, ApiOk, EmailAlreadyRegistered;
    hide MainEmail;
    TakenIsTaken();
    var k, found :| 0 <= k <= |d| && CredentialsRun(d[..k], env, Cleared(stored), false, found)
                    && AfterCredentials(d[k..], env, Cleared(stored), None, pid, billing, true, false, found, r);
    FollowsPart(Forgetting(pid), from, d, k);
    FirstFollows(Forgetting(pid), from, d[..k]);
    ForgettingAnswers(pid, from, d[..k][0]);
    assert d[0] == d[..k][0] && found.Ready?;
    var e, creds := d[k..], found.creds;
    var m, invoice :| 0 <= m <= |e| && InvoiceStage(e[..m], env, creds, pid, billing, true, false, None, invoice)
                      && match invoice
                         case NoInvoice => m == |e| && r.Aborted?
                         case Again => false
                         case Have(invid) => PayAndWaitRun(env, creds, invid, pid, true, e[m..], r);
    FollowsPart(Forgetting(pid), from + k, e, m);
    StageOn(pid, from + k, e[..m], env, creds, pid, billing, false, invoice);
    PaymentOn(pid, from + k + m, Bill(creds, "77", env.autoGateway.value), e[m..], r);
  }

  lemma WipedThenTaken(d: seq<Event>, stored: Stored)
    requires IsComplete(stored) && |d| > 3 && d[2].CredentialsCleared? && RefusedAsTaken(d[3]) && SumOf(d).clears <= 1
    ensures Strays(d, stored, true)
  {
    hide SumOf, RefusedAsTaken, WipesAlternate;
    var a, b := d[..3], d[3..];
    assert a + b == d;
    SumOfConcat(a, b);
    ClearFree(a);
    ClearFree(b);
    ClearedAtEnd(a);
    RestartStrays(a, b, stored, Cleared(stored));
    assert b[0] == d[3];
  }

  /** A panel that has lost the user's account: the purchase wipes the stored credentials, meets the standing
      address taken, goes on with a password of its own making, and delivers a link bought with credentials
      the user does not hold. */
  method RestartOnTakenAddress(idText: string, env: Env, pid: int, billing: string) returns (r: Outcome, held: bool)
    requires Trim(env.domain) != "" && !env.sendCode && env.autoGateway.Some?
    ensures r.Delivered? && !held
  {
    hide PurchaseRun, Follows, Forgetting, RefusedAsTaken, Strays, SumOf, AllActAs, SawPaid, SinceClear, Trim;
    var api := new Api(Forgetting(pid));
    var user := new User(idText, "tg1@shop", "secret", "", false);
    var order := new ShopOrder("", "", Creds("", ""));
    ghost var stored := StoredOf(user);
    FreshOrder(order);
    SecretIsRead(user);
    ghost var d;
    r, d := DoNewPurchase(api, env, user, order, pid, billing, true, true);
    assert api.log == d;
    FirstPass(d, env, stored, pid, billing, r);
    FollowsPart(Forgetting(pid), 0, d, 3);
    SecondPass(d[3..], 3, env, stored, pid, billing, r);
    WipedThenTaken(d, stored);
    held := user.Holds(r.creds);
  }

  lemma FreshOrder(order: ShopOrder)
    requires order.invId == ""
    ensures order.Reusable() == None
  {
    assert Trim("") == "";
  }

  lemma SecretIsRead(user: User)
    requires user.email == "tg1@shop" && user.password == "secret"
    ensures IsComplete(StoredOf(user))
  {
    assert Trim("secret") == "secret";
  }
}

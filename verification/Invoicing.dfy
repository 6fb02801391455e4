/** The invoice of a purchase: the stored one, or a new one whose id is stored. */
module Invoicing {
  import opened Text
  import opened Numbers
  import opened Panel
  import opened InvoicePay
  import opened Billing
  import opened Tally
  import opened Credentials
  import opened Accounts

  /** The order columns this flow reads and writes; '' stands for null. `maker` is whose credentials made
      the stored invoice. */
  class ShopOrder {
    var invId: string
    var config: string
    ghost var maker: Creds

    constructor (invId: string, config: string, ghost maker: Creds)
      ensures this.invId == invId && this.config == config && this.maker == maker
    {
      this.invId, this.config, this.maker := invId, config, maker;
    }

    /** An invoice made earlier is used again until the order has its link. */
    predicate CanReuse()
      reads this
    {
      Trim(invId) != "" && Trim(config) == ""
    }

    function Reusable(): Option<string>
      reads this
    {
      if CanReuse() then Some(Trim(invId)) else None
    }
  }

  /** The invoice that would be used again was made with the credentials the user holds. */
  ghost predicate Matches(user: User, order: ShopOrder)
    reads user, order
  {
    order.CanReuse() ==> user.Holds(order.maker)
  }

  datatype InvoiceResult = Have(invid: string) | Again | NoInvoice

  /** Attempts of which none but perhaps the last one was accepted. */
  predicate IsSearch(tries: seq<Event>, creds: Creds) {
    && (forall k :: 0 <= k < |tries| ==> tries[k].CreateTried? && tries[k].creds == creds)
    && (forall k :: 0 <= k < |tries| - 1 ==> !IsAccepted(tries[k]))
  }

  predicate EndsAccepted(tries: seq<Event>) {
    tries != [] && IsAccepted(tries[|tries| - 1])
  }

  predicate EndsWithId(tries: seq<Event>) {
    tries != [] && YieldsId(tries[|tries| - 1])
  }

  lemma SearchSplits(tries: seq<Event>, creds: Creds)
    requires IsSearch(tries, creds) && tries != []
    ensures var front, last := tries[..|tries| - 1], tries[|tries| - 1];
            && tries == front + [last] && IsSearch(front, creds) && !EndsWithId(front) && !EndsAccepted(front)
            && last.CreateTried? && last.creds == creds
            && (EndsWithId(tries) <==> YieldsId(last)) && (EndsAccepted(tries) <==> IsAccepted(last))
  {
    hide IsAccepted;
    var front := tries[..|tries| - 1];
    assert forall k :: 0 <= k < |front| ==> front[k] == tries[k];
  }

  lemma {:induction false} AttemptsSum(tries: seq<Event>, creds: Creds)
    requires IsSearch(tries, creds)
    ensures AllActAs(tries, creds)
    ensures SumOf(tries) == CreateSum(EndsAccepted(tries), EndsWithId(tries))
  {
    hide SumOf, SumOfEvent, AllActAs, IsSearch, EndsAccepted, EndsWithId, CreateSum, IsAccepted, YieldsId;
    EmptySegment();
    NothingTried();
    if tries != [] {
      var front, last := tries[..|tries| - 1], tries[|tries| - 1];
      SearchSplits(tries, creds);
      AttemptsSum(front, creds);
      AddAttempt(front, last, creds);
    }
  }

  function CreateSum(accepted: bool, id: bool): Sum {
    ZERO.(invoices := One(accepted), ids := One(id))
  }

  lemma NothingTried()
    ensures !EndsWithId([]) && !EndsAccepted([]) && CreateSum(false, false) == ZERO
  {
  }

  lemma AddAttempt(front: seq<Event>, e: Event, creds: Creds)
    requires AllActAs(front, creds) && SumOf(front) == ZERO && e.CreateTried? && e.creds == creds
    ensures AllActAs(front + [e], creds)
    ensures SumOf(front + [e]) == CreateSum(IsAccepted(e), YieldsId(e))
  {
    hide SumOf, SumOfEvent, IsAccepted, YieldsId, AllActAs;
    SumOfAppend(front, e);
    AttemptCounts(e);
    AttemptActs(e);
    ActAsConcat(front, [e], e.creds);
  }

  lemma AttemptActs(e: Event)
    requires e.CreateTried?
    ensures AllActAs([e], e.creds)
  {
  }

  lemma AttemptCounts(e: Event)
    requires e.CreateTried?
    ensures SumOfEvent(e) == ZERO.(invoices := One(IsAccepted(e)), ids := One(YieldsId(e)))
  {
    hide IsAccepted, IsWrongGateway;
  }

  /** A billing search as a list of attempts. */
  lemma CreateShape(creds: Creds, pid: int, billing: string, d: seq<Event>, r: CreateResult)
    requires CreateRun(creds, pid, billing, d, r)
    ensures d != [] && d[0].PackageRead? && IsSearch(d[1..], creds)
    ensures EndsWithId(d[1..]) <==> GivesId(r)
    ensures EndsAccepted(d[1..]) <==> GivesInvoice(r)
  {
    hide ApiOk, IdOf, CandidatesOf, BillingUnavailable, Canonical;
    SearchAcceptsAtMostOne(creds, pid, billing, d, r);
    assert forall k :: 1 <= k < |d| ==> d[k] == d[1..][k - 1];
  }

  predicate GivesInvoice(r: CreateResult) {
    r.Replied? && ApiOk(r.body)
  }

  predicate GivesId(r: CreateResult) {
    GivesInvoice(r) && IdOf(r.body) != ""
  }

  lemma PackageSegment(e: Event, creds: Creds)
    requires e.PackageRead?
    ensures SumOf([e]) == ZERO && AllActAs([e], creds)
  {
    hide SumOf, SumOfEvent;
    SumOfOne(e);
    SumOfPlainEvent(e);
  }

  /** What the billing search adds to the counts: at most one id, and only as its result. */
  lemma CreateSegment(creds: Creds, pid: int, billing: string, d: seq<Event>, r: CreateResult)
    requires CreateRun(creds, pid, billing, d, r)
    ensures AllActAs(d, creds)
    ensures SumOf(d) == CreateSum(GivesInvoice(r), GivesId(r))
  {
    hide SumOf, AllActAs, CreateRun, IsSearch, EndsAccepted, EndsWithId, GivesInvoice, GivesId, CreateSum, Sum.Plus;
    hide ZERO;
    CreateShape(creds, pid, billing, d, r);
    var tries := d[1..];
    assert d == [d[0]] + tries;
    SumOfConcat([d[0]], tries);
    PackageSegment(d[0], creds);
    AttemptsSum(tries, creds);
    ActAsConcat([d[0]], tries, creds);
    ZeroPlus(SumOf(tries));
  }

  lemma ZeroPlus(a: Sum)
    ensures ZERO.Plus(a) == a
  {
  }

  /** The id of an accepted invoice is lost, and with it the invoice, exactly when it is neither a text that
      is not blank, at the top or else under data, nor a number at the top: a number that arrives only under
      data is not read. The flow then throws. */
  lemma IdIsLostExactlyWhen(api: ApiBody, mark: bool, restart: bool, t: seq<Event>, r: InvoiceResult)
    ensures IdOf(api) == "" <==>
              match api.invid
              case NoId => !(api.dataInvid.TextId? && Trim(api.dataInvid.text) != "")
              case TextId(text) => Trim(text) == ""
              case NumberId(text) => Trim(text) == ""
    ensures IdOf(api) != "" ==>
              var found := if api.invid.NoId? then api.dataInvid else api.invid;
              !found.NoId? && IdOf(api) == Trim(found.text)
    ensures ApiOk(api) && InvoiceEnds(Replied(api), t, mark, restart, r) ==> (r.NoInvoice? <==> IdOf(api) == "")
  {
    hide ApiOk, EmailNotFound;
    assert Trim("") == "";
  }

  lemma IdIsTrimmed(api: ApiBody)
    ensures Trim(IdOf(api)) == IdOf(api)
  {
    var found := if api.invid.NoId? then api.dataInvid else api.invid;
    TrimIdempotent(if found.TextId? && found.text != "" then found.text
                   else if api.invid.NoId? then ""
                   else api.invid.text);
  }

  /** What becomes of the last answer to invoice/create. `restart` says that the user may be wiped. */
  predicate InvoiceEnds(created: CreateResult, t: seq<Event>, mark: bool, restart: bool, r: InvoiceResult) {
    if !created.Replied? then t == [] && r.NoInvoice?
    else if !ApiOk(created.body) then
      if restart && EmailNotFound(created.body.env) then t == [CredentialsCleared] && r.Again?
      else t == [] && r.NoInvoice?
    else if IdOf(created.body) == "" then t == [] && r.NoInvoice?
    else t == (if mark then [MarkedPaid(IdOf(created.body))] else []) && r == Have(IdOf(created.body))
  }

  ghost predicate InvoiceRun(d: seq<Event>, creds: Creds, pid: int, billing: string, mark: bool, restart: bool,
                             r: InvoiceResult) {
    exists created, n ::
      0 <= n <= |d| && CreateRun(creds, pid, billing, d[..n], created) && InvoiceEnds(created, d[n..], mark, restart, r)
  }

  lemma InvoiceRunFrom(c: seq<Event>, t: seq<Event>, creds: Creds, pid: int, billing: string, created: CreateResult,
                       mark: bool, restart: bool, r: InvoiceResult)
    requires CreateRun(creds, pid, billing, c, created) && InvoiceEnds(created, t, mark, restart, r)
    ensures InvoiceRun(c + t, creds, pid, billing, mark, restart, r)
  {
    hide CreateRun, InvoiceEnds;
    assert (c + t)[..|c|] == c && (c + t)[|c|..] == t;
  }

  /** What the invoice stage adds to the counts. */
  predicate InvoiceCounts(d: seq<Event>, mark: bool, r: InvoiceResult) {
    && SumOf(d) == ZERO.(invoices := SumOf(d).invoices, ids := One(r.Have?), clears := One(r.Again?),
                         marks := One(r.Have? && mark))
    && One(r.Have?) <= SumOf(d).invoices <= One(!r.Again?)
  }

  lemma InvoiceTally(c: seq<Event>, t: seq<Event>, creds: Creds, pid: int, billing: string, created: CreateResult,
                     mark: bool, restart: bool, r: InvoiceResult)
    requires CreateRun(creds, pid, billing, c, created) && InvoiceEnds(created, t, mark, restart, r)
    ensures InvoiceRun(c + t, creds, pid, billing, mark, restart, r)
    ensures AllActAs(c + t, creds) && InvoiceCounts(c + t, mark, r)
    ensures r.Again? ==> SinceClear(c + t) == []
    ensures r.Have? ==> Trim(r.invid) == r.invid != ""
  {
    hide CreateRun, SumOf, SumOfEvent, AllActAs, ApiOk, IdOf, EmailNotFound, InvoiceRun, SinceClear, Trim;
    InvoiceRunFrom(c, t, creds, pid, billing, created, mark, restart, r);
    CreateSegment(creds, pid, billing, c, created);
    assert c + [] == c;
    if t != [] {
      SumOfAppend(c, t[0]);
      SumOfPlainEvent(t[0]);
      OwnWriteActsAsAnyone(t[0], creds);
      ActAsConcat(c, t, creds);
      if r.Again? {
        ClearedAtEnd(c + t);
      }
    }
    if r.Have? {
      IdIsTrimmed(created.body);
    }
  }

  lemma OwnWriteActsAsAnyone(e: Event, creds: Creds)
    requires e.CredentialsCleared? || e.MarkedPaid?
    ensures AllActAs([e], creds)
  {
  }

  /** The whole stage: the stored invoice without a call, or the search for a new one. */
  ghost predicate InvoiceStage(d: seq<Event>, env: Env, creds: Creds, pid: int, billing: string, shop: bool,
                               restart: bool, reuse: Option<string>, r: InvoiceResult) {
    match reuse
    case Some(invid) => d == [] && r == Have(invid)
    case None => InvoiceRun(d, creds, pid, billing, shop && env.autoGateway.None? && env.invoiceDbSync, restart, r)
  }

  /** What the stage means for the counts. */
  lemma StageCounts(d: seq<Event>, reused: bool, mark: bool, r: InvoiceResult)
    requires if reused then d == [] && !r.Again? else InvoiceCounts(d, mark, r)
    ensures SumOf(d).registers == 0 && SumOf(d).wrong == 0
    ensures SumOf(d).clears == One(r.Again?)
    ensures SumOf(d).ids == One(!reused && r.Have?)
    ensures One(!reused && r.Have?) <= SumOf(d).invoices <= One(!reused && !r.Again?)
    ensures SumOf(d).marks == One(!reused && r.Have? && mark)
  {
    hide SumOf;
    EmptySegment();
  }

  /** The second part of doNewPurchase: the stored invoice, or a new one whose id is stored. */
  method EnsureInvoice(api: Api, env: Env, user: User, order: ShopOrder, creds: Creds, pid: int, billing: string,
                       shop: bool, allow: bool)
    returns (r: InvoiceResult, ghost d: seq<Event>)
    requires api.IsFaithful()
    modifies api, user, order
    ensures api.IsFaithful() && api.log == old(api.log) + d
    ensures InvoiceStage(d, env, creds, pid, billing, shop, allow && old(user.email) != "", old(order.Reusable()), r)
    ensures if old(order.CanReuse()) then d == []
            else InvoiceCounts(d, shop && env.autoGateway.None? && env.invoiceDbSync, r)
    ensures AllActAs(d, creds)
    ensures order.config == old(order.config)
    ensures order.invId == if r.Have? && !old(order.CanReuse()) then r.invid else old(order.invId)
    ensures order.maker == if r.Have? && !old(order.CanReuse()) then creds else old(order.maker)
    ensures r.Have? ==> Trim(order.invId) == r.invid != ""
    ensures old(order.CanReuse()) ==> r.Have?
    ensures r.Again? ==>
              && allow && SinceClear(d) == [] && user.email == "" && !user.stale && user.unset == !old(user.stale)
              && if old(user.stale) then StoredOf(user).password == old(StoredOf(user)).password else user.IsCleared()
    ensures !r.Again? ==> unchanged(user)
  {
    hide ApiOk, IdOf, SumOf, AllActAs, CreateRun, EmailNotFound, SinceClear, Trim;
    hide InvoiceRun, InvoiceCounts, Follows, Rehydrated, PhpEmpty, AttemptsRun;
    d := [];
    EmptySegment();
    if order.CanReuse() {
      TrimIdempotent(order.invId);
      return Have(Trim(order.invId)), d;
    }
    var mark := shop && env.autoGateway.None? && env.invoiceDbSync;
    var restart := allow && user.email != "";
    var created;
    ghost var c;
    created, c := CreateWithFallback(api, creds, pid, billing);
    d := c;
    assert c + [] == c;
    if !created.Replied? {
      InvoiceTally(c, [], creds, pid, billing, created, mark, restart, NoInvoice);
      return NoInvoice, d;
    }
    if !ApiOk(created.body) {
      if allow && EmailNotFound(created.body.env) && user.email != "" {
        user.Clear();
        api.Note(CredentialsCleared);
        InvoiceTally(c, [CredentialsCleared], creds, pid, billing, created, mark, restart, Again);
        return Again, d + [CredentialsCleared];
      }
      InvoiceTally(c, [], creds, pid, billing, created, mark, restart, NoInvoice);
      return NoInvoice, d;
    }
    var invid := IdOf(created.body);
    if invid == "" {
      InvoiceTally(c, [], creds, pid, billing, created, mark, restart, NoInvoice);
      return NoInvoice, d;
    }
    order.invId, order.maker := invid, creds;
    ghost var t := [];
    if !(shop && env.autoGateway.Some?) && shop && env.invoiceDbSync {
      api.Note(MarkedPaid(invid));
      t := [MarkedPaid(invid)];
      d := d + t;
    }
    InvoiceTally(c, t, creds, pid, billing, created, mark, restart, Have(invid));
    r := Have(invid);
  }
}

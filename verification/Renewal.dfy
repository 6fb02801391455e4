/** provisionPurchase for a renewal: may it be renewed, its invoice, payment, link and enforcement. */
module Renewal {
  import opened Text
  import opened Numbers
  import opened Panel
  import opened RowSelection
  import opened Polling
  import opened InvoicePay
  import opened ReplyFacts
  import opened Tally
  import opened Credentials
  import opened Invoicing
  import opened Payment
  import opened RenewalDates
  import opened ServiceRules
  import opened Enforcement

  /** What a renewal needs of the order it renews. */
  datatype Original = Original(panelUsername: string, sid: Option<int>)

  // ---------------------------------------------------------------- may this service be renewed

  ghost predicate FlippedAtMost(before: map<int, ServiceRecord>, after: map<int, ServiceRecord>, sid: int) {
    after == before || (sid in before && after == before[sid := FlippedToExpired(before[sid])])
  }

  lemma FlipMovesNoDate(before: map<int, ServiceRecord>, middle: map<int, ServiceRecord>,
                        after: map<int, ServiceRecord>, sid: int)
    requires FlippedAtMost(before, middle, sid) && DueMovedAtMostOnce(middle, after, sid)
    ensures DueMovedAtMostOnce(before, after, sid)
  {
    hide NewDue;
    if sid in before {
      var due := before[sid].due;
      assert middle[sid].due == due;
      if after[sid].due != due {
        var now, days :| after[sid].due == Known(NewDue(middle[sid].due, now, days));
        assert after[sid].due == Known(NewDue(due, now, days));
      }
    }
  }

  lemma NothingSeen()
    ensures !SawItMissing([])
  {
  }

  lemma BeginsSomewhere(d: seq<Event>, sid: int)
    ensures BeginsEligible(d, sid) ==> d != []
  {
  }

  /** The renewal begins with a look at the service, and that look says it may be renewed. */
  predicate BeginsEligible(d: seq<Event>, sid: int) {
    d != [] && d[0].ServiceRead? && d[0].sid == sid > 0 && d[0].service.Got? && MayRenew(d[0].service.body)
  }

  function RenewalEmail(stored: Stored, original: Original): string {
    if stored.email != "" then stored.email else original.panelUsername
  }

  /** The look that decides: the stored address, or else the order's, trimmed for this one call. */
  predicate PrepareRun(d: seq<Event>, stored: Stored, original: Original, r: Option<Creds>) {
    var email := RenewalEmail(stored, original);
    if stored.password == "" || original.sid.None? || original.sid.value <= 0 || Trim(email) == ""
    then d == [] && r.None?
    else
      && |d| == 1 && IsServiceRead(d[0], Creds(Trim(email), stored.password), original.sid.value)
      && r == if d[0].service.Got? && MayRenew(d[0].service.body) then Some(Creds(email, stored.password)) else None
  }

  /** Low on traffic and not expired: the panel would not renew it as it is. */
  predicate WantsFlip(d: seq<Event>) {
    && d != [] && d[0].ServiceRead? && d[0].service.Got?
    && HasLowTraffic(RowOf(d[0].service.body)) && !IsExpired(RowOf(d[0].service.body))
  }

  predicate CanFlip(rows: map<int, ServiceRecord>, sid: int) {
    sid in rows && rows[sid].status == ACTIVE && IsDepleted(rows[sid].traffic, rows[sid].u + rows[sid].d)
  }

  /** When a renewal turns an Active service into an expired one before it asks for the renewal. */
  predicate Flips(d: seq<Event>, env: Env, up: bool, rows: map<int, ServiceRecord>, sid: int) {
    BeginsEligible(d, sid) && WantsFlip(d) && env.mysqlDirect && up && CanFlip(rows, sid)
  }

  function AfterFlip(rows: map<int, ServiceRecord>, sid: int, flips: bool): map<int, ServiceRecord> {
    if flips && sid in rows then rows[sid := FlippedToExpired(rows[sid])] else rows
  }

  lemma FlipChangesRow(rows: map<int, ServiceRecord>, sid: int)
    requires CanFlip(rows, sid)
    ensures AfterFlip(rows, sid, true) != rows && AfterFlip(rows, sid, true)[sid].status == EXPIRED
  {
    assert AfterFlip(rows, sid, true)[sid] != rows[sid];
  }

  lemma FlipShows(d: seq<Event>, env: Env, up: bool, rows: map<int, ServiceRecord>, sid: int)
    ensures AfterFlip(rows, sid, Flips(d, env, up, rows, sid)) != rows <==> Flips(d, env, up, rows, sid)
  {
    hide CanFlip, WantsFlip, BeginsEligible;
    if Flips(d, env, up, rows, sid) {
      FlipChangesRow(rows, sid);
    }
  }

  lemma FlipsStill(d: seq<Event>, e: seq<Event>, env: Env, up: bool, rows: map<int, ServiceRecord>, sid: int)
    requires d != [] || e == []
    ensures Flips(d + e, env, up, rows, sid) <==> Flips(d, env, up, rows, sid)
  {
    hide MayRenew, HasLowTraffic, IsExpired, CanFlip;
    assert e == [] ==> d + e == d;
  }

  /** evaluateForOrder, and the credentials a renewal goes on with; `low` asks for the flip. */
  method AskEligibility(api: Api, user: User, original: Original)
    returns (r: Option<Creds>, low: bool, ghost d: seq<Event>)
    requires api.IsFaithful()
    modifies api, user
    ensures api.IsFaithful() && api.log == old(api.log) + d
    ensures PrepareRun(d, old(StoredOf(user)), original, r) && SumOf(d) == ZERO
    ensures StoredOf(user) == old(StoredOf(user)) && !user.stale
    ensures r.Some? ==> original.sid.Some? && (low <==> WantsFlip(d))
    ensures original.sid.Some? ==> (r.Some? <==> BeginsEligible(d, original.sid.value))
  {
    hide SumOf, MayRenew, IsExpired, HasLowTraffic, Trim, Rehydrated, Follows;
    d := [];
    EmptySegment();
    TrimOfEmpty();
    var password := ResolvePassword(user);
    var email := if user.email != "" then user.email else original.panelUsername;
    if email == "" || password == "" || original.sid.None? {
      return None, false, d;
    }
    var sid := original.sid.value;
    if sid <= 0 || Trim(email) == "" {
      return None, false, d;
    }
    var creds := Creds(Trim(email), password);
    var look := api.ServiceInfo(creds, sid);
    d := [ServiceRead(creds, sid, look)];
    QuietEvent(d[0]);
    if look.Threw? || !MayRenew(look.body) {
      return None, false, d;
    }
    var row := RowOf(look.body);
    low := HasLowTraffic(row) && !IsExpired(row);
    r := Some(Creds(email, password));
  }

  /** doRenewal up to and including the eligibility rule and the flip of a used-up service. */
  method PrepareRenewal(api: Api, table: ServiceTable, env: Env, user: User, original: Original)
    returns (r: Option<Creds>, ghost d: seq<Event>)
    requires api.IsFaithful()
    modifies api, table, user
    ensures api.IsFaithful() && api.log == old(api.log) + d
    ensures PrepareRun(d, old(StoredOf(user)), original, r) && SumOf(d) == ZERO
    ensures StoredOf(user) == old(StoredOf(user))
    ensures if original.sid.None? then r.None? && table.rows == old(table.rows)
            else
              var sid, before := original.sid.value, old(table.rows);
              && (r.Some? <==> BeginsEligible(d, sid))
              && table.rows == AfterFlip(before, sid, Flips(d, env, table.up(old(table.tries)), before, sid))
              && FlippedAtMost(before, table.rows, sid)
  {
    hide SumOf, MayRenew, IsExpired, HasLowTraffic, Trim, Rehydrated, IsDepleted, Follows, StoredOf;
    var low;
    r, low, d := AskEligibility(api, user, original);
    if r.Some? && low {
      var _ := table.MarkDepleted(env.mysqlDirect, original.sid.value);
    }
  }

  lemma TrimOfEmpty()
    ensures Trim("") == ""
  {
  }

  // ---------------------------------------------------------------- the renewal invoice

  /** service/renew's invoice id: a text or a number at the top level. */
  function RenewalIdOf(api: ApiBody): string {
    if api.invid.NoId? then "" else Trim(api.invid.text)
  }

  /** The panel disowns the stored invoice, or the service it would renew. */
  predicate Disowns(e: Event) {
    || (e.Viewed? && e.view.Got? && !ViewHasServiceId(e.view.body))
    || (e.ServiceRead? && e.service.Threw? && SaysNotFound(e.service.error))
  }

  predicate AnyDisowns(d: seq<Event>) {
    exists k :: 0 <= k < |d| && Disowns(d[k])
  }

  lemma DisownedLater(d: seq<Event>, e: seq<Event>)
    ensures AnyDisowns(d + e) <==> AnyDisowns(d) || AnyDisowns(e)
  {
    hide Disowns;
    var both := d + e;
    assert forall k :: 0 <= k < |d| ==> both[k] == d[k];
    assert forall k :: 0 <= k < |e| ==> both[|d| + k] == e[k];
    assert forall k :: |d| <= k < |both| ==> both[k] == e[k - |d|];
  }

  lemma DisownedNow(e: Event)
    ensures AnyDisowns([e]) <==> Disowns(e)
  {
    assert [e][0] == e;
  }

  /** A stored invoice is looked at, and its service too unless the invoice is disowned at once. */
  predicate CheckRun(d: seq<Event>, creds: Creds, sid: int, stored: string) {
    if stored == "" then d == []
    else
      && d != [] && d[0].Viewed? && d[0].creds == creds && d[0].invid == stored
      && if Disowns(d[0]) then |d| == 1 else |d| == 2 && IsServiceRead(d[1], creds, sid)
  }

  function KeptInvoice(d: seq<Event>, stored: string): string {
    if AnyDisowns(d) then "" else stored
  }

  /** The stored renewal invoice, when the panel still knows it and its service. */
  method CheckStoredInvoice(api: Api, order: ShopOrder, creds: Creds, sid: int)
    returns (invid: string, ghost d: seq<Event>)
    requires api.IsFaithful()
    modifies api, order
    ensures api.IsFaithful() && api.log == old(api.log) + d
    ensures CheckRun(d, creds, sid, Trim(old(order.invId))) && SumOf(d) == ZERO
    ensures invid == KeptInvoice(d, Trim(old(order.invId)))
    ensures order.invId == if AnyDisowns(d) then "" else old(order.invId)
    ensures order.config == old(order.config)
  {
    hide SumOf, Trim, ViewHasServiceId, SaysNotFound, AnyDisowns;
    d := [];
    EmptySegment();
    assert !AnyDisowns(d) by { NothingDisowned(); }
    invid := Trim(order.invId);
    if invid != "" {
      var view := api.InvoiceView(creds, invid);
      var seen := Viewed(creds, invid, view);
      QuietEvent(seen);
      DisownedNow(seen);
      d := [seen];
      if view.Got? && !ViewHasServiceId(view.body) {
        order.invId := "";
        return "", d;
      }
      var info := api.ServiceInfo(creds, sid);
      var read := ServiceRead(creds, sid, info);
      QuietAfter(d, [read]);
      DisownedNow(read);
      DisownedLater(d, [read]);
      d := d + [read];
      if info.Threw? && SaysNotFound(info.error) {
        invid := "";
        order.invId := "";
      }
    }
  }

  lemma NothingDisowned()
    ensures !AnyDisowns([])
  {
  }

  /** setRenewalInvoiceServiceId: with the sync on, the invoice row is made to name the service it renews. */
  function Linking(sync: bool, invid: string, sid: int): seq<Event> {
    if sync then [LinkedInvoice(invid, sid)] else []
  }

  /** The answer to service/renew, and the shop's own writes after it. */
  predicate RenewRun(t: seq<Event>, creds: Creds, sid: int, sync: bool, mark: bool, r: Option<string>) {
    && t != [] && t[0].RenewTried? && t[0].creds == creds && t[0].sid == sid
    && if t[0].renewed.Threw? || !ApiOk(t[0].renewed.body) then |t| == 1 && r.None?
       else
         var invid := RenewalIdOf(t[0].renewed.body);
         && r == Some(invid)
         && t[1..] == if invid == "" then []
                      else Linking(sync, invid, sid) + if mark then [MarkedPaid(invid)] else []
  }

  ghost predicate RenewalInvoiceRun(d: seq<Event>, creds: Creds, sid: int, stored: string, sync: bool, mark: bool,
                                    r: Option<string>) {
    exists n ::
      && 0 <= n <= |d| && CheckRun(d[..n], creds, sid, stored)
      && var kept := KeptInvoice(d[..n], stored);
         if kept != "" then d[n..] == Linking(sync, kept, sid) && r == Some(kept)
         else RenewRun(d[n..], creds, sid, sync, mark, r)
  }

  lemma InvoiceRenewedFrom(c: seq<Event>, t: seq<Event>, creds: Creds, sid: int, stored: string, sync: bool, mark: bool,
                           r: Option<string>)
    requires CheckRun(c, creds, sid, stored)
    requires var kept := KeptInvoice(c, stored);
             if kept != "" then t == Linking(sync, kept, sid) && r == Some(kept)
             else RenewRun(t, creds, sid, sync, mark, r)
    ensures RenewalInvoiceRun(c + t, creds, sid, stored, sync, mark, r)
  {
    hide CheckRun, KeptInvoice, RenewRun, Linking;
    var d, n := c + t, |c|;
    assert d[..n] == c && d[n..] == t;
  }

  lemma RenewedInTurn(c: seq<Event>, t: seq<Event>)
    requires SumOf(c) == ZERO && SumOf(t) == ZERO.(marks := SumOf(t).marks)
    ensures SumOf(c + t) == ZERO.(marks := SumOf(t).marks)
  {
    hide SumOf;
    SumOfConcat(c, t);
  }

  /** service/renew and the writes after it add up to the mark, and disown nothing. */
  lemma RenewalCounts(asked: Event, links: seq<Event>, marks: seq<Event>)
    requires asked.RenewTried? && |links| <= 1 && (links != [] ==> links[0].LinkedInvoice?)
    requires |marks| <= 1 && (marks != [] ==> marks[0].MarkedPaid?)
    ensures var t := [asked] + (links + marks);
            SumOf(t) == ZERO.(marks := |marks|) && !AnyDisowns(t)
  {
    hide SumOf, SumOfEvent;
    QuietEvent(asked);
    QuietAfter([asked], links);
    var d := [asked] + links;
    if marks != [] {
      MarkAfter(d, marks[0].invid);
      assert d + [MarkedPaid(marks[0].invid)] == [asked] + (links + marks);
    } else {
      assert links + marks == links;
    }
  }

  method NameService(api: Api, env: Env, invid: string, sid: int) returns (ghost t: seq<Event>)
    requires api.IsFaithful()
    modifies api
    ensures api.IsFaithful() && api.log == old(api.log) + t
    ensures t == Linking(env.invoiceDbSync, invid, sid)
    ensures env.invoiceDbSync ==> LinkedInvoice(invid, sid) in t
  {
    t := Linking(env.invoiceDbSync, invid, sid);
    if env.invoiceDbSync {
      api.Note(LinkedInvoice(invid, sid));
      assert t[0] == LinkedInvoice(invid, sid);
    }
  }

  /** service/renew; its invoice id is stored, and the row is marked Paid by SQL only where the next step
      throws for want of a gateway. */
  method MakeRenewalInvoice(api: Api, env: Env, order: ShopOrder, creds: Creds, sid: int, shop: bool)
    returns (r: Option<string>, ghost t: seq<Event>)
    requires api.IsFaithful()
    modifies api, order
    ensures api.IsFaithful() && api.log == old(api.log) + t
    ensures RenewRun(t, creds, sid, env.invoiceDbSync, MarksRenewal(env, shop), r)
    ensures SumOf(t) == ZERO.(marks := SumOf(t).marks) && !AnyDisowns(t)
    ensures SumOf(t).marks != 0 ==> MarksRenewal(env, shop) && r.Some? && r.value != ""
    ensures order.config == old(order.config)
    ensures if r.Some? && r.value != "" then Trim(order.invId) == order.invId == r.value
            else order.invId == old(order.invId)
    ensures env.invoiceDbSync && r.Some? && r.value != "" ==> LinkedInvoice(r.value, sid) in t
  {
    hide SumOf, Trim, AnyDisowns, ApiOk, RenewalIdOf, Follows;
    var renewed := api.ServiceRenew(creds, sid);
    var asked := RenewTried(creds, sid, renewed);
    t := [asked];
    RenewalCounts(asked, [], []);
    assert [asked] + ([] + []) == t;
    if renewed.Threw? || !ApiOk(renewed.body) {
      return None, t;
    }
    var invid := RenewalIdOf(renewed.body);
    RenewalIdIsTrimmed(renewed.body);
    if invid != "" {
      order.invId, order.maker := invid, creds;
      ghost var links := NameService(api, env, invid, sid);
      ghost var mark := MarksRenewal(env, shop);
      if !(shop && env.autoGateway.Some?) && shop && env.invoiceDbSync {
        api.Note(MarkedPaid(invid));
      }
      RenewalCounts(asked, links, if mark then [MarkedPaid(invid)] else []);
      t := [asked] + (links + if mark then [MarkedPaid(invid)] else []);
      assert t[1..] == links + if mark then [MarkedPaid(invid)] else [];
    }
    r := Some(invid);
  }

  /** The invoice stored afterwards. */
  function Kept(invoice: Option<string>): string {
    if invoice.Some? then invoice.value else ""
  }

  /** The stored invoice, or the one service/renew makes; None where the source throws. */
  method RenewalInvoice(api: Api, env: Env, order: ShopOrder, creds: Creds, sid: int, shop: bool)
    returns (r: Option<string>, ghost d: seq<Event>)
    requires api.IsFaithful()
    modifies api, order
    ensures api.IsFaithful() && api.log == old(api.log) + d
    ensures RenewalInvoiceRun(d, creds, sid, Trim(old(order.invId)), env.invoiceDbSync, MarksRenewal(env, shop), r)
    ensures SumOf(d) == ZERO.(marks := SumOf(d).marks)
    ensures SumOf(d).marks != 0 ==> MarksRenewal(env, shop) && r.Some? && r.value != ""
    ensures Trim(order.invId) == Kept(r)
    // An invoice the panel does not disown is used again.
    ensures Trim(old(order.invId)) != "" && !AnyDisowns(d) ==>
              r == Some(Trim(old(order.invId))) && order.invId == old(order.invId)
    // Before it is paid, the invoice's row is made to name the service, where the shop can write it.
    ensures env.invoiceDbSync && r.Some? && r.value != "" ==> LinkedInvoice(r.value, sid) in d
    ensures order.config == old(order.config)
  {
    hide SumOf, Trim, AnyDisowns, ApiOk, RenewalIdOf, CheckRun, RenewRun, RenewalInvoiceRun, Follows, MarksRenewal;
    ghost var stored, sync, mark := Trim(order.invId), env.invoiceDbSync, MarksRenewal(env, shop);
    var invid;
    ghost var c, t;
    invid, c := CheckStoredInvoice(api, order, creds, sid);
    TrimIdempotent(order.invId);
    TrimOfEmpty();
    if invid == "" {
      r, t := MakeRenewalInvoice(api, env, order, creds, sid, shop);
    } else {
      r := Some(invid);
      t := NameService(api, env, invid, sid);
      NamingIsQuiet(t);
    }
    InvoiceRenewedFrom(c, t, creds, sid, stored, sync, mark, r);
    RenewedInTurn(c, t);
    DisownedLater(c, t);
    d := c + t;
  }

  lemma NamingIsQuiet(t: seq<Event>)
    requires |t| <= 1 && (t != [] ==> t[0].LinkedInvoice?)
    ensures SumOf(t) == ZERO && !AnyDisowns(t)
  {
    hide SumOf;
    EmptySegment();
    if t != [] {
      QuietEvent(t[0]);
      assert t == [t[0]];
    }
  }

  /** When a renewal invoice is marked Paid the moment it exists. */
  predicate MarksRenewal(env: Env, shop: bool) {
    shop && env.autoGateway.None? && env.invoiceDbSync
  }

  lemma RenewalIdIsTrimmed(api: ApiBody)
    ensures Trim(RenewalIdOf(api)) == RenewalIdOf(api)
  {
    if !api.invid.NoId? {
      TrimIdempotent(api.invid.text);
    }
  }

  lemma MarkAfter(d: seq<Event>, invid: string)
    requires SumOf(d) == ZERO
    ensures SumOf(d + [MarkedPaid(invid)]) == ZERO.(marks := 1)
  {
    hide SumOf, SumOfEvent;
    SumOfAppend(d, MarkedPaid(invid));
    SumOfPlainEvent(MarkedPaid(invid));
  }

  // ---------------------------------------------------------------- payment

  /** A look at the invoice; nothing more once it is Paid, the strict routine when the shop holds the
      money, one try otherwise. */
  ghost predicate SettleRenewalRun(bill: Bill, shop: bool, d: seq<Event>, r: Option<PayBody>) {
    && d != [] && IsViewOf(d[0], bill)
    && if ShowsPaid(d[0]) then |d| == 1 && r == Some(NO_PAY)
       else if shop then exists pay :: StrictRun(bill, d[1..], pay) && r == Accepted(pay)
       else |d| == 2 && IsPayOf(d[1], bill) && r == Some(BodyOf(d[1].pay))
  }

  lemma RenewalSettled(bill: Bill, view: Reply<ViewBody>, e: seq<Event>, pay: Option<PayBody>, reply: Reply<PayBody>)
    ensures var look := Viewed(bill.creds, bill.invid, view);
            && (ShowsPaid(look) <==> view.Got? && ViewIsPaid(view.body))
            && (ShowsPaid(look) ==> forall shop :: SettleRenewalRun(bill, shop, [look], Some(NO_PAY)))
            && (!ShowsPaid(look) && StrictRun(bill, e, pay) ==> SettleRenewalRun(bill, true, [look] + e, Accepted(pay)))
            && (!ShowsPaid(look) ==>
                  SettleRenewalRun(bill, false, [look] + [PayTried(bill.creds, bill.invid, bill.gateway, reply)],
                                   Some(BodyOf(reply))))
  {
    hide StrictRun, ViewIsPaid, Accepted, BodyOf;
    assert ([Viewed(bill.creds, bill.invid, view)] + e)[1..] == e;
  }

  /** Paying a renewal. None where the source throws. */
  method SettleRenewal(api: Api, bill: Bill, shop: bool) returns (r: Option<PayBody>, ghost d: seq<Event>)
    requires api.IsFaithful()
    modifies api
    ensures api.IsFaithful() && api.log == old(api.log) + d
    ensures SettleRenewalRun(bill, shop, d, r)
    ensures AllActAs(d, bill.creds) && OnlyWrong(d)
    ensures shop && r.Some? ==> SumOf(d) == ZERO && !IsWrongGateway(r.value)
    ensures !shop ==> r.Some?
  {
    hide SumOf, AllActAs, OnlyWrong, StrictRun, IsWrongGateway, ViewIsPaid, Follows, SettleRenewalRun;
    var view := api.InvoiceView(bill.creds, bill.invid);
    d := [Viewed(bill.creds, bill.invid, view)];
    LookSegment(bill, view);
    RenewalSettled(bill, view, [], None, Threw(NO_PANEL));
    if view.Got? && ViewIsPaid(view.body) {
      NoPayIsRight();
      QuietIsOnlyWrong(d);
      return Some(NO_PAY), d;
    }
    if shop {
      var pay;
      ghost var e;
      pay, e := RunInvoicePayStrict(api, bill);
      StrictAfter(d, bill, e, pay);
      RenewalSettled(bill, view, e, pay, Threw(NO_PANEL));
      d := d + e;
      r := if pay.None? || IsWrongGateway(pay.value) then None else pay;
    } else {
      var reply := api.InvoicePay(bill.creds, bill.invid, bill.gateway);
      TrySegment(d, bill, reply);
      RenewalSettled(bill, view, [], None, reply);
      d := d + [PayTried(bill.creds, bill.invid, bill.gateway, reply)];
      r := Some(if reply.Got? then reply.body else NO_PAY);
    }
  }

  /** Every row marked Paid by SQL was seen Paid over the API before. */
  predicate MarksFollowPaid(d: seq<Event>) {
    forall k :: 0 <= k < |d| && d[k].MarkedPaid? ==>
      exists j :: 0 <= j < k && ShowsPaidFor(d[j], d[k].invid)
  }

  predicate ShowsPaidFor(e: Event, invid: string) {
    ShowsPaid(e) && e.invid == invid
  }

  predicate HasNoMark(d: seq<Event>) {
    forall k :: 0 <= k < |d| ==> !d[k].MarkedPaid?
  }

  lemma {:induction false} MarkFree(d: seq<Event>)
    ensures SumOf(d).marks >= 0
    ensures SumOf(d).marks == 0 ==> HasNoMark(d)
  {
    hide SumOfEvent;
    if d != [] {
      var front, last := d[..|d| - 1], d[|d| - 1];
      MarkCounts(last);
      MarkFree(front);
      assert forall k :: 0 <= k < |d| - 1 ==> d[k] == front[k];
    }
  }

  lemma MarkCounts(e: Event)
    ensures SumOfEvent(e).marks == One(e.MarkedPaid?)
  {
    hide YieldsId, IsWrongReply;
  }

  lemma NoMarksNoOrder(d: seq<Event>)
    requires HasNoMark(d)
    ensures MarksFollowPaid(d)
  {
    hide ShowsPaidFor;
  }

  /** The closing look, and the mark that follows it when it shows Paid. */
  lemma MarkInOrder(d: seq<Event>, look: Event, invid: string)
    requires HasNoMark(d) && look.Viewed? && ShowsPaidFor(look, invid)
    ensures MarksFollowPaid(d + [look, MarkedPaid(invid)])
  {
    hide ShowsPaidFor;
    var e := d + [look, MarkedPaid(invid)];
    assert e[|d|] == look;
    assert forall k :: 0 <= k < |d| ==> e[k] == d[k];
  }

  lemma OrderedThenQuiet(d: seq<Event>, e: seq<Event>)
    requires MarksFollowPaid(d) && HasNoMark(e)
    ensures MarksFollowPaid(d + e)
  {
    hide ShowsPaidFor;
    var both := d + e;
    assert forall k :: 0 <= k < |d| ==> both[k] == d[k];
    assert forall k :: |d| <= k < |both| ==> both[k] == e[k - |d|];
    forall k | 0 <= k < |both| && both[k].MarkedPaid?
      ensures exists j :: 0 <= j < k && ShowsPaidFor(both[j], both[k].invid)
    {
      var j :| 0 <= j < k && ShowsPaidFor(d[j], d[k].invid);
      assert both[j] == d[j];
    }
  }

  predicate SyncRun(d: seq<Event>, creds: Creds, invid: string, sync: bool) {
    && d != [] && d[0].Viewed? && d[0].creds == creds && d[0].invid == invid
    && d[1..] == if sync && ShowsPaid(d[0]) then [MarkedPaid(invid)] else []
  }

  /** After a paid and linked renewal the invoice row is brought in line with what the panel says. */
  method SyncInvoiceRow(api: Api, env: Env, creds: Creds, invid: string, ghost before: seq<Event>)
    returns (ghost d: seq<Event>)
    requires SumOf(before).marks == 0
    requires api.IsFaithful()
    modifies api
    ensures api.IsFaithful() && api.log == old(api.log) + d
    ensures SyncRun(d, creds, invid, env.invoiceDbSync)
    ensures SumOf(d) == ZERO.(marks := SumOf(d).marks) && 0 <= SumOf(d).marks <= 1
    ensures SumOf(d).marks != 0 ==> env.invoiceDbSync
    ensures MarksFollowPaid(before + d)
  {
    hide SumOf, MarksFollowPaid, ViewIsPaid;
    var view := api.InvoiceView(creds, invid);
    ghost var look := Viewed(creds, invid, view);
    d := [look];
    QuietEvent(look);
    SumOfConcat(before, d);
    if view.Got? && ViewIsPaid(view.body) && env.invoiceDbSync {
      api.Note(MarkedPaid(invid));
      MarkAfter(d, invid);
      MarkFree(before);
      MarkInOrder(before, look, invid);
      d := d + [MarkedPaid(invid)];
      assert before + [look, MarkedPaid(invid)] == before + d;
    } else {
      MarkFree(before + d);
      NoMarksNoOrder(before + d);
    }
  }

  // ---------------------------------------------------------------- without an invoice

  function LinkOutcome(link: Option<string>, sid: int, creds: Creds): Outcome {
    if link.Some? then Outcome.Delivered(link.value, Some(sid), creds, "") else Aborted
  }

  /** The service's own link, or else the strict choice from the account's list. */
  predicate ReadLinkRun(d: seq<Event>, creds: Creds, sid: int, pid: int, r: Outcome) {
    && d != [] && IsServiceRead(d[0], creds, sid)
    && if d[0].service.Threw? then |d| == 1 && r.Aborted?
       else if LinkOfService(d[0].service.body).Some? then
         |d| == 1 && r == LinkOutcome(LinkOfService(d[0].service.body), sid, creds)
       else
         && |d| == 2 && d[1].AccountRead? && d[1].creds == creds
         && r == if d[1].account.Threw? || d[1].account.body.services.NotAList? then Aborted
                 else LinkOutcome(StrictLink(d[1].account.body.services.rows, pid, Some(sid)), sid, creds)
  }

  /** service/renew gave no invoice id: whatever link the service has now is handed out. */
  method ReadLinkDirectly(api: Api, creds: Creds, sid: int, pid: int) returns (r: Outcome, ghost d: seq<Event>)
    requires api.IsFaithful()
    modifies api
    ensures api.IsFaithful() && api.log == old(api.log) + d
    ensures ReadLinkRun(d, creds, sid, pid, r)
    ensures SumOf(d) == ZERO
    ensures !r.AwaitGateway?
    ensures r.Delivered? ==> !PhpEmpty(r.link) && r.invid == "" && r.sid == Some(sid)
  {
    hide SumOf, LinkOfService, StrictLink, PhpEmpty;
    var info := api.ServiceInfo(creds, sid);
    d := [ServiceRead(creds, sid, info)];
    QuietEvent(d[0]);
    if info.Threw? {
      return Aborted, d;
    }
    var link := LinkOfService(info.body);
    if link.None? {
      var account := api.AccountInfo(creds);
      QuietAfter(d, [AccountRead(creds, account)]);
      d := d + [AccountRead(creds, account)];
      if account.Threw? || account.body.services.NotAList? {
        return Aborted, d;
      }
      link := PickSublink(account.body.services.rows, pid, Some(sid));
    }
    r := LinkOutcome(link, sid, creds);
  }

  // ---------------------------------------------------------------- the whole flow

  /** Counts that a renewal may move. */
  predicate OnlyPayment(d: seq<Event>) {
    var s := SumOf(d);
    s.registers == 0 && s.clears == 0 && s.invoices == 0 && s.ids == 0
  }

  lemma PaymentInTurn(d: seq<Event>, e: seq<Event>)
    requires OnlyPayment(d) && OnlyPayment(e)
    ensures OnlyPayment(d + e)
    ensures SumOf(d + e).wrong == SumOf(d).wrong + SumOf(e).wrong
    ensures SumOf(d + e).marks == SumOf(d).marks + SumOf(e).marks
  {
    hide SumOf;
    SumOfConcat(d, e);
  }

  /** Segments as the methods above describe them. */
  lemma AsPayment(d: seq<Event>)
    ensures OnlyWrong(d) ==> OnlyPayment(d) && SumOf(d).marks == 0
    ensures SumOf(d) == ZERO ==> OnlyPayment(d) && SumOf(d).marks == 0 && SumOf(d).wrong == 0
    ensures SumOf(d) == ZERO.(marks := SumOf(d).marks) ==> OnlyPayment(d) && SumOf(d).wrong == 0
  {
    hide SumOf;
  }

  lemma SeenEarlier(a: seq<Event>, b: seq<Event>, creds: Creds, invid: string)
    ensures SawPaid(a, creds, invid) ==> SawPaid(a + b, creds, invid)
  {
    hide ShowsPaid;
    assert forall k :: 0 <= k < |a| ==> (a + b)[k] == a[k];
  }

  function RenewalOutcome(poll: PollResult, sid: int, creds: Creds, invid: string): Outcome {
    match poll
    case Delivered(picked) =>
      Outcome.Delivered(picked.link, Some(if picked.sid.Some? then picked.sid.value else sid), creds, invid)
    case Failed(_) => Aborted
  }

  predicate EndsIn(d: seq<Event>, tail: seq<Event>) {
    |tail| <= |d| && d[|d| - |tail|..] == tail
  }

  lemma EndsInLater(a: seq<Event>, d: seq<Event>, tail: seq<Event>)
    requires EndsIn(d, tail)
    ensures EndsIn(a + d, tail)
  {
    assert (a + d)[|a + d| - |tail|..] == d[|d| - |tail|..];
  }

  /** After the wait: for the shop, the invoice row is brought in line and the renewal enforced. `changed`
      says whether the enforcement changed the service table. */
  predicate AfterWait(env: Env, bill: Bill, sid: int, shop: bool, changed: bool, d: seq<Event>, tail: seq<Event>,
                      poll: PollResult, r: Outcome) {
    if poll.Failed? || !shop then d == [] && tail == [] && r == RenewalOutcome(poll, sid, bill.creds, bill.invid)
    else
      && EnforceRun(tail, bill.creds, sid, bill.invid) && EndsIn(d, tail)
      && SyncRun(d[..|d| - |tail|], bill.creds, bill.invid, env.invoiceDbSync)
      && r == if Passes(tail, bill.creds, sid, changed) then RenewalOutcome(poll, sid, bill.creds, bill.invid)
              else Aborted
  }

  ghost predicate RenewalWaits(env: Env, bill: Bill, sid: int, pid: int, pay: PayBody, shop: bool, changed: bool,
                               d: seq<Event>, tail: seq<Event>, r: Outcome) {
    exists n, poll ::
      && 0 <= n <= |d| && WaitRun(WaitConfig(bill.creds, bill.invid, pid, Some(sid), true, pay, shop), d[..n], poll)
      && AfterWait(env, bill, sid, shop, changed, d[n..], tail, poll, r)
  }

  /** Payment by the automatic gateway and all that follows it. */
  ghost predicate PaidRenewalRun(env: Env, bill: Bill, sid: int, pid: int, shop: bool, changed: bool, d: seq<Event>,
                                 tail: seq<Event>, r: Outcome) {
    || (SettleRenewalRun(bill, shop, d, None) && tail == [] && r.Aborted?)
    || exists n, pay ::
         && 0 <= n <= |d| && SettleRenewalRun(bill, shop, d[..n], Some(pay))
         && RenewalWaits(env, bill, sid, pid, pay, shop, changed, d[n..], tail, r)
  }

  lemma RenewalUnpaid(env: Env, bill: Bill, sid: int, pid: int, shop: bool, d: seq<Event>)
    requires SettleRenewalRun(bill, shop, d, None)
    ensures PaidRenewalRun(env, bill, sid, pid, shop, false, d, [], Aborted)
  {
    hide SettleRenewalRun, RenewalWaits;
  }

  lemma RenewalPaid(env: Env, bill: Bill, sid: int, pid: int, shop: bool, changed: bool, p: seq<Event>, pay: PayBody,
                    q: seq<Event>, poll: PollResult, e: seq<Event>, tail: seq<Event>, r: Outcome)
    requires SettleRenewalRun(bill, shop, p, Some(pay))
    requires WaitRun(WaitConfig(bill.creds, bill.invid, pid, Some(sid), true, pay, shop), q, poll)
    requires AfterWait(env, bill, sid, shop, changed, e, tail, poll, r)
    ensures PaidRenewalRun(env, bill, sid, pid, shop, changed, p + q + e, tail, r)
  {
    hide SettleRenewalRun, WaitRun, WaitConfig, AfterWait;
    var later, k := q + e, |q|;
    assert later[..k] == q && later[k..] == e;
    assert RenewalWaits(env, bill, sid, pid, pay, shop, changed, later, tail, r);
    var d, n := p + q + e, |p|;
    assert d[..n] == p && d[n..] == later;
  }

  lemma NothingAfterWait(env: Env, bill: Bill, sid: int, shop: bool, poll: PollResult)
    requires poll.Failed? || !shop
    ensures AfterWait(env, bill, sid, shop, false, [], [], poll, RenewalOutcome(poll, sid, bill.creds, bill.invid))
  {
  }

  lemma ShopAfterWait(env: Env, bill: Bill, sid: int, changed: bool, s: seq<Event>, tail: seq<Event>, poll: PollResult,
                      ok: bool)
    requires poll.Delivered? && SyncRun(s, bill.creds, bill.invid, env.invoiceDbSync)
    requires EnforceRun(tail, bill.creds, sid, bill.invid) && (ok <==> Passes(tail, bill.creds, sid, changed))
    ensures AfterWait(env, bill, sid, true, changed, s + tail, tail, poll,
                      if ok then RenewalOutcome(poll, sid, bill.creds, bill.invid) else Aborted)
    ensures EndsIn(s + tail, tail)
  {
    hide SyncRun, EnforceRun, Passes, RenewalOutcome;
    var d := s + tail;
    assert d[|d| - |tail|..] == tail && d[..|d| - |tail|] == s;
  }

  /** Payment by the automatic gateway, the wait, and for the shop the closing steps; `tail` is the trace
      of the enforcement, empty where there is none. */
  method CompletePaidRenewal(api: Api, table: ServiceTable, env: Env, bill: Bill, sid: int, pid: int,
                             planDays: int, shop: bool)
    returns (r: Outcome, ghost d: seq<Event>, ghost tail: seq<Event>)
    requires api.IsFaithful()
    modifies api, table
    ensures api.IsFaithful() && api.log == old(api.log) + d
    ensures PaidRenewalRun(env, bill, sid, pid, shop, table.rows != old(table.rows), d, tail, r)
    ensures RenewedAtMostOnce(old(table.rows), table.rows, sid, PaidRowIn(tail), EntryIn(tail, pid), planDays)
    ensures table.rows != old(table.rows) ==> shop && SawItMissing(tail)
    ensures IsAlwaysUp(table) && env.mysqlDirect && sid in old(table.rows) && SawItMissing(tail) ==>
              table.rows != old(table.rows)
    ensures r.Aborted? && table.rows != old(table.rows) ==> LastLookFailed(tail)
    ensures OnlyPayment(d) && (SumOf(d).marks != 0 ==> shop && env.invoiceDbSync)
    ensures !r.AwaitGateway?
    ensures r.Delivered? ==> r.creds == bill.creds && r.invid == bill.invid
    ensures r.Delivered? ==> !PhpEmpty(r.link) && SawPaid(d, bill.creds, bill.invid) && MarksFollowPaid(d)
    ensures r.Delivered? && shop ==>
              SumOf(d).wrong == 0 && EndsIn(d, tail) && Passes(tail, bill.creds, sid, table.rows != old(table.rows))
  {
    hide SumOf, AllActAs, OnlyWrong, OnlyPayment, SawPaid, MarksFollowPaid, Passes, EnforceRun, SawItMissing, PhpEmpty;
    hide SettleRenewalRun, WaitRun, WaitConfig, AfterWait, PaidRenewalRun, RenewedAtMostOnce, PaidRowIn, EntryIn;
    hide EndsIn, IsWrongGateway, Follows, LastLookFailed, IsAlwaysUp;
    tail := [];
    NothingSeen();
    NoMove(table.rows, sid, PaidRowIn(tail), EntryIn(tail, pid), planDays);
    var pay;
    pay, d := SettleRenewal(api, bill, shop);
    AsPayment(d);
    if pay.None? {
      RenewalUnpaid(env, bill, sid, pid, shop, d);
      return Aborted, d, tail;
    }
    var poll;
    ghost var q;
    poll, q := WaitForLink(api, bill.creds, bill.invid, pid, Some(sid), true, pay.value, shop);
    AsPayment(q);
    PaymentInTurn(d, q);
    SeenLater(d, q, bill.creds, bill.invid);
    r := match poll
         case Delivered(picked) =>
           Outcome.Delivered(picked.link, Some(if picked.sid.Some? then picked.sid.value else sid), bill.creds,
                             bill.invid)
         case Failed(_) => Aborted;
    ghost var p := d;
    d := p + q;
    MarkFree(d);
    NoMarksNoOrder(d);
    if poll.Failed? || !shop {
      NothingAfterWait(env, bill, sid, shop, poll);
      RenewalPaid(env, bill, sid, pid, shop, false, p, pay.value, q, poll, [], [], r);
      assert p + q + [] == d;
    } else {
      var ok;
      ghost var c;
      ok, c, tail := CloseForShop(api, table, env, bill, sid, pid, planDays, poll, d);
      r := if ok then r else Aborted;
      RenewalPaid(env, bill, sid, pid, shop, table.rows != old(table.rows), p, pay.value, q, poll, c, tail, r);
      PaymentInTurn(d, c);
      SeenEarlier(d, c, bill.creds, bill.invid);
      EndsInLater(d, c, tail);
      d := d + c;
    }
  }

  /** The closing steps of a renewal the shop was paid for. */
  method CloseForShop(api: Api, table: ServiceTable, env: Env, bill: Bill, sid: int, pid: int, planDays: int,
                      ghost poll: PollResult, ghost before: seq<Event>)
    returns (ok: bool, ghost c: seq<Event>, ghost tail: seq<Event>)
    requires poll.Delivered? && SumOf(before).marks == 0
    requires api.IsFaithful()
    modifies api, table
    ensures api.IsFaithful() && api.log == old(api.log) + c
    ensures AfterWait(env, bill, sid, true, table.rows != old(table.rows), c, tail, poll,
                      if ok then RenewalOutcome(poll, sid, bill.creds, bill.invid) else Aborted)
    ensures RenewedAtMostOnce(old(table.rows), table.rows, sid, PaidRowIn(tail), EntryIn(tail, pid), planDays)
    ensures table.rows != old(table.rows) ==> SawItMissing(tail)
    ensures OnlyPayment(c) && SumOf(c).wrong == 0 && (SumOf(c).marks != 0 ==> env.invoiceDbSync)
    ensures MarksFollowPaid(before + c) && EndsIn(c, tail)
    ensures ok ==> Passes(tail, bill.creds, sid, table.rows != old(table.rows))
    ensures IsAlwaysUp(table) && env.mysqlDirect && sid in old(table.rows) && SawItMissing(tail) ==>
              table.rows != old(table.rows)
    ensures !ok && table.rows != old(table.rows) ==> LastLookFailed(tail)
  {
    hide SumOf, OnlyPayment, MarksFollowPaid, Passes, EnforceRun, SawItMissing, SyncRun, AfterWait, RenewedAtMostOnce;
    hide PaidRowIn, EntryIn, EndsIn, RenewalOutcome, Follows, LastLookFailed;
    ghost var s := SyncInvoiceRow(api, env, bill.creds, bill.invid, before);
    AsPayment(s);
    ok, tail := EnforceAfterShopPay(api, table, env, bill.creds, sid, pid, bill.invid, planDays);
    AsPayment(tail);
    PaymentInTurn(s, tail);
    ShopAfterWait(env, bill, sid, table.rows != old(table.rows), s, tail, poll, ok);
    MarkFree(tail);
    OrderedThenQuiet(before + s, tail);
    c := s + tail;
    assert before + c == before + s + tail;
  }

  ghost predicate WithoutAutoPayRun(env: Env, creds: Creds, invid: string, sid: int, pid: int, d: seq<Event>,
                                    r: Outcome) {
    if env.gatewayPicker then
      && |d| == 1 && d[0].GatewaysListed?
      && r == if d[0].gateways.Threw? || d[0].gateways.body == [] then Aborted else AwaitGateway(creds, invid)
    else
      exists poll ::
        && WaitRun(WaitConfig(creds, invid, pid, Some(sid), false, NO_PAY, false), d, poll)
        && r == RenewalOutcome(poll, sid, creds, invid)
  }

  lemma Unaided(env: Env, creds: Creds, invid: string, sid: int, pid: int, d: seq<Event>, poll: PollResult)
    ensures env.gatewayPicker && |d| == 1 && d[0].GatewaysListed? ==>
              WithoutAutoPayRun(env, creds, invid, sid, pid, d,
                                if d[0].gateways.Threw? || d[0].gateways.body == [] then Aborted
                                else AwaitGateway(creds, invid))
    ensures !env.gatewayPicker && WaitRun(WaitConfig(creds, invid, pid, Some(sid), false, NO_PAY, false), d, poll) ==>
              WithoutAutoPayRun(env, creds, invid, sid, pid, d, RenewalOutcome(poll, sid, creds, invid))
  {
    hide WaitRun, WaitConfig, RenewalOutcome;
  }

  /** No automatic gateway and no money in the shop: the customer picks a gateway, or pays elsewhere. */
  method WithoutAutoPay(api: Api, env: Env, creds: Creds, invid: string, sid: int, pid: int)
    returns (r: Outcome, ghost d: seq<Event>)
    requires api.IsFaithful()
    modifies api
    ensures api.IsFaithful() && api.log == old(api.log) + d
    ensures WithoutAutoPayRun(env, creds, invid, sid, pid, d, r)
    ensures SumOf(d) == ZERO
    ensures r.Delivered? ==> r.creds == creds && r.invid == invid && !PhpEmpty(r.link) && SawPaid(d, creds, invid)
  {
    hide SumOf, AllActAs, SawPaid, PhpEmpty, WaitRun, WaitConfig, Follows;
    if env.gatewayPicker {
      var gateways := api.ListGateways();
      d := [GatewaysListed(gateways)];
      GatewaysActAsAnyone(d[0], creds);
      r := if gateways.Threw? || gateways.body == [] then Aborted else AwaitGateway(creds, invid);
      Unaided(env, creds, invid, sid, pid, d, Failed(TimedOut(None)));
    } else {
      var poll;
      poll, d := WaitForLink(api, creds, invid, pid, Some(sid), false, NO_PAY, false);
      r := match poll
           case Delivered(picked) =>
             Outcome.Delivered(picked.link, Some(if picked.sid.Some? then picked.sid.value else sid), creds, invid)
           case Failed(_) => Aborted;
      Unaided(env, creds, invid, sid, pid, d, poll);
    }
  }

  /** From the invoice id on. */
  ghost predicate AfterInvoice(env: Env, creds: Creds, sid: int, pid: int, shop: bool, changed: bool,
                               invoice: Option<string>, d: seq<Event>, tail: seq<Event>, r: Outcome) {
    if invoice.None? || (shop && invoice.value != "" && env.autoGateway.None?) then d == [] && tail == [] && r.Aborted?
    else if invoice.value == "" then tail == [] && ReadLinkRun(d, creds, sid, pid, r)
    else if env.autoGateway.Some? then
      PaidRenewalRun(env, Bill(creds, invoice.value, env.autoGateway.value), sid, pid, shop, changed, d, tail, r)
    else tail == [] && WithoutAutoPayRun(env, creds, invoice.value, sid, pid, d, r)
  }

  /** A whole renewal, from what is stored when it begins to its outcome, stage by stage; `invId` is the stored
      invoice before it and `left` the one after it, both trimmed. */
  ghost predicate RenewalRun(env: Env, stored: Stored, original: Original, invId: string, left: string, pid: int,
                             shop: bool, changed: bool, d: seq<Event>, tail: seq<Event>, r: Outcome) {
    || (PrepareRun(d, stored, original, None) && tail == [] && r.Aborted? && left == invId)
    || exists n, creds ::
         && 0 <= n <= |d| && PrepareRun(d[..n], stored, original, Some(creds)) && original.sid.Some?
         && AfterPrepare(env, creds, original.sid.value, invId, left, pid, shop, changed, d[n..], tail, r)
  }

  ghost predicate AfterPrepare(env: Env, creds: Creds, sid: int, invId: string, left: string, pid: int, shop: bool,
                               changed: bool, d: seq<Event>, tail: seq<Event>, r: Outcome) {
    exists n, invoice ::
      && 0 <= n <= |d| && left == Kept(invoice)
      && RenewalInvoiceRun(d[..n], creds, sid, invId, env.invoiceDbSync, MarksRenewal(env, shop), invoice)
      && AfterInvoice(env, creds, sid, pid, shop, changed, invoice, d[n..], tail, r)
  }

  lemma RenewalRefused(env: Env, stored: Stored, original: Original, invId: string, pid: int, shop: bool, d: seq<Event>)
    requires PrepareRun(d, stored, original, None)
    ensures RenewalRun(env, stored, original, invId, invId, pid, shop, false, d, [], Aborted)
  {
    hide PrepareRun, AfterPrepare;
  }

  lemma RenewalInStages(env: Env, stored: Stored, original: Original, invId: string, left: string, pid: int, shop: bool,
                        changed: bool, first: seq<Event>, creds: Creds, later: seq<Event>, tail: seq<Event>, r: Outcome)
    requires PrepareRun(first, stored, original, Some(creds)) && original.sid.Some?
    requires AfterPrepare(env, creds, original.sid.value, invId, left, pid, shop, changed, later, tail, r)
    ensures RenewalRun(env, stored, original, invId, left, pid, shop, changed, first + later, tail, r)
  {
    hide PrepareRun, AfterPrepare;
    var d, n := first + later, |first|;
    assert d[..n] == first && d[n..] == later;
  }

  lemma PreparedInStages(env: Env, creds: Creds, sid: int, invId: string, pid: int, shop: bool, changed: bool,
                         e: seq<Event>, invoice: Option<string>, p: seq<Event>, tail: seq<Event>, r: Outcome)
    requires RenewalInvoiceRun(e, creds, sid, invId, env.invoiceDbSync, MarksRenewal(env, shop), invoice)
    requires AfterInvoice(env, creds, sid, pid, shop, changed, invoice, p, tail, r)
    ensures AfterPrepare(env, creds, sid, invId, Kept(invoice), pid, shop, changed, e + p, tail, r)
  {
    hide RenewalInvoiceRun, AfterInvoice, MarksRenewal;
    var d, n := e + p, |e|;
    assert d[..n] == e && d[n..] == p;
  }

  /** What every run of doRenewal promises about the calls it made. */
  ghost predicate KeepsRenewalPromises(d: seq<Event>, r: Outcome, env: Env, shop: bool) {
    && OnlyPayment(d)
    && (shop ==> !r.AwaitGateway?)
    && (shop && r.Delivered? ==> SumOf(d).wrong == 0)
    && (r.Delivered? ==> !PhpEmpty(r.link) && (r.invid != "" ==> SawPaid(d, r.creds, r.invid)))
    && (SumOf(d).marks != 0 ==> shop && env.invoiceDbSync)
    && (!r.Aborted? ==> MarksFollowPaid(d))
  }

  lemma BillerAbortsRenewal(d: seq<Event>, r: Outcome, env: Env, shop: bool)
    requires KeepsRenewalPromises(d, r, env, shop)
    ensures shop && MeetsBiller(d) ==> r.Aborted?
  {
    hide SumOf, MeetsBiller, SawPaid, MarksFollowPaid;
    BillerIsCounted(d);
  }

  lemma AbortedRenewal(d: seq<Event>, env: Env, shop: bool)
    requires OnlyPayment(d) && (SumOf(d).marks != 0 ==> shop && env.invoiceDbSync)
    ensures KeepsRenewalPromises(d, Aborted, env, shop)
  {
    hide SumOf;
  }

  lemma CompletedRenewal(a: seq<Event>, p: seq<Event>, r: Outcome, env: Env, shop: bool)
    requires SumOf(a) == ZERO && OnlyPayment(p) && (SumOf(p).marks != 0 ==> shop && env.invoiceDbSync)
    requires shop ==> !r.AwaitGateway?
    requires shop && r.Delivered? ==> SumOf(p).wrong == 0
    requires r.Delivered? ==> !PhpEmpty(r.link) && (r.invid != "" ==> SawPaid(p, r.creds, r.invid))
    requires !r.Aborted? ==> MarksFollowPaid(p)
    ensures KeepsRenewalPromises(a + p, r, env, shop)
  {
    hide SumOf, SawPaid, MarksFollowPaid;
    AsPayment(a);
    PaymentInTurn(a, p);
    if r.Delivered? {
      SeenLater(a, p, r.creds, r.invid);
    }
    if !r.Aborted? {
      MarkFree(a);
      QuietThenOrdered(a, p);
    }
  }

  lemma NothingPromised(env: Env, shop: bool)
    ensures KeepsRenewalPromises([], Aborted, env, shop)
  {
    hide SumOf;
    EmptySegment();
    AsPayment([]);
    AbortedRenewal([], env, shop);
  }

  lemma PromisedLater(a: seq<Event>, d: seq<Event>, r: Outcome, env: Env, shop: bool)
    requires SumOf(a) == ZERO && KeepsRenewalPromises(d, r, env, shop)
    ensures KeepsRenewalPromises(a + d, r, env, shop)
  {
    hide SumOf, SawPaid, MarksFollowPaid;
    AsPayment(a);
    PaymentInTurn(a, d);
    if r.Delivered? {
      SeenLater(a, d, r.creds, r.invid);
    }
    if !r.Aborted? {
      MarkFree(a);
      QuietThenOrdered(a, d);
    }
  }

  lemma QuietThenOrdered(d: seq<Event>, e: seq<Event>)
    requires HasNoMark(d) && MarksFollowPaid(e)
    ensures MarksFollowPaid(d + e)
  {
    hide ShowsPaidFor;
    var both := d + e;
    assert forall k :: 0 <= k < |d| ==> both[k] == d[k];
    assert forall k :: 0 <= k < |e| ==> both[|d| + k] == e[k];
    forall k | 0 <= k < |both| && both[k].MarkedPaid?
      ensures exists j :: 0 <= j < k && ShowsPaidFor(both[j], both[k].invid)
    {
      assert both[k] == e[k - |d|];
      var j :| 0 <= j < k - |d| && ShowsPaidFor(e[j], e[k - |d|].invid);
      assert both[|d| + j] == e[j];
    }
  }

  lemma BeginsEligibleStill(d: seq<Event>, e: seq<Event>, sid: int)
    requires BeginsEligible(d, sid)
    ensures BeginsEligible(d + e, sid)
  {
    hide MayRenew;
  }

  /** The shop can write the row of the renewed service. */
  ghost predicate CouldRenew(table: ServiceTable, env: Env, original: Option<Original>,
                             rows: map<int, ServiceRecord>) {
    && IsAlwaysUp(table) && env.mysqlDirect
    && original.Some? && original.value.sid.Some? && original.value.sid.value in rows
  }

  lemma StopsAtInvoice(env: Env, creds: Creds, sid: int, pid: int, shop: bool, invoice: Option<string>)
    requires invoice.None? || (shop && invoice.value != "" && env.autoGateway.None?)
    ensures AfterInvoice(env, creds, sid, pid, shop, false, invoice, [], [], Aborted)
  {
  }

  /** doRenewal from the invoice id on. */
  method FinishRenewal(api: Api, table: ServiceTable, env: Env, creds: Creds, invid: string, sid: int, pid: int,
                       planDays: int, shop: bool)
    returns (r: Outcome, ghost d: seq<Event>, ghost tail: seq<Event>)
    requires !(shop && invid != "" && env.autoGateway.None?)
    requires api.IsFaithful()
    modifies api, table
    ensures api.IsFaithful() && api.log == old(api.log) + d
    ensures AfterInvoice(env, creds, sid, pid, shop, table.rows != old(table.rows), Some(invid), d, tail, r)
    ensures RenewedAtMostOnce(old(table.rows), table.rows, sid, PaidRowIn(tail), EntryIn(tail, pid), planDays)
    ensures table.rows != old(table.rows) ==> shop && SawItMissing(tail)
    ensures IsAlwaysUp(table) && env.mysqlDirect && sid in old(table.rows) && SawItMissing(tail) ==>
              table.rows != old(table.rows)
    ensures r.Aborted? && table.rows != old(table.rows) ==> LastLookFailed(tail)
    ensures OnlyPayment(d) && (SumOf(d).marks != 0 ==> shop && env.invoiceDbSync)
    ensures shop ==> !r.AwaitGateway?
    ensures shop && r.Delivered? ==> SumOf(d).wrong == 0
    ensures r.Delivered? ==> !PhpEmpty(r.link) && (r.invid != "" ==> SawPaid(d, r.creds, r.invid))
    ensures !r.Aborted? ==> MarksFollowPaid(d)
    ensures shop && r.Delivered? && r.invid != "" ==>
              EndsIn(d, tail) && Passes(tail, r.creds, sid, table.rows != old(table.rows))
  {
    hide SumOf, AllActAs, OnlyWrong, OnlyPayment, SawPaid, MarksFollowPaid, Passes, SawItMissing, PhpEmpty, Follows;
    hide ReadLinkRun, PaidRenewalRun, WithoutAutoPayRun, RenewedAtMostOnce, PaidRowIn, EntryIn, EndsIn;
    hide LastLookFailed, IsAlwaysUp;
    tail := [];
    NothingSeen();
    NoMove(table.rows, sid, PaidRowIn(tail), EntryIn(tail, pid), planDays);
    if invid != "" && env.autoGateway.Some? {
      var bill := Bill(creds, invid, env.autoGateway.value);
      r, d, tail := CompletePaidRenewal(api, table, env, bill, sid, pid, planDays, shop);
    } else if invid == "" {
      r, d := ReadLinkDirectly(api, creds, sid, pid);
      AsPayment(d);
      MarkFree(d);
      NoMarksNoOrder(d);
    } else {
      r, d := WithoutAutoPay(api, env, creds, invid, sid, pid);
      AsPayment(d);
      MarkFree(d);
      NoMarksNoOrder(d);
    }
  }

  /** doRenewal with the credentials of a customer whose service may be renewed. */
  method RenewAs(api: Api, table: ServiceTable, env: Env, order: ShopOrder, creds: Creds, sid: int, pid: int,
                 planDays: int, shop: bool)
    returns (r: Outcome, ghost d: seq<Event>, ghost tail: seq<Event>)
    requires api.IsFaithful()
    modifies api, table, order
    ensures api.IsFaithful() && api.log == old(api.log) + d
    ensures AfterPrepare(env, creds, sid, old(Trim(order.invId)), Trim(order.invId), pid, shop,
                         table.rows != old(table.rows), d, tail, r)
    ensures KeepsRenewalPromises(d, r, env, shop)
    ensures RenewedAtMostOnce(old(table.rows), table.rows, sid, PaidRowIn(tail), EntryIn(tail, pid), planDays)
    ensures DueMovedAtMostOnce(old(table.rows), table.rows, sid)
    ensures table.rows != old(table.rows) ==> shop && SawItMissing(tail)
    ensures IsAlwaysUp(table) && env.mysqlDirect && sid in old(table.rows) && SawItMissing(tail) ==>
              table.rows != old(table.rows)
    ensures r.Aborted? && table.rows != old(table.rows) ==> LastLookFailed(tail)
    ensures shop && r.Delivered? && r.invid != "" ==>
              EndsIn(d, tail) && Passes(tail, r.creds, sid, table.rows != old(table.rows))
    ensures order.config == old(order.config)
  {
    hide SumOf, OnlyPayment, SawPaid, MarksFollowPaid, Passes, SawItMissing, PhpEmpty, RenewalInvoiceRun, AfterInvoice;
    hide AfterPrepare, KeepsRenewalPromises, RenewedAtMostOnce, DueMovedAtMostOnce, PaidRowIn, EntryIn, EndsIn, Trim;
    hide AnyDisowns, Follows, LastLookFailed, IsAlwaysUp, Kept;
    ghost var invId := Trim(order.invId);
    tail := [];
    r := Aborted;
    NothingSeen();
    NoMove(table.rows, sid, PaidRowIn(tail), EntryIn(tail, pid), planDays);
    var invoice;
    ghost var e, p: seq<Event> := [], [];
    invoice, e := RenewalInvoice(api, env, order, creds, sid, shop);
    AsPayment(e);
    if invoice.None? || (shop && invoice.value != "" && env.autoGateway.None?) {
      StopsAtInvoice(env, creds, sid, pid, shop, invoice);
      AbortedRenewal(e, env, shop);
      assert e + p == e;
    } else {
      r, p, tail := FinishRenewal(api, table, env, creds, invoice.value, sid, pid, planDays, shop);
      CompletedRenewal(e, p, r, env, shop);
      if EndsIn(p, tail) {
        EndsInLater(e, p, tail);
      }
    }
    OneRenewalOneMove(old(table.rows), table.rows, sid, PaidRowIn(tail), EntryIn(tail, pid), planDays);
    PreparedInStages(env, creds, sid, invId, pid, shop, table.rows != old(table.rows), e, invoice, p, tail, r);
    d := e + p;
  }

  /** doRenewal. `prepared` is the service table once a used-up service has been flipped, `tail` the
      trace of the enforcement. */
  method DoRenewal(api: Api, table: ServiceTable, env: Env, user: User, order: ShopOrder, original: Option<Original>,
                   pid: int, planDays: int, shop: bool)
    returns (r: Outcome, ghost d: seq<Event>, ghost tail: seq<Event>, ghost prepared: map<int, ServiceRecord>)
    requires api.IsFaithful()
    modifies api, table, user, order
    ensures api.IsFaithful() && api.log == old(api.log) + d
    ensures if original.None? then d == [] && r.Aborted?
            else
              RenewalRun(env, old(StoredOf(user)), original.value, old(Trim(order.invId)), Trim(order.invId), pid, shop,
                         table.rows != prepared, d, tail, r)
    ensures KeepsRenewalPromises(d, r, env, shop)
    // Money the shop holds is never paid twice: a gateway that bills the customer ends the flow.
    ensures shop && MeetsBiller(d) ==> r.Aborted?
    ensures !r.Aborted? ==> original.Some? && original.value.sid.Some? && BeginsEligible(d, original.value.sid.value)
    // The panel's rows: a flip before, one renewal at most after it, and nothing but this service's.
    ensures if original.None? || original.value.sid.None? then table.rows == prepared == old(table.rows)
            else
              var sid := original.value.sid.value;
              && prepared == AfterFlip(old(table.rows), sid,
                                       Flips(d, env, table.up(old(table.tries)), old(table.rows), sid))
              && RenewedAtMostOnce(prepared, table.rows, sid, PaidRowIn(tail), EntryIn(tail, pid), planDays)
              && IsOneRenewal(prepared, table.rows, sid, PaidRowIn(tail), EntryIn(tail, pid), planDays)
              && DueMovedAtMostOnce(old(table.rows), table.rows, sid)
    // The shop renews a row itself only after it was paid and has seen the renewal missing, and then does
    // where it can. A run that throws leaves the row as the flip has made it, unless the shop renewed it and
    // could not see the result.
    ensures table.rows != prepared ==> shop && SawItMissing(tail)
    ensures CouldRenew(table, env, original, prepared) && SawItMissing(tail) ==> table.rows != prepared
    ensures r.Aborted? && table.rows != prepared ==> LastLookFailed(tail)
    ensures r.Aborted? && !LastLookFailed(tail) && original.Some? && original.value.sid.Some? ==>
              var before, sid := old(table.rows), original.value.sid.value;
              (table.rows != before <==> Flips(d, env, table.up(old(table.tries)), before, sid))
    // A shop-paid renewal with an invoice passes the enforcement or throws.
    ensures shop && r.Delivered? && r.invid != "" ==>
              EndsIn(d, tail) && Passes(tail, r.creds, original.value.sid.value, table.rows != prepared)
    ensures order.config == old(order.config) && StoredOf(user) == old(StoredOf(user))
  {
    hide OnlyPayment, Passes, SawItMissing, PhpEmpty, PrepareRun, AfterPrepare, RenewalRun, KeepsRenewalPromises, SumOf;
    hide BeginsEligible, RenewedAtMostOnce, DueMovedAtMostOnce, PaidRowIn, EntryIn, EndsIn, Trim, Follows, Rehydrated;
    hide MeetsBiller, IsOneRenewal, StoredOf, FlippedAtMost, Flips, AfterFlip, LastLookFailed, IsAlwaysUp;
    r, d, tail := Aborted, [], [];
    prepared := table.rows;
    NothingPromised(env, shop);
    if original.None? {
      return;
    }
    ghost var stored, invId, up, rows := StoredOf(user), Trim(order.invId), table.up(table.tries), table.rows;
    var ready;
    ready, d := PrepareRenewal(api, table, env, user, original.value);
    prepared := table.rows;
    PromisedLater(d, [], r, env, shop);
    assert d + [] == d;
    NothingSeen();
    if ready.None? {
      RenewalRefused(env, stored, original.value, invId, pid, shop, d);
    }
    if original.value.sid.None? {
      return;
    }
    var sid := original.value.sid.value;
    NoMove(prepared, sid, PaidRowIn(tail), EntryIn(tail, pid), planDays);
    OneRenewalOneMove(prepared, prepared, sid, PaidRowIn(tail), EntryIn(tail, pid), planDays);
    RenewedInFigures(prepared, prepared, sid, PaidRowIn(tail), EntryIn(tail, pid), planDays);
    FlipMovesNoDate(rows, prepared, prepared, sid);
    FlipShows(d, env, up, rows, sid);
    if ready.None? {
      return;
    }
    ghost var first, e := d, [];
    r, e, tail := RenewAs(api, table, env, order, ready.value, sid, pid, planDays, shop);
    FlipMovesNoDate(rows, prepared, table.rows, sid);
    RenewedInFigures(prepared, table.rows, sid, PaidRowIn(tail), EntryIn(tail, pid), planDays);
    PromisedLater(first, e, r, env, shop);
    BeginsSomewhere(first, sid);
    BeginsEligibleStill(first, e, sid);
    FlipsStill(first, e, env, up, rows, sid);
    RenewalInStages(env, stored, original.value, invId, Trim(order.invId), pid, shop, table.rows != prepared, first,
                    ready.value, e, tail, r);
    if EndsIn(e, tail) {
      EndsInLater(first, e, tail);
    }
    d := first + e;
    BillerAbortsRenewal(d, r, env, shop);
  }
}

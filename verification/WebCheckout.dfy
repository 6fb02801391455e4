/** The invoice a customer of the web shop is shown: the stored one while it is Pending, or a new one. */
module WebCheckout {
  import opened Text
  import opened Numbers
  import opened Panel
  import opened Billing
  import opened Tally
  import opened Credentials
  import opened Accounts
  import opened Invoicing
  import opened NewPurchase

  /** The id as the checkout reads it: any scalar at the top or else under data, blanks included. */
  function ScalarId(api: ApiBody): string {
    var found := if api.invid.NoId? then api.dataInvid else api.invid;
    if found.NoId? then "" else found.text
  }

  /** Whatever id doNewPurchase can read, the checkout reads too; beyond those it reads, of ids that are not
      blank, exactly the number that arrives only under data. */
  lemma ScalarIdReadsMore(api: ApiBody)
    ensures IdOf(api) != "" ==> Trim(ScalarId(api)) == IdOf(api)
    ensures Trim(ScalarId(api)) != "" && IdOf(api) == "" <==>
              api.invid.NoId? && api.dataInvid.NumberId? && Trim(api.dataInvid.text) != ""
  {
    assert Trim("") == "";
  }

  datatype WebResult = Offered(creds: Creds, invid: string) | Refused

  predicate ShowsPending(e: Event) {
    && e.Viewed? && e.view.Got? && e.view.body.invoice.Some? && e.view.body.invoice.value.status.Some?
    && EqualsIgnoringCase(e.view.body.invoice.value.status.value, "pending")
  }

  // ---------------------------------------------------------------- the shape of a run

  /** A stored invoice is looked at and kept while it is Pending; otherwise a new one is made. */
  ghost predicate WebRun(d: seq<Event>, env: Env, stored: Stored, existing: string, pid: int, billing: string,
                         r: WebResult) {
    if Trim(env.domain) == "" then d == [] && r.Refused?
    else if existing == "" then WebMakes(d, env, stored, pid, billing, true, r)
    else if !IsComplete(stored) then d == [] && r.Refused?
    else
      && d != [] && d[0].Viewed? && d[0].creds == Creds(stored.email, stored.password) && d[0].invid == existing
      && if ShowsPending(d[0]) then |d| == 1 && r == Offered(d[0].creds, existing)
         else WebMakes(d[1..], env, stored, pid, billing, true, r)
  }

  ghost predicate WebMakes(d: seq<Event>, env: Env, stored: Stored, pid: int, billing: string, allow: bool,
                           r: WebResult)
    decreases allow, 1
  {
    exists n, found ::
      && 0 <= n <= |d| && CredentialsRun(d[..n], env, stored, allow, found)
      && match found
         case NoCredentials => n == |d| && r.Refused?
         case Restart => allow && WebMakes(d[n..], env, Cleared(stored), pid, billing, false, r)
         case Ready(creds) => WebBuys(d[n..], env, stored, creds, pid, billing, allow, r)
  }

  ghost predicate WebBuys(d: seq<Event>, env: Env, stored: Stored, creds: Creds, pid: int, billing: string,
                          allow: bool, r: WebResult)
    decreases allow, 0
  {
    exists n, created ::
      && 0 <= n <= |d| && CreateRun(creds, pid, billing, d[..n], created)
      && if GivesInvoice(created) then
           n == |d| && r == if ScalarId(created.body) == "" then Refused else Offered(creds, ScalarId(created.body))
         else if allow && created.Replied? && EmailNotFound(created.body.env) then
           && n < |d| && d[n].CredentialsCleared?
           && WebMakes(d[n + 1..], env, Wiped(stored, creds), pid, billing, false, r)
         else n == |d| && r.Refused?
  }

  lemma WebMadeFrom(a: seq<Event>, b: seq<Event>, env: Env, stored: Stored, pid: int, billing: string, allow: bool,
                    found: CredResult, r: WebResult)
    requires CredentialsRun(a, env, stored, allow, found)
    requires match found
             case NoCredentials => b == [] && r.Refused?
             case Restart => allow && WebMakes(b, env, Cleared(stored), pid, billing, false, r)
             case Ready(creds) => WebBuys(b, env, stored, creds, pid, billing, allow, r)
    ensures WebMakes(a + b, env, stored, pid, billing, allow, r)
  {
    hide CredentialsRun, WebBuys;
    assert (a + b)[..|a|] == a && (a + b)[|a|..] == b;
  }

  lemma WebBoughtFrom(c: seq<Event>, b: seq<Event>, env: Env, stored: Stored, creds: Creds, pid: int, billing: string,
                      allow: bool, created: CreateResult, r: WebResult)
    requires CreateRun(creds, pid, billing, c, created)
    requires if GivesInvoice(created) then
               b == [] && r == if ScalarId(created.body) == "" then Refused else Offered(creds, ScalarId(created.body))
             else if allow && created.Replied? && EmailNotFound(created.body.env) then
               && b != [] && b[0].CredentialsCleared?
               && WebMakes(b[1..], env, Wiped(stored, creds), pid, billing, false, r)
             else b == [] && r.Refused?
    ensures WebBuys(c + b, env, stored, creds, pid, billing, allow, r)
  {
    hide CreateRun, WebMakes, GivesInvoice, ScalarId, EmailNotFound;
    var d, n := c + b, |c|;
    assert d[..n] == c && d[n..] == b;
    if b != [] {
      assert d[n] == b[0] && d[n + 1..] == b[1..];
    }
  }

  // ---------------------------------------------------------------- counts

  /** Nothing is paid or marked; one invoice at most. */
  predicate WebCounts(d: seq<Event>, allow: bool) {
    && SumOf(d).marks == 0 && SumOf(d).wrong == 0
    && 0 <= SumOf(d).clears <= One(allow) && 0 <= SumOf(d).registers <= (if allow then 9 else 1)
    && 0 <= SumOf(d).ids <= SumOf(d).invoices <= 1
  }

  lemma WebSegments(first: seq<Event>, c: seq<Event>, stored: Stored, allow: bool, creds: Creds, pid: int,
                    billing: string, created: CreateResult)
    requires OnlyCredentials(first, RegisterLimit(allow), 0) && CreateRun(creds, pid, billing, c, created)
    ensures var d := first + c;
            && WebCounts(d, allow) && SumOf(d).clears == 0 && SumOf(d).registers == SumOf(first).registers
            && SumOf(d).registers <= RegisterLimit(allow)
            && SumOf(d).invoices == One(GivesInvoice(created)) && SumOf(d).ids == One(GivesId(created))
            && (AnyTaken(d) <==> AnyTaken(first))
            && (Strays(d, stored, allow) <==> !allow && AnyTaken(first) && stored.password == "")
  {
    hide SumOf, CreateRun, GivesInvoice, AnyTaken, AllActAs, ApiOk, IdOf, Strays;
    CreateSegment(creds, pid, billing, c, created);
    SumOfConcat(first, c);
    NoTakenLater(first, c);
    StraightStrays(first, c, stored, allow);
  }

  /** A wipe after the search, and the second pass. */
  lemma WipedThen(a: seq<Event>, b: seq<Event>, stored: Stored, left: Stored)
    requires WebCounts(a, true) && SumOf(a).clears == 0 && SumOf(a).invoices == 0
    requires SumOf(a).registers <= ALTERNATE_ATTEMPTS && WebCounts(b, false)
    requires left.password == "" <==> !(IsMissing(stored) && SumOf(a).registers != 0)
    ensures var d := a + ([CredentialsCleared] + b);
            WebCounts(d, true) && SumOf(d).clears == 1 && SumOf(d).invoices == SumOf(b).invoices
            && SumOf(d).ids == SumOf(b).ids && (Strays(d, stored, true) <==> Strays(b, left, false))
  {
    hide SumOf, AnyTaken, Strays, SinceClear, IsMissing, WebCounts;
    var w := a + [CredentialsCleared];
    AddWipe(a);
    WipeCounts(a, w, b);
    RestartStrays(w, b, stored, left);
    assert w + b == a + ([CredentialsCleared] + b);
  }

  lemma WipeCounts(a: seq<Event>, w: seq<Event>, b: seq<Event>)
    requires WebCounts(a, true) && SumOf(a).clears == 0 && SumOf(a).invoices == 0
    requires SumOf(a).registers <= ALTERNATE_ATTEMPTS && WebCounts(b, false)
    requires SumOf(w) == SumOf(a).(clears := SumOf(a).clears + 1)
    ensures WebCounts(w + b, true) && SumOf(w + b).clears == 1 && SumOf(b).clears == 0
    ensures SumOf(w + b).invoices == SumOf(b).invoices && SumOf(w + b).ids == SumOf(b).ids
  {
    hide SumOf;
    SumOfConcat(w, b);
  }

  lemma AddWipe(a: seq<Event>)
    ensures var w := a + [CredentialsCleared];
            SumOf(w) == SumOf(a).(clears := SumOf(a).clears + 1) && SinceClear(w) == []
  {
    hide SumOf, SumOfEvent;
    SumOfAppend(a, CredentialsCleared);
    SumOfPlainEvent(CredentialsCleared);
  }

  lemma RestartedThen(a: seq<Event>, b: seq<Event>, stored: Stored)
    requires OnlyCredentials(a, RegisterLimit(true), 1) && WebCounts(b, false)
    requires SumOf(a).registers == 0 && SinceClear(a) == []
    ensures var d := a + b;
            WebCounts(d, true) && SumOf(d).clears == 1 && SumOf(d).invoices == SumOf(b).invoices
            && SumOf(d).ids == SumOf(b).ids && (Strays(d, stored, true) <==> Strays(b, Cleared(stored), false))
  {
    hide SumOf, AnyTaken, Strays, SinceClear;
    SumOfConcat(a, b);
    RestartStrays(a, b, stored, Cleared(stored));
  }

  // ---------------------------------------------------------------- webCheckoutEnsureNewPurchaseInvoice

  /** A new invoice, with the credentials found as a purchase finds them. Its second pass starts from a user
      without an address. */
  method MakeInvoice(api: Api, env: Env, user: User, order: ShopOrder, pid: int, billing: string, allow: bool)
    returns (r: WebResult, ghost d: seq<Event>)
    requires !user.stale && (!allow ==> user.email == "")
    requires api.IsFaithful()
    modifies api, user, order
    decreases allow, 1
    ensures api.IsFaithful() && api.log == old(api.log) + d
    ensures WebMakes(d, env, old(StoredOf(user)), pid, billing, allow, r)
    ensures WebCounts(d, allow)
    ensures SumOf(d).registers == 0 && SumOf(d).clears == 0 ==> StoredOf(user) == old(StoredOf(user))
    // An invoice whose id is read is stored, under the credentials that made it.
    ensures order.config == old(order.config)
    ensures if r.Offered? then order.invId == r.invid != "" && order.maker == r.creds && SumOf(d).invoices == 1
            else order.invId == old(order.invId) && order.maker == old(order.maker)
    ensures SumOf(d).ids == 1 ==> r.Offered? && Trim(r.invid) != ""
    // The stored credentials are the ones used, unless a restart met a taken address.
    ensures r.Offered? ==> (user.Holds(r.creds) <==> !Strays(d, old(StoredOf(user)), allow))
  {
    hide SumOf, AllActAs, AnyTaken, OnlyCredentials, CredentialsRun, WebMakes, WebBuys, WebCounts, SinceClear, Follows;
    hide Trim, Rehydrated, RegisterLimit, Strays;
    ghost var stored := StoredOf(user);
    RehydratedTwice("", "");
    var found;
    ghost var first, b: seq<Event>;
    found, first := EnsureCredentials(api, env, user, allow);
    match found {
      case NoCredentials =>
        r, b := Refused, [];
        NothingMade(first, allow);
      case Restart =>
        r, b := MakeInvoice(api, env, user, order, pid, billing, false);
        RestartedThen(first, b, stored);
      case Ready(creds) =>
        r, b := MakeInvoiceAs(api, env, user, order, creds, pid, billing, allow, stored, first);
    }
    WebMadeFrom(first, b, env, stored, pid, billing, allow, found, r);
    d := first + b;
    assert first + [] == first;
  }

  /** The same once there are credentials; `first` is what it took to get them. */
  method MakeInvoiceAs(api: Api, env: Env, user: User, order: ShopOrder, creds: Creds, pid: int, billing: string,
                       allow: bool, ghost stored: Stored, ghost first: seq<Event>)
    returns (r: WebResult, ghost b: seq<Event>)
    requires user.idText == stored.idText && creds.email != "" && (allow ==> user.Holds(creds))
    requires user.Holds(creds) <==> !(!allow && AnyTaken(first) && stored.password == "")
    requires user.stale <==> IsMissing(stored)
    requires user.stale ==> allow && SumOf(first).registers > 0
    requires OnlyCredentials(first, RegisterLimit(allow), 0)
    requires api.IsFaithful()
    modifies api, user, order
    decreases allow, 0
    ensures api.IsFaithful() && api.log == old(api.log) + b
    ensures WebBuys(b, env, stored, creds, pid, billing, allow, r)
    ensures WebCounts(first + b, allow)
    ensures SumOf(first + b).clears == 0 ==>
              unchanged(user) && SumOf(first + b).registers == SumOf(first).registers
    ensures order.config == old(order.config)
    ensures if r.Offered? then
              order.invId == r.invid != "" && order.maker == r.creds && SumOf(first + b).invoices == 1
            else order.invId == old(order.invId) && order.maker == old(order.maker)
    ensures SumOf(first + b).ids == 1 ==> r.Offered? && Trim(r.invid) != ""
    ensures r.Offered? ==> (user.Holds(r.creds) <==> !Strays(first + b, stored, allow))
  {
    hide SumOf, AnyTaken, Strays, OnlyCredentials, CreateRun, WebMakes, WebBuys, WebCounts;
    hide EmailNotFound, Follows, Trim, Rehydrated, IdOf, ApiOk, ScalarId;
    RehydratedTwice("", "");
    var created;
    ghost var c;
    created, c := CreateWithFallback(api, creds, pid, billing);
    WebSegments(first, c, stored, allow, creds, pid, billing, created);
    r, b := Refused, [];
    if created.Replied? && ApiOk(created.body) {
      ScalarIdReadsMore(created.body);
      BlankIsBlank();
      var invid := ScalarId(created.body);
      if invid != "" {
        order.invId, order.maker := invid, creds;
        r := Offered(creds, invid);
      }
    } else if created.Replied? && allow && EmailNotFound(created.body.env) && user.email != "" {
      user.Clear();
      api.Note(CredentialsCleared);
      ghost var e;
      r, e := MakeInvoice(api, env, user, order, pid, billing, false);
      b := [CredentialsCleared] + e;
      assert b[1..] == e;
      WipedThen(first + c, e, stored, Wiped(stored, creds));
    }
    WebBoughtFrom(c, b, env, stored, creds, pid, billing, allow, created, r);
    assert first + (c + b) == first + c + b;
    assert first + c + [] == first + c;
    b := c + b;
  }

  lemma BlankIsBlank()
    ensures Trim("") == ""
  {
  }

  lemma NothingMade(first: seq<Event>, allow: bool)
    requires OnlyCredentials(first, RegisterLimit(allow), 0)
    ensures WebCounts(first + [], allow) && SumOf(first + []).invoices == 0
    ensures SumOf(first + []).registers == SumOf(first).registers && SumOf(first + []).ids == 0
  {
    hide SumOf;
    assert first + [] == first;
  }

  lemma LookThen(look: Event, b: seq<Event>, stored: Stored)
    requires look.Viewed? && WebCounts(b, true)
    ensures var d := [look] + b;
            && WebCounts(d, true) && SumOf(d).invoices == SumOf(b).invoices && SumOf(d).ids == SumOf(b).ids
            && SumOf(d).registers == SumOf(b).registers && SumOf(d).clears == SumOf(b).clears
            && (Strays(d, stored, true) <==> Strays(b, stored, true))
  {
    hide SumOf, SumOfEvent;
    SumOfOne(look);
    SumOfPlainEvent(look);
    SumOfConcat([look], b);
    LookStraysNot(look, b, stored);
  }

  lemma LookStraysNot(look: Event, b: seq<Event>, stored: Stored)
    requires look.Viewed?
    ensures Strays([look] + b, stored, true) <==> Strays(b, stored, true)
  {
    hide AnyTaken, IsMissing;
    var d := [look] + b;
    SinceClearConcat([look], b);
    LookIsNoClear(look, b);
    assert forall k :: 0 <= k < |b| ==> d[k + 1] == b[k];
    assert forall k :: 1 <= k < |d| ==> d[k] == b[k - 1];
  }

  lemma {:induction false} LookIsNoClear(look: Event, b: seq<Event>)
    requires look.Viewed?
    ensures HasClear([look] + b) <==> HasClear(b)
  {
    var d := [look] + b;
    if b == [] {
      assert d == [look] && d[..0] == [];
    } else {
      assert d[..|d| - 1] == [look] + b[..|b| - 1];
      LookIsNoClear(look, b[..|b| - 1]);
    }
  }

  lemma NothingCounted(stored: Stored)
    ensures WebCounts([], true) && SumOf([]) == ZERO && !Strays([], stored, true)
  {
  }

  /** webCheckoutEnsureNewPurchaseInvoice: a stored invoice is kept only while the panel shows it Pending;
      otherwise, and when the panel does not answer, its id is forgotten and another one is made. */
  method OfferInvoice(api: Api, env: Env, user: User, order: ShopOrder, pid: int, billing: string)
    returns (r: WebResult, ghost d: seq<Event>)
    requires api.IsFaithful()
    modifies api, user, order
    ensures api.IsFaithful() && api.log == old(api.log) + d
    ensures WebRun(d, env, old(StoredOf(user)), Trim(old(order.invId)), pid, billing, r)
    ensures WebCounts(d, true)
    ensures SumOf(d).registers == 0 && SumOf(d).clears == 0 ==> StoredOf(user) == old(StoredOf(user))
    ensures order.config == old(order.config)
    // At most one invoice is stored: the old one, a new one whose id was read, or none.
    ensures SumOf(d).invoices == 0 || r.Refused? ==> order.invId in {"", old(order.invId)}
    ensures SumOf(d).ids == 1 ==> Trim(order.invId) != ""
    ensures r.Offered? ==> r.invid == order.invId || (r.invid == Trim(order.invId) && order.invId == old(order.invId))
    // The invoice is offered under the credentials it was made with.
    ensures r.Offered? && (SumOf(d).invoices == 1 || user.Holds(order.maker)) ==> r.creds == order.maker
    // The stored credentials are the ones used, unless a restart met a taken address.
    ensures r.Offered? ==> (user.Holds(r.creds) <==> !Strays(d, old(StoredOf(user)), true))
    ensures old(Trim(order.invId) != "" ==> user.Holds(order.maker)) && Trim(order.invId) != "" ==>
              user.Holds(order.maker) || Strays(d, old(StoredOf(user)), true)
  {
    hide SumOf, AllActAs, AnyTaken, Strays, WebMakes, WebCounts, Follows, Trim, Rehydrated;
    ghost var stored := StoredOf(user);
    BlankIsBlank();
    NothingCounted(stored);
    d, r := [], Refused;
    if Trim(env.domain) == "" {
      return;
    }
    var password := ResolvePassword(user);
    ghost var look: seq<Event> := [];
    var existing := Trim(order.invId);
    if existing != "" {
      if user.email == "" || password == "" {
        return;
      }
      var creds := Creds(user.email, password);
      var view := api.InvoiceView(creds, existing);
      look := [Viewed(creds, existing, view)];
      LookThen(look[0], [], stored);
      assert look + [] == look;
      if view.Got? && view.body.invoice.Some? && view.body.invoice.value.status.Some?
         && EqualsIgnoringCase(view.body.invoice.value.status.value, "pending") {
        assert forall c :: user.Holds(c) ==> c == creds;
        return Offered(creds, existing), look;
      }
      order.invId := "";
    }
    ghost var b;
    r, b := MakeInvoice(api, env, user, order, pid, billing, true);
    if look != [] {
      LookThen(look[0], b, stored);
      assert (look + b)[1..] == b;
    } else {
      assert look + b == b;
    }
    d := look + b;
  }
}

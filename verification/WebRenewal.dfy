/** The renewal invoice a customer of the web shop is shown. */
module WebRenewal {
  import opened Text
  import opened Panel
  import opened Tally
  import opened Credentials
  import opened Invoicing
  import opened Enforcement
  import opened Renewal
  import opened WebCheckout

  /** service/renew's id as the checkout reads it: any scalar at the top level, blanks included. */
  function TopScalar(api: ApiBody): string {
    if api.invid.NoId? then "" else api.invid.text
  }

  /** Still Pending and linked to a service. */
  predicate IsOfferable(e: Event) {
    ShowsPending(e) && ViewHasServiceId(e.view.body)
  }

  // ---------------------------------------------------------------- the shape of a run

  /** `existing` and `left` are the stored invoice before and after, trimmed. */
  ghost predicate WebRenewalRun(d: seq<Event>, stored: Stored, original: Original, existing: string, left: string,
                                r: WebResult) {
    || (PrepareRun(d, stored, original, None) && r.Refused? && left == existing)
    || exists n, creds ::
         && 0 <= n <= |d| && PrepareRun(d[..n], stored, original, Some(creds)) && original.sid.Some?
         && WebRenews(d[n..], creds, original.sid.value, existing, left, r)
  }

  predicate WebRenews(d: seq<Event>, creds: Creds, sid: int, existing: string, left: string, r: WebResult) {
    if existing == "" then WebAsks(d, creds, sid, left, r)
    else
      && d != [] && d[0].Viewed? && d[0].creds == creds && d[0].invid == existing
      && if IsOfferable(d[0]) then |d| == 1 && r == Offered(creds, existing) && left == existing
         else WebAsks(d[1..], creds, sid, left, r)
  }

  predicate WebAsks(d: seq<Event>, creds: Creds, sid: int, left: string, r: WebResult) {
    && |d| == 1 && d[0].RenewTried? && d[0].creds == creds && d[0].sid == sid
    && if d[0].renewed.Threw? || !ApiOk(d[0].renewed.body) || TopScalar(d[0].renewed.body) == ""
       then r.Refused? && left == ""
       else r == Offered(creds, TopScalar(d[0].renewed.body)) && left == Trim(TopScalar(d[0].renewed.body))
  }

  lemma RefusedAtOnce(d: seq<Event>, stored: Stored, original: Original, existing: string)
    requires PrepareRun(d, stored, original, None)
    ensures WebRenewalRun(d, stored, original, existing, existing, Refused)
  {
    hide PrepareRun, WebRenews;
  }

  lemma RenewedFrom(first: seq<Event>, e: seq<Event>, stored: Stored, original: Original, creds: Creds,
                    existing: string, left: string, r: WebResult)
    requires PrepareRun(first, stored, original, Some(creds)) && original.sid.Some?
    requires WebRenews(e, creds, original.sid.value, existing, left, r)
    ensures WebRenewalRun(first + e, stored, original, existing, left, r)
  {
    hide PrepareRun, WebRenews;
    var d, n := first + e, |first|;
    assert d[..n] == first && d[n..] == e;
  }

  /** webCheckoutEnsureRenewalInvoice with the eligibility rule before it: a stored invoice is kept only while the
      panel shows it Pending and linked; otherwise its id is forgotten and service/renew is asked once. */
  method OfferRenewal(api: Api, user: User, order: ShopOrder, original: Original)
    returns (r: WebResult, ghost d: seq<Event>)
    requires api.IsFaithful()
    modifies api, user, order
    ensures api.IsFaithful() && api.log == old(api.log) + d
    ensures WebRenewalRun(d, old(StoredOf(user)), original, old(Trim(order.invId)), Trim(order.invId), r)
    ensures StoredOf(user) == old(StoredOf(user)) && order.config == old(order.config)
    ensures SumOf(d) == ZERO
  {
    hide PrepareRun, SumOf, Trim, Follows, IsOfferable, ApiOk, BeginsEligible, WebRenewalRun, StoredOf;
    ghost var stored, existing := StoredOf(user), Trim(order.invId);
    TrimOfEmpty();
    var ready, low;
    ready, low, d := AskEligibility(api, user, original);
    r := Refused;
    if ready.None? {
      RefusedAtOnce(d, stored, original, existing);
      return;
    }
    var creds, sid := ready.value, original.sid.value;
    ghost var first, e: seq<Event> := d, [];
    var invid := Trim(order.invId);
    if invid != "" {
      var view := api.InvoiceView(creds, invid);
      var seen := Viewed(creds, invid, view);
      QuietAfter(first, [seen]);
      e := [seen];
      if IsOfferable(seen) {
        r := Offered(creds, invid);
        RenewedFrom(first, e, stored, original, creds, existing, existing, r);
        return r, first + e;
      }
      order.invId := "";
    }
    var renewed := api.ServiceRenew(creds, sid);
    ghost var asked := RenewTried(creds, sid, renewed);
    assert first + [] == first;
    QuietAfter(first + e, [asked]);
    if renewed.Got? && ApiOk(renewed.body) && TopScalar(renewed.body) != "" {
      order.invId, order.maker := TopScalar(renewed.body), creds;
      r := Offered(creds, TopScalar(renewed.body));
    }
    ghost var t := e + [asked];
    assert e != [] ==> t[1..] == [asked];
    assert e == [] ==> t == [asked];
    RenewedFrom(first, t, stored, original, creds, existing, Trim(order.invId), r);
    d := first + t;
    assert d == first + e + [asked];
  }
}

/** What the shop reads in the status words of services, invoices and accounts, and which cells it takes. */
module StatusFacts {
  import opened Text
  import opened Words
  import opened Panel
  import opened RowSelection
  import opened ServiceRules
  import opened Credentials
  import opened Invoicing
  import opened ReplyFacts
  import opened WebCheckout
  import opened Renewal
  import opened WebRenewal

  // ---------------------------------------------------------------- services

  /** A listed service counts as active when its status says so, is "activating", or says nothing. */
  lemma ActiveExactlyWhen(row: ServiceRow)
    ensures LooksActive(row) <==>
              row.Row? && (Says(row.status, "active") || Says(row.status, "activating") || Says(row.status, ""))
  {
    hide Lower, Trim, Says, IsWord;
    StatusWordsAreWords();
    if row.Row? {
      TrimSays(row.status, "active");
      TrimSays(row.status, "activating");
      TrimSays(row.status, "");
    }
  }

  lemma StatusWordsAreWords()
    ensures IsWord("active") && IsWord("activating") && IsWord("")
  {
  }

  predicate SaysOver(status: string) {
    || Mentions(status, "expired") || Mentions(status, "inactive") || Mentions(status, "cancelled")
    || Mentions(status, "canceled") || Mentions(status, "disabled") || Mentions(status, "suspended")
  }

  lemma OverWords(status: string)
    ensures ContainsAny(Lower(Trim(status)), EXPIRED_WORDS) <==> SaysOver(status)
  {
    hide Contains, Mentions, Trim, IsWord;
    OverWordsAreWords();
    AnyMentioned(Trim(status), EXPIRED_WORDS);
    assert EXPIRED_WORDS[0] == "expired" && EXPIRED_WORDS[1] == "inactive" && EXPIRED_WORDS[2] == "cancelled";
    assert EXPIRED_WORDS[3] == "canceled" && EXPIRED_WORDS[4] == "disabled" && EXPIRED_WORDS[5] == "suspended";
    forall k | 0 <= k < |EXPIRED_WORDS|
      ensures Mentions(Trim(status), EXPIRED_WORDS[k]) <==> Mentions(status, EXPIRED_WORDS[k])
    {
      TrimMentions(status, EXPIRED_WORDS[k]);
    }
  }

  lemma OverWordsAreWords()
    ensures forall k :: 0 <= k < |EXPIRED_WORDS| ==> EXPIRED_WORDS[k] != "" && IsWord(EXPIRED_WORDS[k])
    ensures forall k :: 0 <= k < |EXPIRED_WORDS| ==> HasNoCapital(EXPIRED_WORDS[k])
  {
  }

  predicate IsRenewable(row: UsageRow) {
    || row.statusNumber == Some(-1) || SaysOver(row.status)
    || (row.total > 0 && row.used >= row.total - row.total / 10)
  }

  /** A service may be renewed when its status number is -1, when its status says that it is over, or when a tenth
      of its traffic or less is left; the nested row, where there is one, decides. */
  lemma RenewableExactlyWhen(info: ServiceBody)
    ensures var row := if info.nestedUsage.Some? then info.nestedUsage.value else info.usage;
            MayRenew(info) <==> IsRenewable(row)
  {
    hide ContainsAny, Lower, Trim, SaysOver;
    OverWords(RowOf(info).status);
    LowExactlyWhen(RowOf(info));
  }

  /** Of the figures a reply gives for the traffic used, used_traffic counts before used, and used before u. */
  lemma UsageIsReported(report: Report, n: int)
    ensures report.usedTraffic == Some(n) ==> ReportedUse(report) == n
    ensures report.usedTraffic.None? && report.used == Some(n) ==> ReportedUse(report) == n
    ensures report.usedTraffic.None? && report.used.None? && report.u == Some(n) ==> ReportedUse(report) == n
    ensures report == Report(None, None, None) ==> ReportedUse(report) == 0
  {
  }

  /** A renewal shows as applied on a reply without an error code, with a service in it, that reads Active at the
      top level and has more than a tenth of its traffic left. */
  lemma AppliedExactlyWhen(info: ServiceBody)
    ensures RenewalApplied(info) <==>
              && (info.env.code.None? || info.env.code == Some(100)) && Reads(info.usage.status, "active")
              && !(info.usage.total > 0 && info.usage.used >= info.usage.total - info.usage.total / 10)
  {
    hide Lower, Reads;
    LowerReads(info.usage.status, "active");
    LowExactlyWhen(info.usage);
  }

  // ---------------------------------------------------------------- the rest

  /** The recovery takes an account for registered on the status "success" or the code 100, and on nothing else. */
  lemma RegisteredExactlyWhen(env: Envelope)
    ensures RecoveryApiOk(env) <==> Reads(env.status, "success") || env.code == Some(100)
  {
    hide Lower, Reads;
    LowerReads(env.status, "success");
  }

  /** The stored password counts unless it is blank and the raw column can be turned into one. */
  lemma PasswordExactlyWhen(password: string, recoverable: string)
    ensures Rehydrated(password, recoverable)
            == if Says(password, "") && recoverable != "" then recoverable else password
  {
    hide Trim, Lower, Says;
    TrimSays(password, "");
    LowerReads(Trim(password), "");
  }

  /** A stored invoice is used again for a purchase while the order has no link, blanks aside. */
  lemma ReusableExactlyWhen(order: ShopOrder)
    ensures order.CanReuse() <==> !Says(order.invId, "") && Says(order.config, "")
  {
    hide Trim, Lower, Says;
    TrimSays(order.invId, "");
    TrimSays(order.config, "");
    LowerReads(Trim(order.invId), "");
    LowerReads(Trim(order.config), "");
  }

  lemma PendingExactlyWhen(e: Event)
    ensures ShowsPending(e) <==>
              && e.Viewed? && e.view.Got? && e.view.body.invoice.Some? && e.view.body.invoice.value.status.Some?
              && Reads(e.view.body.invoice.value.status.value, "pending")
  {
    hide Lower, Reads;
    if e.Viewed? && e.view.Got? && e.view.body.invoice.Some? && e.view.body.invoice.value.status.Some? {
      LowerReads(e.view.body.invoice.value.status.value, "pending");
    }
  }

  // ---------------------------------------------------------------- renewals

  /** The address a renewal goes by: the user's, or else the one recorded on the order. */
  function AddressFor(stored: Stored, original: Original): string {
    if stored.email == "" then original.panelUsername else stored.email
  }

  /** A renewal looks at the service once, unless the password, the service or an address that is not blank is
      missing, with that address trimmed; and it goes on, with the address as it stands, exactly when the look
      finds the service renewable. */
  lemma PreparesExactlyWhen(d: seq<Event>, stored: Stored, original: Original, r: Option<Creds>)
    requires PrepareRun(d, stored, original, r)
    ensures var email := AddressFor(stored, original);
            && (d == [] <==> stored.password == "" || Says(email, "") || original.sid.None? || original.sid.value <= 0)
            && (d != [] ==>
                  && d[0].ServiceRead? && d[0].creds == Creds(Trim(email), stored.password)
                  && Some(d[0].sid) == original.sid && |d| == 1)
            && r == if d != [] && d[0].ServiceRead? && d[0].service.Got? && IsRenewable(RowOf(d[0].service.body))
                    then Some(Creds(email, stored.password)) else None
  {
    hide Trim, Lower, Says, MayRenew, SaysOver;
    var email := AddressFor(stored, original);
    TrimSays(email, "");
    LowerReads(Trim(email), "");
    if d != [] && d[0].service.Got? {
      RenewableExactlyWhen(d[0].service.body);
    }
  }

  predicate FoundUnlinked(e: Event) {
    && e.Viewed? && e.view.Got?
    && (e.view.body.invoice.Some? ==>
          var row := e.view.body.invoice.value;
          !CellPoints(row.serviceid) && !CellPoints(row.service_id) && !CellPoints(row.sid))
  }

  /** A stored renewal invoice is given up when the panel shows it without a service, or answers that the service
      is not found. */
  lemma DisownedExactlyWhen(e: Event)
    ensures Disowns(e) <==>
              || FoundUnlinked(e)
              || (e.ServiceRead? && e.service.Threw? && Mentions(e.service.error.message, "not found"))
  {
    hide ViewHasServiceId, SaysNotFound, CellPoints, Mentions;
    if e.Viewed? && e.view.Got? {
      LinkedExactlyWhen(e.view.body);
    }
    if e.ServiceRead? && e.service.Threw? {
      MissingExactlyWhen(e.service.error);
    }
  }

  /** The checkout keeps a stored renewal invoice that is Pending, in any case, and linked to a service. */
  lemma OfferableExactlyWhen(e: Event)
    ensures IsOfferable(e) <==>
              && e.Viewed? && e.view.Got? && e.view.body.invoice.Some? && e.view.body.invoice.value.status.Some?
              && Reads(e.view.body.invoice.value.status.value, "pending") && !FoundUnlinked(e)
  {
    hide ViewHasServiceId, CellPoints, Reads, ShowsPending;
    PendingExactlyWhen(e);
    if e.Viewed? && e.view.Got? {
      LinkedExactlyWhen(e.view.body);
    }
  }
}

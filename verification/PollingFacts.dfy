/** What every polling run promises, whatever the panel answers. */
module PollingFacts {
  import opened Text
  import opened Numbers
  import opened Panel
  import opened Words
  import opened ReplyFacts
  import opened RowSelection
  import opened Polling

  // ---------------------------------------------------------------- single rounds

  lemma {:induction false} ListedDeliversLinks(cfg: PollConfig, rows: seq<ListedInvoice>,
                                               replies: seq<Reply<ServiceBody>>, k: nat)
    requires k <= |rows|
    requires ListedStages(cfg, rows, replies, k).verdict.Deliver?
    ensures !PhpEmpty(ListedStages(cfg, rows, replies, k).verdict.picked.link)
  {
    if k > 0 && ListedStages(cfg, rows, replies, k - 1).verdict.Deliver? {
      ListedDeliversLinks(cfg, rows, replies, k - 1);
    }
  }

  /** A round hands out a link only on a paid invoice, and never an empty one. */
  lemma RoundDeliversPaidLink(cfg: PollConfig, i: nat, round: Round)
    requires Play(cfg, i, round).verdict.Deliver?
    ensures IsPaid(round) && !PhpEmpty(Play(cfg, i, round).verdict.picked.link)
  {
    hide Pick, ListedStage;
    assert Lower("Paid") == "paid";
    if ByListingStage(cfg, i, round).verdict.Deliver? && round.listing.Got? {
      ListedDeliversLinks(cfg, round.listing.body, round.byListing, |round.listing.body|);
    }
  }

  /** Paid without any service is not waited out once the early limit is reached. */
  lemma EmptyPaidRoundDecides(cfg: PollConfig, i: nat, round: Round)
    requires PaidAndEmpty(round) && cfg.fallback.Some? && i + 1 >= EarlyLimit(cfg)
    ensures !Play(cfg, i, round).verdict.Wait?
  {
    hide PickVerdict, ByInvoiceStage, ByListingStage;
  }

  lemma PendingRoundDecides(cfg: PollConfig, i: nat, round: Round)
    requires IsPending(round) && cfg.autoPay && !cfg.customerGateway && i + 1 >= 10
    ensures !Play(cfg, i, round).verdict.Wait?
  {
    hide PaidStage;
  }

  // ---------------------------------------------------------------- whole runs

  /** The loop ends, although its bound grows inside it: at most max(maxAttempts, 45) rounds. */
  lemma PollIsBounded(cfg: PollConfig, rounds: seq<Round>, r: PollResult)
    ensures PollRun(cfg, rounds, r) ==>
              && |rounds| <= Max(0, Max(cfg.maxAttempts, 45))
              && ((forall k :: 0 <= k < |rounds| ==> !PaidAndEmpty(rounds[k])) ==> |rounds| <= Max(0, cfg.maxAttempts))
  {
    if PollRun(cfg, rounds, r) {
      if rounds != [] {
        var last := |rounds| - 1;
        assert last < Limit(cfg, rounds[..last]);
        assert forall k :: 0 <= k < last ==> rounds[..last][k] == rounds[k];
      }
    }
  }

  /** A link is delivered only by the round that saw the invoice Paid, and it is never empty. */
  lemma DeliveryIsPaidAndLinked(cfg: PollConfig, rounds: seq<Round>, r: PollResult)
    ensures PollRun(cfg, rounds, r) && r.Delivered? ==>
              && rounds != [] && IsPaid(rounds[|rounds| - 1])
              && !PhpEmpty(r.picked.link)
              && Waited(cfg, rounds[..|rounds| - 1])
  {
    if PollRun(cfg, rounds, r) && r.Delivered? {
      RoundDeliversPaidLink(cfg, |rounds| - 1, rounds[|rounds| - 1]);
    }
  }

  /** The outcome is a function of what the panel answers: two runs that are given the same answers
      as far as both go have the same length and the same result. */
  lemma OutcomeIsDetermined(cfg: PollConfig, a: seq<Round>, b: seq<Round>, ra: PollResult, rb: PollResult)
    ensures PollRun(cfg, a, ra) && PollRun(cfg, b, rb) && (a <= b || b <= a) ==> a == b && ra == rb
  {
    hide Play;
    if PollRun(cfg, a, ra) && PollRun(cfg, b, rb) && (a <= b || b <= a) {
      if a <= b {
        assert b[..|a|] == a;
        DecidedRunEnds(cfg, |a|, b, ra);
      } else {
        assert a[..|b|] == b;
        DecidedRunEnds(cfg, |b|, a, rb);
      }
    }
  }

  /** No run goes on where another one, given the same answers, has come to its result. */
  lemma DecidedRunEnds(cfg: PollConfig, n: nat, b: seq<Round>, ra: PollResult)
    requires n <= |b| && PollRun(cfg, b[..n], ra)
    requires WithinLimit(cfg, b) && (b == [] || Waited(cfg, b[..|b| - 1]))
    ensures n == |b|
  {
    hide Play;
    assert forall k :: 0 <= k < n && k < |b| - 1 ==> b[..n][k] == b[..|b| - 1][k];
  }

  /** When the notice is wanted, only an early spell of "paid, no service" can buy extra rounds, and
      only if the panel then changes its answer: past the early limit no such round is waited out. */
  lemma ExtraRoundsNeedAChange(cfg: PollConfig, rounds: seq<Round>, r: PollResult)
    ensures PollRun(cfg, rounds, r) && cfg.fallback.Some? ==>
              && (forall k :: EarlyLimit(cfg) - 1 <= k < |rounds| - 1 ==> !PaidAndEmpty(rounds[k]))
              && (|rounds| > Max(0, cfg.maxAttempts) ==>
                    exists k :: 0 <= k < EarlyLimit(cfg) - 1 && k < |rounds| && PaidAndEmpty(rounds[k]))
  {
    hide Play;
    if PollRun(cfg, rounds, r) && cfg.fallback.Some? {
      var n := |rounds| - 1;
      forall k | EarlyLimit(cfg) - 1 <= k < n
        ensures !PaidAndEmpty(rounds[k])
      {
        assert rounds[..n][k] == rounds[k];
        if PaidAndEmpty(rounds[k]) {
          EmptyPaidRoundDecides(cfg, k, rounds[k]);
          assert false;
        }
      }
      if |rounds| > Max(0, cfg.maxAttempts) {
        assert n < Limit(cfg, rounds[..n]);
        var k :| 0 <= k < n && PaidAndEmpty(rounds[..n][k]);
        assert PaidAndEmpty(rounds[k]);
      }
    }
  }

  /** A panel that keeps answering Paid with an empty service list is given up by the early limit,
      4, 6 or 12 rounds, and the notice itself never comes sooner. */
  lemma EarlyNoticeOnTime(cfg: PollConfig, rounds: seq<Round>, r: PollResult)
    ensures PollRun(cfg, rounds, r) && cfg.fallback.Some? ==>
              var limit := if cfg.fallback.value.card2card then 4 else if cfg.fallback.value.shopPrepaid then 6 else 12;
              && ((forall k :: 0 <= k < |rounds| ==> PaidAndEmpty(rounds[k])) ==> |rounds| <= limit)
              && (r == Failed(PaidWithoutService) ==> |rounds| >= limit)
  {
    if PollRun(cfg, rounds, r) && cfg.fallback.Some? {
      ExtraRoundsNeedAChange(cfg, rounds, r);
      if |rounds| > EarlyLimit(cfg) {
        assert !PaidAndEmpty(rounds[EarlyLimit(cfg) - 1]);
      }
      if r == Failed(PaidWithoutService) {
        FailsForAReason(cfg, rounds, r);
      }
    }
  }

  lemma {:induction false} ListedNeverStops(cfg: PollConfig, rows: seq<ListedInvoice>,
                                            replies: seq<Reply<ServiceBody>>, k: nat)
    requires k <= |rows|
    ensures !ListedStages(cfg, rows, replies, k).verdict.Stop?
  {
    if k > 0 {
      ListedNeverStops(cfg, rows, replies, k - 1);
    }
  }

  /** With an automatic gateway the tenth Pending answer ends the run. Every caller allows at least
      ten rounds, so the closing "still Pending after the last attempt" errors cannot occur. */
  lemma PendingEndsTheRun(cfg: PollConfig, rounds: seq<Round>, r: PollResult)
    ensures PollRun(cfg, rounds, r) && cfg.autoPay && !cfg.customerGateway ==>
              && (forall k :: 9 <= k < |rounds| - 1 ==> !IsPending(rounds[k]))
              && (cfg.maxAttempts >= 10 ==> r != Failed(TimedOut(Some("Pending"))))
  {
    hide Play;
    if PollRun(cfg, rounds, r) && cfg.autoPay && !cfg.customerGateway {
      forall k | 9 <= k < |rounds| && (k < |rounds| - 1 || Waited(cfg, rounds))
        ensures !IsPending(rounds[k])
      {
        assert k < |rounds| - 1 ==> rounds[..|rounds| - 1][k] == rounds[k];
        if IsPending(rounds[k]) {
          PendingRoundDecides(cfg, k, rounds[k]);
          assert false;
        }
      }
      if Waited(cfg, rounds) && cfg.maxAttempts >= 10 {
        assert |rounds| >= 10;
      } else if r.Failed? && r.why.TimedOut? && !Waited(cfg, rounds) {
        RoundStopsForAReason(cfg, |rounds| - 1, rounds[|rounds| - 1]);
      }
    }
  }

  // ---------------------------------------------------------------- no sooner and no later

  /** What has to be the case before round i, counted from 0, gives up for that reason. */
  predicate MayStop(cfg: PollConfig, i: nat, round: Round, why: Failure) {
    match why
    case ViewThrew(_) => round.view.Threw? && round.view.error.runtime
    case AccountThrew(_) => round.account.Threw?
    case AccountGone => true
    case PendingWithoutGateway => i == 0 && !cfg.autoPay && Status(round) == Some("Pending")
    case PendingCard2Card => i + 1 >= 6 && cfg.autoPay && WantsCard2Card(cfg) && Status(round) == Some("Pending")
    case StillPending => i + 1 >= 10 && cfg.autoPay && !cfg.customerGateway && Status(round) == Some("Pending")
    case ServicesGarbled => IsPaid(round) && ServiceList(round).NotAList?
    case ServiceMissing =>
      i + 1 >= 5 && IsPaid(round) && round.byInvoice.Threw? && Mentions(round.byInvoice.error.message, "not found")
    case PaidWithoutService =>
      && IsPaid(round) && ServiceList(round) == Rows([]) && cfg.fallback.Some?
      && i + 1 >= if cfg.fallback.value.card2card then 4 else if cfg.fallback.value.shopPrepaid then 6 else 12
    case TimedOut(_) => false
  }

  lemma PaidStageStops(cfg: PollConfig, i: nat, round: Round)
    requires IsPaid(round)
    ensures var v := PaidStage(cfg, i, round).verdict; v.Stop? ==> MayStop(cfg, i, round, v.why)
  {
    hide Pick, ListedStage, Mentions, SaysNotFound, IsPaid, ServiceIdOfRow, LinkOfService;
    if round.listing.Got? {
      ListedNeverStops(cfg, round.listing.body, round.byListing, |round.listing.body|);
    }
    if round.byInvoice.Threw? {
      MissingExactlyWhen(round.byInvoice.error);
    }
  }

  lemma RoundStopsForAReason(cfg: PollConfig, i: nat, round: Round)
    ensures var v := Play(cfg, i, round).verdict; v.Stop? ==> MayStop(cfg, i, round, v.why)
  {
    hide PaidStage, IsPaid, Mentions, SaysNotFound, EmailNotFound, ServiceList, LinkOfService;
    if IsPaid(round) {
      PaidStageStops(cfg, i, round);
    }
  }

  /** A failed run ends with a round that had that reason, and a run that times out has used all its rounds, 45 of
      them at least if the invoice was once seen paid without a service. */
  lemma FailsForAReason(cfg: PollConfig, rounds: seq<Round>, r: PollResult)
    ensures PollRun(cfg, rounds, r) && r.Failed? ==>
              if r.why.TimedOut? then
                && |rounds| >= cfg.maxAttempts
                && ((exists k :: 0 <= k < |rounds| && PaidAndEmpty(rounds[k])) ==> |rounds| >= 45)
              else rounds != [] && MayStop(cfg, |rounds| - 1, rounds[|rounds| - 1], r.why)
  {
    hide Play, MayStop, PaidAndEmpty;
    if PollRun(cfg, rounds, r) && !Waited(cfg, rounds) {
      RoundStopsForAReason(cfg, |rounds| - 1, rounds[|rounds| - 1]);
      NeverTimesOut(cfg, |rounds| - 1, rounds[|rounds| - 1]);
    }
  }

  lemma NeverTimesOut(cfg: PollConfig, i: nat, round: Round)
    ensures forall status :: !MayStop(cfg, i, round, TimedOut(status))
  {
  }

  /** Both calls of a round that is not yet paid come back and name no vanished account. */
  predicate IsAnswered(round: Round) {
    && round.view.Got? && !EmailNotFound(round.view.body.env)
    && round.account.Got? && !EmailNotFound(round.account.body.api.env)
  }

  /** A Pending invoice is waited out up to the ninth round with an automatic gateway, up to the fifth where that
      gateway is Card2Card, and not at all without one on the first look. */
  lemma PendingWaitsExactlyWhen(cfg: PollConfig, i: nat, round: Round)
    requires IsAnswered(round) && Status(round) == Some("Pending")
    ensures Play(cfg, i, round).verdict.Wait? <==>
              && (cfg.autoPay || i > 0)
              && (cfg.autoPay && WantsCard2Card(cfg) ==> i < 5)
              && (cfg.autoPay && !cfg.customerGateway ==> i < 9)
  {
    hide PaidStage, EmailNotFound;
    assert Lower("Pending")[0] == 'p' && Lower("Pending")[1] == 'e';
  }

  /** Paid, with a list of services of which one has a link. */
  predicate IsLinked(round: Round) {
    && IsAnswered(round) && Status(round).Some? && Reads(Status(round).value, "paid")
    && ServiceList(round).Rows?
    && exists row :: row in ServiceList(round).rows && row.Row? && row.sublink !in {"", "0"}
  }

  lemma LinkedIsDelivered(cfg: PollConfig, i: nat, round: Round)
    requires IsLinked(round)
    ensures Play(cfg, i, round).verdict.Deliver?
  {
    hide Pick, EmailNotFound, ByInvoiceStage, ByListingStage, Lower, Reads, KnownStage;
    LowerReads(Status(round).value, "paid");
    PickFindsEveryLink(ServiceList(round).rows, cfg.pid, cfg.knownSid);
    var row :| row in ServiceList(round).rows && row.Row? && row.sublink !in {"", "0"};
    assert HasLink(row);
    PaidIsNotPending(Status(round).value);
  }

  lemma PaidIsNotPending(status: string)
    requires Reads(status, "paid")
    ensures status != "Pending"
  {
  }

  /** Up to nine Pending rounds, and then one that shows the invoice paid and a service with a link: the run
      delivers in that very round. */
  lemma PatientRunDelivers(cfg: PollConfig, rounds: seq<Round>, r: PollResult, m: nat)
    requires PollRun(cfg, rounds, r) && cfg.autoPay && !WantsCard2Card(cfg) && m <= 9 && m < cfg.maxAttempts
    requires forall k :: 0 <= k < m && k < |rounds| ==> IsAnswered(rounds[k]) && Status(rounds[k]) == Some("Pending")
    requires m < |rounds| ==> IsLinked(rounds[m])
    ensures |rounds| == m + 1 && r.Delivered?
  {
    hide Play, IsAnswered, IsLinked, Status, WantsCard2Card, PaidAndEmpty;
    forall k | 0 <= k < m && k < |rounds|
      ensures Play(cfg, k, rounds[k]).verdict.Wait?
    {
      PendingWaitsExactlyWhen(cfg, k, rounds[k]);
    }
    if m < |rounds| {
      LinkedIsDelivered(cfg, m, rounds[m]);
    }
  }

  // ---------------------------------------------------------------- a paid round, exactly

  predicate GivesLink(info: Reply<ServiceBody>) {
    info.Got? && HasLinkIn(info.body)
  }

  /** The account's list has a row with a link. */
  predicate FromAccount(round: Round) {
    ServiceList(round).Rows? && exists row :: row in ServiceList(round).rows && row.Row? && row.sublink !in {"", "0"}
  }

  /** The service the invoice names has one. */
  predicate FromInvoice(round: Round) {
    Invoice(round).Some? && NamedService(Invoice(round).value).Some? && GivesLink(round.byInvoice)
  }

  /** The service that row k of the invoice list names for this invoice has one. */
  predicate FromListedRow(cfg: PollConfig, rows: seq<ListedInvoice>, replies: seq<Reply<ServiceBody>>, k: nat)
    requires k < |rows|
  {
    && rows[k].invoiceId == cfg.invid && NamedService(rows[k].row).Some?
    && k < |replies| && GivesLink(replies[k])
  }

  predicate FromListing(cfg: PollConfig, round: Round) {
    round.listing.Got?
    && exists k :: 0 <= k < |round.listing.body| && FromListedRow(cfg, round.listing.body, round.byListing, k)
  }

  /** The service the caller knows of has one; asked only where the status is "Paid" to the letter. */
  predicate FromKnown(cfg: PollConfig, round: Round) {
    Status(round) == Some("Paid") && cfg.knownSid.Some? && GivesLink(round.byKnown)
  }

  /** From the fifth round on, the service the invoice names is gone. */
  predicate IsMissing(i: nat, round: Round) {
    && i >= 4 && Invoice(round).Some? && NamedService(Invoice(round).value).Some?
    && round.byInvoice.Threw? && Mentions(round.byInvoice.error.message, "not found")
  }

  /** The invoice list is read in every third round, and whenever the account has no service. */
  predicate ReadsListing(i: nat, round: Round) {
    i % 3 == 2 || ServiceList(round) == Rows([])
  }

  predicate IsTooLong(cfg: PollConfig, i: nat, round: Round) {
    && ServiceList(round) == Rows([]) && cfg.fallback.Some?
    && i + 1 >= if cfg.fallback.value.card2card then 4 else if cfg.fallback.value.shopPrepaid then 6 else 12
  }

  lemma LinkIsGiven(info: Reply<ServiceBody>)
    ensures GivesLink(info) <==> info.Got? && LinkOfService(info.body).Some?
  {
    hide LinkOfService, HasLinkIn;
    if info.Got? {
      LinkIsFirst(info.body);
    }
  }

  lemma {:induction false} ListedDeliversExactlyWhen(cfg: PollConfig, rows: seq<ListedInvoice>,
                                                     replies: seq<Reply<ServiceBody>>, k: nat)
    requires k <= |rows|
    ensures var v := ListedStages(cfg, rows, replies, k).verdict;
            && (v.Deliver? <==> exists j :: 0 <= j < k && FromListedRow(cfg, rows, replies, j))
            && (!v.Deliver? ==> v.Wait?)
  {
    hide GivesLink, LinkOfService, NamedService, ServiceIdOfRow;
    if k > 0 {
      ListedDeliversExactlyWhen(cfg, rows, replies, k - 1);
      var row, info := rows[k - 1], Answer(replies, k - 1);
      ServiceIsNamed(row.row);
      NoAnswerNoLink();
      LinkIsGiven(info);
      assert ListedStage(cfg, row, info).verdict.Deliver? <==> FromListedRow(cfg, rows, replies, k - 1);
    }
  }

  lemma NoAnswerNoLink()
    ensures !GivesLink(Threw(NO_ANSWER))
  {
  }

  lemma ByInvoiceExactlyWhen(cfg: PollConfig, i: nat, round: Round)
    ensures var v := ByInvoiceStage(cfg, i, round).verdict;
            && (v.Deliver? <==> FromInvoice(round)) && (v.Stop? <==> IsMissing(i, round))
            && (v.Stop? ==> v == Stop(ServiceMissing))
  {
    hide GivesLink, LinkOfService, NamedService, ServiceIdOfRow, SaysNotFound, Mentions;
    if Invoice(round).Some? {
      ServiceIsNamed(Invoice(round).value);
      if ServiceIdOfRow(Invoice(round).value).Some? {
        LinkIsGiven(round.byInvoice);
        if round.byInvoice.Threw? {
          MissingExactlyWhen(round.byInvoice.error);
        }
      }
    }
  }

  lemma ByListingExactlyWhen(cfg: PollConfig, i: nat, round: Round)
    ensures var v := ByListingStage(cfg, i, round).verdict;
            && (v.Deliver? <==> ReadsListing(i, round) && FromListing(cfg, round))
            && (!v.Deliver? ==> v.Wait?)
            && (ByListingStage(cfg, i, round).events != [] <==> ReadsListing(i, round))
  {
    hide FromListedRow, ListedStage;
    if round.listing.Got? {
      ListedDeliversExactlyWhen(cfg, round.listing.body, round.byListing, |round.listing.body|);
    }
  }

  lemma KnownExactlyWhen(cfg: PollConfig, round: Round)
    ensures var v := KnownStage(cfg, round).verdict;
            (v.Deliver? <==> FromKnown(cfg, round)) && (!v.Deliver? ==> v.Wait?)
  {
    hide GivesLink, LinkOfService;
    LinkIsGiven(round.byKnown);
  }

  lemma AccountPickExactlyWhen(cfg: PollConfig, round: Round)
    requires ServiceList(round).Rows?
    ensures var v := PickVerdict(cfg, ServiceList(round));
            (v.Deliver? <==> FromAccount(round)) && (!v.Deliver? ==> v.Wait?)
  {
    hide Pick;
    PickFindsEveryLink(ServiceList(round).rows, cfg.pid, cfg.knownSid);
    assert forall row :: row in ServiceList(round).rows ==>
        (HasLink(row) <==> row.Row? && row.sublink !in {"", "0"});
  }

  /** What a round makes of an invoice that is paid, to the last case: it delivers when the account's list, the
      service the invoice names, the invoice list or the known service has a link, in this order; it gives up on a
      service that is gone or on an account that has stayed empty too long; and otherwise it waits. */
  lemma PaidRoundExactlyWhen(cfg: PollConfig, i: nat, round: Round)
    requires IsAnswered(round) && Status(round).Some? && Reads(Status(round).value, "paid")
    requires ServiceList(round).Rows?
    ensures var v := Play(cfg, i, round).verdict;
            var soon := FromAccount(round) || FromInvoice(round);
            var later := ReadsListing(i, round) && FromListing(cfg, round);
            var atLast := !IsTooLong(cfg, i, round) && FromKnown(cfg, round);
            && (v.Deliver? <==> soon || (!IsMissing(i, round) && (later || atLast)))
            && (v == Stop(ServiceMissing) <==> !soon && IsMissing(i, round))
            && (v == Stop(PaidWithoutService) <==> !soon && !IsMissing(i, round) && !later && IsTooLong(cfg, i, round))
            && (v.Stop? ==> v.why.ServiceMissing? || v.why.PaidWithoutService?)
  {
    hide EmailNotFound, ByInvoiceStage, ByListingStage, KnownStage, PickVerdict, FromAccount, FromInvoice, IsMissing;
    hide ReadsListing, FromListing, FromKnown, Lower, Reads;
    LowerReads(Status(round).value, "paid");
    PaidIsNotPending(Status(round).value);
    AccountPickExactlyWhen(cfg, round);
    ByInvoiceExactlyWhen(cfg, i, round);
    ByListingExactlyWhen(cfg, i, round);
    KnownExactlyWhen(cfg, round);
  }

  // ---------------------------------------------------------------- polling only looks

  predicate IsLook(e: Event, creds: Creds) {
    match e
    case Viewed(c, _, _) => c == creds
    case AccountRead(c, _) => c == creds
    case ServiceRead(c, _, _) => c == creds
    case InvoicesListed(c, _) => c == creds
    case _ => false
  }

  predicate OnlyLooks(trace: seq<Event>, creds: Creds) {
    forall k :: 0 <= k < |trace| ==> IsLook(trace[k], creds)
  }

  lemma {:induction false} ListedOnlyLooks(cfg: PollConfig, rows: seq<ListedInvoice>,
                                           replies: seq<Reply<ServiceBody>>, k: nat)
    requires k <= |rows|
    ensures OnlyLooks(ListedStages(cfg, rows, replies, k).events, cfg.creds)
  {
    if k > 0 {
      ListedOnlyLooks(cfg, rows, replies, k - 1);
    }
  }

  lemma LooksInTurn(first: Stage, second: Stage, creds: Creds)
    requires OnlyLooks(first.events, creds) && OnlyLooks(second.events, creds)
    ensures OnlyLooks(Then(first, second).events, creds)
  {
  }

  lemma ByListingOnlyLooks(cfg: PollConfig, i: nat, round: Round)
    ensures OnlyLooks(ByListingStage(cfg, i, round).events, cfg.creds)
  {
    if round.listing.Got? {
      ListedOnlyLooks(cfg, round.listing.body, round.byListing, |round.listing.body|);
    }
  }

  lemma PaidStageOnlyLooks(cfg: PollConfig, i: nat, round: Round)
    ensures OnlyLooks(PaidStage(cfg, i, round).events, cfg.creds)
  {
    hide PickVerdict, ByListingStage, LinkOr;
    ByListingOnlyLooks(cfg, i, round);
    var notice := Quiet(EarlyVerdict(cfg, i, round));
    var fromList := Then(ByListingStage(cfg, i, round), notice);
    LooksInTurn(ByListingStage(cfg, i, round), notice, cfg.creds);
    var fromInvoice := Then(ByInvoiceStage(cfg, i, round), fromList);
    LooksInTurn(ByInvoiceStage(cfg, i, round), fromList, cfg.creds);
    LooksInTurn(Quiet(PickVerdict(cfg, ServiceList(round))), fromInvoice, cfg.creds);
  }

  lemma RoundOnlyLooks(cfg: PollConfig, i: nat, round: Round)
    ensures OnlyLooks(Play(cfg, i, round).events, cfg.creds)
  {
    hide PaidStage, LinkOr;
    PaidStageOnlyLooks(cfg, i, round);
    var paid := if IsPaid(round) then PaidStage(cfg, i, round) else Quiet(Wait);
    var fromPaid := Then(paid, KnownStage(cfg, round));
    LooksInTurn(paid, KnownStage(cfg, round), cfg.creds);
    var fromAccount := Then(AccountStage(cfg, round), fromPaid);
    LooksInTurn(AccountStage(cfg, round), fromPaid, cfg.creds);
    var fromPending := Then(Quiet(PendingVerdict(cfg, i, IsPending(round))), fromAccount);
    LooksInTurn(Quiet(PendingVerdict(cfg, i, IsPending(round))), fromAccount, cfg.creds);
    LooksInTurn(ViewStage(cfg, round), fromPending, cfg.creds);
  }

  /** Polling never pays, creates or registers, and uses one pair of credentials throughout. */
  lemma {:induction false} PollOnlyLooks(cfg: PollConfig, rounds: seq<Round>)
    ensures OnlyLooks(Flatten(cfg, rounds), cfg.creds)
  {
    hide Play;
    if rounds != [] {
      PollOnlyLooks(cfg, rounds[..|rounds| - 1]);
      RoundOnlyLooks(cfg, |rounds| - 1, rounds[|rounds| - 1]);
    }
  }
}

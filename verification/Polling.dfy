/** pollForSublink: waiting, with a bound that may be raised on the way, until a paid invoice
    yields a subscription link. */
module Polling {
  import opened Text
  import opened Panel
  import opened RowSelection

  const EARLY_AFTER := 12
  const EARLY_AFTER_CARD2CARD := 4
  const EARLY_AFTER_SHOP_PREPAID := 6
  const RAISED_LIMIT := 45

  /** What the caller knows about the gateway, when it wants the "paid but no service" notice. */
  datatype Fallback = Fallback(card2card: bool, shopPrepaid: bool)

  datatype PollConfig = PollConfig(
    creds: Creds, invid: string, pid: int, knownSid: Option<int>, autoPay: bool,
    maxAttempts: int, customerGateway: bool, fallback: Option<Fallback>)

  datatype Failure =
    | ViewThrew(error: Thrown)
    | AccountThrew(error: Thrown)
    | AccountGone
    | PendingWithoutGateway
    | PendingCard2Card
    | StillPending
    | ServicesGarbled
    | ServiceMissing
    | PaidWithoutService
    | TimedOut(status: Option<string>)

  datatype Verdict = Wait | Deliver(picked: Picked) | Stop(why: Failure)

  datatype PollResult = Delivered(picked: Picked) | Failed(why: Failure)

  /** What the panel answers in one round, for each call the round may come to make; `byListing`
      is indexed by the rows of the invoice list. */
  datatype Round = Round(
    view: Reply<ViewBody>, account: Reply<AccountBody>, byInvoice: Reply<ServiceBody>,
    listing: Reply<seq<ListedInvoice>>, byListing: seq<Reply<ServiceBody>>, byKnown: Reply<ServiceBody>)

  const NO_ANSWER: Thrown := Thrown(false, "")

  // ---------------------------------------------------------------- one round

  function Invoice(round: Round): Option<InvoiceRow> {
    if round.view.Got? then round.view.body.invoice else None
  }

  function Status(round: Round): Option<string> {
    if Invoice(round).Some? then Invoice(round).value.status else None
  }

  predicate IsPending(round: Round) {
    Status(round) == Some("Pending")
  }

  predicate IsPaid(round: Round) {
    Status(round).Some? && EqualsIgnoringCase(Status(round).value, "paid")
  }

  function ServiceList(round: Round): Services {
    if round.account.Got? then round.account.body.services else NotAList
  }

  predicate PaidAndEmpty(round: Round) {
    IsPaid(round) && ServiceList(round) == Rows([])
  }

  /** A stage of a round: the calls it makes, and whether the round ends there. */
  datatype Stage = Stage(events: seq<Event>, verdict: Verdict)

  function Then(first: Stage, second: Stage): Stage {
    if first.verdict.Wait? then Stage(first.events + second.events, second.verdict) else first
  }

  function Quiet(verdict: Verdict): Stage {
    Stage([], verdict)
  }

  function ViewStage(cfg: PollConfig, round: Round): Stage {
    Stage([Viewed(cfg.creds, cfg.invid, round.view)],
          match round.view
          case Threw(error) => if error.runtime then Stop(ViewThrew(error)) else Wait
          case Got(view) => if EmailNotFound(view.env) then Stop(AccountGone) else Wait)
  }

  predicate WantsCard2Card(cfg: PollConfig) {
    cfg.fallback.Some? && cfg.fallback.value.card2card
  }

  function PendingVerdict(cfg: PollConfig, i: nat, pending: bool): Verdict {
    if i == 0 && !cfg.autoPay && pending then Stop(PendingWithoutGateway)
    else if pending && WantsCard2Card(cfg) && cfg.autoPay && i + 1 >= 6 then Stop(PendingCard2Card)
    else if pending && cfg.autoPay && !cfg.customerGateway && i + 1 >= 10 then Stop(StillPending)
    else Wait
  }

  function AccountStage(cfg: PollConfig, round: Round): Stage {
    Stage([AccountRead(cfg.creds, round.account)],
          match round.account
          case Threw(error) => Stop(AccountThrew(error))
          case Got(account) => if EmailNotFound(account.api.env) then Stop(AccountGone) else Wait)
  }

  /** A link straight from the list; a list that is no list makes the selection rules throw. */
  function PickVerdict(cfg: PollConfig, services: Services): (v: Verdict)
    ensures v.Deliver? ==> !PhpEmpty(v.picked.link)
  {
    match services
    case NotAList => Stop(ServicesGarbled)
    case Rows(rows) =>
      var picked := Pick(rows, cfg.pid, cfg.knownSid);
      if picked.Some? then Deliver(picked.value) else Wait
  }

  function LinkOr(info: Reply<ServiceBody>, sid: int, otherwise: Verdict): (v: Verdict)
    ensures v.Deliver? ==> v == otherwise || !PhpEmpty(v.picked.link)
  {
    if info.Got? && LinkOfService(info.body).Some?
    then Deliver(Picked(LinkOfService(info.body).value, Some(sid)))
    else otherwise
  }

  predicate MissingForGood(i: nat, info: Reply<ServiceBody>) {
    info.Threw? && SaysNotFound(info.error) && i + 1 >= 5
  }

  function ByInvoiceStage(cfg: PollConfig, i: nat, round: Round): Stage {
    var sid := if Invoice(round).Some? then ServiceIdOfRow(Invoice(round).value) else None;
    if sid.None? then Quiet(Wait)
    else
      Stage([ServiceRead(cfg.creds, sid.value, round.byInvoice)],
            LinkOr(round.byInvoice, sid.value,
                   if MissingForGood(i, round.byInvoice) then Stop(ServiceMissing) else Wait))
  }

  function Answer(replies: seq<Reply<ServiceBody>>, k: nat): Reply<ServiceBody> {
    if k < |replies| then replies[k] else Threw(NO_ANSWER)
  }

  /** Row k of the list: asked about only when it is this invoice and names a service. */
  function ListedStage(cfg: PollConfig, row: ListedInvoice, info: Reply<ServiceBody>): Stage {
    if row.invoiceId != cfg.invid || ServiceIdOfRow(row.row).None? then Quiet(Wait)
    else
      var sid := ServiceIdOfRow(row.row).value;
      Stage([ServiceRead(cfg.creds, sid, info)], LinkOr(info, sid, Wait))
  }

  /** The first k rows of the list. */
  function ListedStages(cfg: PollConfig, rows: seq<ListedInvoice>, replies: seq<Reply<ServiceBody>>, k: nat): Stage
    requires k <= |rows|
  {
    if k == 0 then Quiet(Wait)
    else Then(ListedStages(cfg, rows, replies, k - 1), ListedStage(cfg, rows[k - 1], Answer(replies, k - 1)))
  }

  function ByListingStage(cfg: PollConfig, i: nat, round: Round): Stage {
    if ServiceList(round) != Rows([]) && i % 3 != 2 then Quiet(Wait)
    else
      Then(Stage([InvoicesListed(cfg.creds, round.listing)], Wait),
           if round.listing.Threw? then Quiet(Wait)
           else ListedStages(cfg, round.listing.body, round.byListing, |round.listing.body|))
  }

  function EarlyLimit(cfg: PollConfig): (n: nat)
    requires cfg.fallback.Some?
  {
    if cfg.fallback.value.card2card then EARLY_AFTER_CARD2CARD
    else if cfg.fallback.value.shopPrepaid then EARLY_AFTER_SHOP_PREPAID
    else EARLY_AFTER
  }

  function EarlyVerdict(cfg: PollConfig, i: nat, round: Round): Verdict {
    if PaidAndEmpty(round) && cfg.fallback.Some? && i + 1 >= EarlyLimit(cfg) then Stop(PaidWithoutService) else Wait
  }

  function PaidStage(cfg: PollConfig, i: nat, round: Round): Stage {
    Then(Quiet(PickVerdict(cfg, ServiceList(round))),
         Then(ByInvoiceStage(cfg, i, round),
              Then(ByListingStage(cfg, i, round), Quiet(EarlyVerdict(cfg, i, round)))))
  }

  /** Only an exact "Paid" leads to this last lookup. */
  function KnownStage(cfg: PollConfig, round: Round): Stage {
    if Status(round) != Some("Paid") || cfg.knownSid.None? then Quiet(Wait)
    else
      Stage([ServiceRead(cfg.creds, cfg.knownSid.value, round.byKnown)],
            LinkOr(round.byKnown, cfg.knownSid.value, Wait))
  }

  function Play(cfg: PollConfig, i: nat, round: Round): Stage {
    Then(ViewStage(cfg, round),
         Then(Quiet(PendingVerdict(cfg, i, IsPending(round))),
              Then(AccountStage(cfg, round),
                   Then(if IsPaid(round) then PaidStage(cfg, i, round) else Quiet(Wait),
                        KnownStage(cfg, round)))))
  }

  // ---------------------------------------------------------------- a whole run

  /** The loop bound once these rounds have gone by. */
  function Limit(cfg: PollConfig, rounds: seq<Round>): int {
    if (exists k :: 0 <= k < |rounds| && PaidAndEmpty(rounds[k])) && cfg.maxAttempts < RAISED_LIMIT
    then RAISED_LIMIT else cfg.maxAttempts
  }

  function Flatten(cfg: PollConfig, rounds: seq<Round>): seq<Event> {
    if rounds == [] then []
    else Flatten(cfg, rounds[..|rounds| - 1]) + Play(cfg, |rounds| - 1, rounds[|rounds| - 1]).events
  }

  ghost predicate Waited(cfg: PollConfig, rounds: seq<Round>) {
    forall k :: 0 <= k < |rounds| ==> Play(cfg, k, rounds[k]).verdict.Wait?
  }

  /** No round starts beyond the bound in force before it. */
  ghost predicate WithinLimit(cfg: PollConfig, rounds: seq<Round>) {
    forall k :: 0 <= k < |rounds| ==> k < Limit(cfg, rounds[..k])
  }

  function ResultOf(verdict: Verdict): PollResult {
    match verdict
    case Deliver(picked) => Delivered(picked)
    case Stop(why) => Failed(why)
    case Wait => Failed(TimedOut(None))
  }

  /** A run: rounds that all waited, and then either one round that decides or the bound. */
  ghost predicate PollRun(cfg: PollConfig, rounds: seq<Round>, r: PollResult) {
    && WithinLimit(cfg, rounds)
    && if Waited(cfg, rounds) then
         && |rounds| >= Limit(cfg, rounds)
         && r == Failed(TimedOut(if rounds == [] then None else Status(rounds[|rounds| - 1])))
       else
         && Waited(cfg, rounds[..|rounds| - 1])
         && r == ResultOf(Play(cfg, |rounds| - 1, rounds[|rounds| - 1]).verdict)
  }

  // ---------------------------------------------------------------- the source's loops

  method ReadListedRows(api: Api, cfg: PollConfig, rows: seq<ListedInvoice>)
    returns (verdict: Verdict, ghost replies: seq<Reply<ServiceBody>>)
    requires api.IsFaithful()
    modifies api
    ensures api.IsFaithful() && api.log == old(api.log) + ListedStages(cfg, rows, replies, |rows|).events
    ensures verdict == ListedStages(cfg, rows, replies, |rows|).verdict
  {
    replies := [];
    verdict := Wait;
    var k := 0;
    while k < |rows|
      invariant 0 <= k <= |rows| && |replies| == k
      invariant verdict.Wait?
      invariant ListedStages(cfg, rows, replies, k).verdict == verdict
      invariant api.IsFaithful() && api.log == old(api.log) + ListedStages(cfg, rows, replies, k).events
    {
      var row := rows[k];
      var sid := ServiceIdOfRow(row.row);
      var info: Reply<ServiceBody> := Threw(NO_ANSWER);
      if row.invoiceId == cfg.invid && sid.Some? {
        info := api.ServiceInfo(cfg.creds, sid.value);
        verdict := LinkOr(info, sid.value, Wait);
      }
      ListedPrefix(cfg, rows, replies, info, k);
      replies := replies + [info];
      k := k + 1;
      if !verdict.Wait? {
        ListedDecided(cfg, rows, replies, k, |rows|);
        return;
      }
    }
  }

  lemma {:induction false} ListedPrefix(cfg: PollConfig, rows: seq<ListedInvoice>, replies: seq<Reply<ServiceBody>>,
                                        more: Reply<ServiceBody>, k: nat)
    requires k <= |rows| && k <= |replies|
    ensures ListedStages(cfg, rows, replies + [more], k) == ListedStages(cfg, rows, replies, k)
  {
    if k > 0 {
      ListedPrefix(cfg, rows, replies, more, k - 1);
      assert (replies + [more])[k - 1] == replies[k - 1];
    }
  }

  lemma {:induction false} ListedDecided(cfg: PollConfig, rows: seq<ListedInvoice>, replies: seq<Reply<ServiceBody>>,
                                         k: nat, n: nat)
    requires k <= n <= |rows|
    requires !ListedStages(cfg, rows, replies, k).verdict.Wait?
    ensures ListedStages(cfg, rows, replies, n) == ListedStages(cfg, rows, replies, k)
  {
    if k < n {
      ListedDecided(cfg, rows, replies, k, n - 1);
    }
  }

  method TryPick(services: Services, cfg: PollConfig) returns (verdict: Verdict)
    ensures verdict == PickVerdict(cfg, services)
  {
    if services.NotAList? {
      return Stop(ServicesGarbled);
    }
    var link := PickSublink(services.rows, cfg.pid, cfg.knownSid);
    if link.Some? {
      var sid := PickSid(services.rows, cfg.pid, cfg.knownSid);
      return Deliver(Picked(link.value, sid));
    }
    var relaxed := PickRelaxed(services.rows, cfg.pid);
    verdict := if relaxed.Some? then Deliver(relaxed.value) else Wait;
  }

  method AskByInvoice(api: Api, cfg: PollConfig, i: nat, seen: Round) returns (verdict: Verdict, round: Round)
    requires api.IsFaithful()
    modifies api
    ensures round == seen.(byInvoice := round.byInvoice)
    ensures api.IsFaithful() && api.log == old(api.log) + ByInvoiceStage(cfg, i, round).events
    ensures verdict == ByInvoiceStage(cfg, i, round).verdict
  {
    round := seen;
    verdict := Wait;
    var sid := if Invoice(seen).Some? then ServiceIdOfRow(Invoice(seen).value) else None;
    if sid.Some? {
      var info := api.ServiceInfo(cfg.creds, sid.value);
      round := round.(byInvoice := info);
      verdict := LinkOr(info, sid.value, if MissingForGood(i, info) then Stop(ServiceMissing) else Wait);
    }
  }

  method AskByListing(api: Api, cfg: PollConfig, i: nat, seen: Round) returns (verdict: Verdict, ghost round: Round)
    requires api.IsFaithful()
    modifies api
    ensures round == seen.(listing := round.listing, byListing := round.byListing)
    ensures api.IsFaithful() && api.log == old(api.log) + ByListingStage(cfg, i, round).events
    ensures verdict == ByListingStage(cfg, i, round).verdict
  {
    round := seen;
    verdict := Wait;
    if ServiceList(seen) == Rows([]) || i % 3 == 2 {
      var listing := api.ListInvoices(cfg.creds);
      round := round.(listing := listing);
      if listing.Got? {
        ghost var replies;
        verdict, replies := ReadListedRows(api, cfg, listing.body);
        round := round.(byListing := replies);
      }
    }
  }

  /** Stages read only their own replies, so later answers leave earlier stages as they were. */
  lemma LaterAnswersDoNotMatter(cfg: PollConfig, i: nat, round: Round, listing: Reply<seq<ListedInvoice>>,
                                byListing: seq<Reply<ServiceBody>>, byKnown: Reply<ServiceBody>)
    ensures var other := round.(listing := listing, byListing := byListing, byKnown := byKnown);
            && Invoice(other) == Invoice(round) && Status(other) == Status(round)
            && ServiceList(other) == ServiceList(round)
            && ViewStage(cfg, other) == ViewStage(cfg, round)
            && AccountStage(cfg, other) == AccountStage(cfg, round)
            && ByInvoiceStage(cfg, i, other) == ByInvoiceStage(cfg, i, round)
  {
  }

  /** The body of the loop from the list selection to the early notice. */
  method RunPaidStage(api: Api, cfg: PollConfig, i: nat, seen: Round) returns (verdict: Verdict, ghost round: Round)
    requires api.IsFaithful()
    modifies api
    ensures round == seen.(byInvoice := round.byInvoice, listing := round.listing, byListing := round.byListing)
    ensures api.IsFaithful() && api.log == old(api.log) + PaidStage(cfg, i, round).events
    ensures verdict == PaidStage(cfg, i, round).verdict
  {
    hide PickVerdict, ByInvoiceStage, ByListingStage;
    round := seen;
    verdict := TryPick(ServiceList(seen), cfg);
    if verdict.Wait? {
      var asked;
      verdict, asked := AskByInvoice(api, cfg, i, seen);
      round := asked;
      if verdict.Wait? {
        verdict, round := AskByListing(api, cfg, i, asked);
        LaterAnswersDoNotMatter(cfg, i, asked, round.listing, round.byListing, round.byKnown);
        if verdict.Wait? {
          verdict := EarlyVerdict(cfg, i, asked);
        }
      }
    }
  }

  /** One round of polling. */
  method RunRound(api: Api, cfg: PollConfig, i: nat)
    returns (verdict: Verdict, status: Option<string>, paidAndEmpty: bool, ghost round: Round)
    requires api.IsFaithful()
    modifies api
    ensures api.IsFaithful() && api.log == old(api.log) + Play(cfg, i, round).events
    ensures verdict == Play(cfg, i, round).verdict
    ensures status == Status(round)
    ensures verdict.Wait? ==> paidAndEmpty == PaidAndEmpty(round)
  {
    hide PaidStage, LinkOr, PendingVerdict, EmailNotFound, EqualsIgnoringCase;
    var view := api.InvoiceView(cfg.creds, cfg.invid);
    var current := Round(view, Threw(NO_ANSWER), Threw(NO_ANSWER), Threw(NO_ANSWER), [], Threw(NO_ANSWER));
    round := current;
    status := Status(current);
    paidAndEmpty := false;
    verdict := ViewStage(cfg, current).verdict;
    if !verdict.Wait? {
      return;
    }
    verdict := PendingVerdict(cfg, i, IsPending(current));
    if !verdict.Wait? {
      return;
    }
    var account := api.AccountInfo(cfg.creds);
    current := current.(account := account);
    round := current;
    verdict := AccountStage(cfg, current).verdict;
    if !verdict.Wait? {
      return;
    }
    paidAndEmpty := PaidAndEmpty(current);
    if IsPaid(current) {
      verdict, round := RunPaidStage(api, cfg, i, current);
      if !verdict.Wait? {
        return;
      }
    }
    if status == Some("Paid") && cfg.knownSid.Some? {
      var info := api.ServiceInfo(cfg.creds, cfg.knownSid.value);
      verdict := LinkOr(info, cfg.knownSid.value, Wait);
      KnownAnswerDoesNotMatter(cfg, i, round, info);
      round := round.(byKnown := info);
    }
  }

  lemma KnownAnswerDoesNotMatter(cfg: PollConfig, i: nat, round: Round, byKnown: Reply<ServiceBody>)
    ensures PaidStage(cfg, i, round.(byKnown := byKnown)) == PaidStage(cfg, i, round)
  {
    hide PickVerdict, ByInvoiceStage, ListedStages;
    LaterAnswersDoNotMatter(cfg, i, round, round.listing, round.byListing, byKnown);
  }

  lemma LimitAfter(cfg: PollConfig, rounds: seq<Round>, round: Round)
    ensures Limit(cfg, rounds + [round])
            == if PaidAndEmpty(round) && Limit(cfg, rounds) < RAISED_LIMIT then RAISED_LIMIT else Limit(cfg, rounds)
  {
    hide PaidAndEmpty;
    var longer := rounds + [round];
    assert longer[|rounds|] == round;
    assert forall k :: 0 <= k < |rounds| ==> longer[k] == rounds[k];
  }

  lemma WithinLimitAfter(cfg: PollConfig, rounds: seq<Round>, round: Round)
    requires WithinLimit(cfg, rounds) && |rounds| < Limit(cfg, rounds)
    ensures WithinLimit(cfg, rounds + [round])
  {
    hide Limit;
    var longer := rounds + [round];
    forall k | 0 <= k < |longer|
      ensures k < Limit(cfg, longer[..k])
    {
      assert longer[..k] == rounds[..k];
      assert k == |rounds| ==> rounds[..k] == rounds;
    }
  }

  lemma WaitedAfter(cfg: PollConfig, rounds: seq<Round>, round: Round)
    requires Waited(cfg, rounds)
    ensures Waited(cfg, rounds + [round]) <==> Play(cfg, |rounds|, round).verdict.Wait?
  {
    hide Play;
    var longer := rounds + [round];
    assert longer[|rounds|] == round;
    assert forall k :: 0 <= k < |rounds| ==> longer[k] == rounds[k];
  }

  method PollForSublink(api: Api, cfg: PollConfig) returns (r: PollResult, ghost rounds: seq<Round>)
    requires api.IsFaithful()
    modifies api
    ensures PollRun(cfg, rounds, r)
    ensures api.IsFaithful() && api.log == old(api.log) + Flatten(cfg, rounds)
  {
    hide Play, Limit, Waited, WithinLimit, PaidAndEmpty;
    NothingYet(cfg);
    var lastStatus: Option<string> := None;
    var attemptLimit := cfg.maxAttempts;
    rounds := [];
    var i := 0;
    while i < attemptLimit
      invariant 0 <= i == |rounds|
      invariant attemptLimit == Limit(cfg, rounds)
      invariant Waited(cfg, rounds) && WithinLimit(cfg, rounds)
      invariant lastStatus == if rounds == [] then None else Status(rounds[|rounds| - 1])
      invariant api.IsFaithful() && api.log == old(api.log) + Flatten(cfg, rounds)
      decreases (if attemptLimit < RAISED_LIMIT then RAISED_LIMIT else attemptLimit) - i
    {
      ghost var before := rounds;
      ghost var round;
      var verdict, status, paidAndEmpty;
      verdict, status, paidAndEmpty, round := RunRound(api, cfg, i);
      lastStatus := status;
      rounds := before + [round];
      assert rounds[..|rounds| - 1] == before;
      LimitAfter(cfg, before, round);
      WithinLimitAfter(cfg, before, round);
      WaitedAfter(cfg, before, round);
      if !verdict.Wait? {
        return ResultOf(verdict), rounds;
      }
      if paidAndEmpty {
        attemptLimit := if attemptLimit < RAISED_LIMIT then RAISED_LIMIT else attemptLimit;
      }
      i := i + 1;
    }
    r := Failed(TimedOut(lastStatus));
  }

  lemma NothingYet(cfg: PollConfig)
    ensures Limit(cfg, []) == cfg.maxAttempts && Waited(cfg, []) && WithinLimit(cfg, [])
  {
  }
}

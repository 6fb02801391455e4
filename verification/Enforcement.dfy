/** What the shop does when the panel has taken the money for a renewal but leaves the service expired. */
module Enforcement {
  import opened Text
  import opened Numbers
  import opened Panel
  import opened Billing
  import opened Tally
  import opened Credentials
  import opened RenewalDates
  import opened ServiceRules

  function FirstWithId(entries: seq<PackageEntry>, pid: int): (r: Option<PackageEntry>)
    ensures r.Some? ==> r.value in entries && r.value.id == Some(pid)
    ensures r.None? ==> forall e :: e in entries ==> e.id != Some(pid)
  {
    if entries == [] then None
    else if entries[0].id == Some(pid) then Some(entries[0])
    else FirstWithId(entries[1..], pid)
  }

  method FindPackage(packages: Reply<Option<seq<PackageEntry>>>, pid: int) returns (r: Option<PackageEntry>)
    ensures r == if packages.Got? && packages.body.Some? then FirstWithId(packages.body.value, pid) else None
  {
    if packages.Threw? || packages.body.None? {
      return None;
    }
    var entries := packages.body.value;
    for i := 0 to |entries|
      invariant FirstWithId(entries, pid) == FirstWithId(entries[i..], pid)
    {
      if entries[i].id == Some(pid) {
        return Some(entries[i]);
      }
      assert entries[i..][1..] == entries[i + 1..];
    }
    return None;
  }

  predicate IsServiceRead(e: Event, creds: Creds, sid: int) {
    e.ServiceRead? && e.creds == creds && e.sid == sid
  }

  predicate ShowsApplied(e: Event) {
    e.ServiceRead? && e.service.Got? && RenewalApplied(e.service.body)
  }

  /** The trace of an enforcement that lets the renewal pass: the first look failed or found the
      renewal applied; or the last one found it applied, or at least did not fail after the shop had
      changed the row itself. */
  predicate Passes(e: seq<Event>, creds: Creds, sid: int, changed: bool) {
    && e != [] && IsServiceRead(e[0], creds, sid)
    && (|| e[0].service.Threw?
        || ShowsApplied(e[0])
        || (var last := e[|e| - 1];
            IsServiceRead(last, creds, sid) && last.service.Got? && (ShowsApplied(last) || changed)))
  }

  predicate SawItMissing(d: seq<Event>) {
    d != [] && d[0].ServiceRead? && d[0].service.Got? && !ShowsApplied(d[0])
  }

  predicate LastLookFailed(d: seq<Event>) {
    d != [] && d[|d| - 1].ServiceRead? && d[|d| - 1].service.Threw?
  }

  /** The days of the fallback: the plan's, one at least, and those of the paid invoice if it has more. */
  function FallbackDays(row: Option<InvoiceRow>, planDays: int): int {
    if row.Some? then Max(Max(1, planDays), RenewalDays(row.value)) else Max(1, planDays)
  }

  predicate IsCutShort(row: InvoiceRow, planDays: int)
    requires Lower(Trim(row.cycle)) in CYCLES
  {
    FallbackDays(Some(row), planDays) < NominalDays(Lower(Trim(row.cycle)))
  }

  /** The fallback grants less than the cycle that was paid for exactly when the plan's days are fewer and the
      invoice does not make up for it: with its own count of days, or, as it states none, with the day table,
      which fails at the one cycle "quater". */
  lemma CutShortExactlyWhen(row: InvoiceRow, planDays: int)
    requires Lower(Trim(row.cycle)) in CYCLES
    ensures var cycle := Lower(Trim(row.cycle));
            IsCutShort(row, planDays) <==>
              && planDays < NominalDays(cycle)
              && match row.packageExpire
                 case Some(days) => days < NominalDays(cycle)
                 case None => cycle == "quater"
  {
    hide Lower, Trim;
    TableMissesQuater(row.cycle);
  }

  /** Of the plans whose cycle the shop derives from their days, those of 36 to 89 days are cut short. */
  lemma PlansCutShort(row: InvoiceRow, planDays: int)
    requires row.cycle == BillingOf("", planDays) && row.packageExpire.None?
    ensures Lower(Trim(row.cycle)) in CYCLES && (IsCutShort(row, planDays) <==> 36 <= planDays < 90)
  {
    hide Lower, Trim;
    CycleIsPlain(row.cycle);
    CutShortExactlyWhen(row, planDays);
  }

  lemma CycleIsPlain(cycle: string)
    requires cycle in CYCLES
    ensures Lower(Trim(cycle)) == cycle
  {
    forall k | 0 <= k < |cycle|
      ensures 'a' <= cycle[k] <= 'z'
    {
    }
    PlainWordStays(cycle);
  }

  /** One renewal at most, and of that row alone: from the package on offer, or else by the days of the
      fallback. */
  ghost predicate RenewedAtMostOnce(before: map<int, ServiceRecord>, after: map<int, ServiceRecord>, sid: int,
                                    row: Option<InvoiceRow>, entry: Option<PackageEntry>, planDays: int) {
    || after == before
    || (sid in before && exists now :: after == before[sid := Renewed(before[sid], now, FallbackDays(row, planDays))])
    || (sid in before && entry.Some? && exists now ::
          after == before[sid := RenewedByPackage(before[sid], now, entry.value.validity, entry.value.trafficGb)])
  }

  /** The same in figures: the fallback's days and no traffic, or the days and gigabytes of the package. */
  ghost predicate IsOneRenewal(before: map<int, ServiceRecord>, after: map<int, ServiceRecord>, sid: int,
                               row: Option<InvoiceRow>, entry: Option<PackageEntry>, planDays: int) {
    after != before ==>
      && sid in before && sid in after && after == before[sid := after[sid]]
      && (|| (exists now :: IsRenewedRow(before[sid], after[sid], now, FallbackDays(row, planDays)))
          || (entry.Some?
              && exists now ::
                   IsRepackagedRow(before[sid], after[sid], now, entry.value.validity, entry.value.trafficGb)))
  }

  lemma RenewedInFigures(before: map<int, ServiceRecord>, after: map<int, ServiceRecord>, sid: int,
                         row: Option<InvoiceRow>, entry: Option<PackageEntry>, planDays: int)
    requires RenewedAtMostOnce(before, after, sid, row, entry, planDays)
    ensures IsOneRenewal(before, after, sid, row, entry, planDays)
  {
    hide Renewed, RenewedByPackage, FallbackDays, IsRenewedRow, IsRepackagedRow;
    if after != before {
      var days := FallbackDays(row, planDays);
      if now :| after == before[sid := Renewed(before[sid], now, days)] {
        RenewedIsRenewed(before[sid], now, days, None);
      } else {
        var offer := entry.value;
        var now :| after == before[sid := RenewedByPackage(before[sid], now, offer.validity, offer.trafficGb)];
        RenewedIsRenewed(before[sid], now, offer.validity, offer.trafficGb);
      }
    }
  }

  /** The due date moves at most once, by the renewal rule; no other row is touched. */
  ghost predicate DueMovedAtMostOnce(before: map<int, ServiceRecord>, after: map<int, ServiceRecord>, sid: int) {
    && after.Keys == before.Keys
    && (forall s :: s in before && s != sid ==> after[s] == before[s])
    && (sid in before ==>
          || after[sid].due == before[sid].due
          || exists now, days :: after[sid].due == Known(NewDue(before[sid].due, now, days)))
  }

  lemma OneRenewalOneMove(before: map<int, ServiceRecord>, after: map<int, ServiceRecord>, sid: int,
                          row: Option<InvoiceRow>, entry: Option<PackageEntry>, planDays: int)
    requires RenewedAtMostOnce(before, after, sid, row, entry, planDays)
    ensures DueMovedAtMostOnce(before, after, sid)
  {
    if after != before {
      var days := FallbackDays(row, planDays);
      if now :| after == before[sid := Renewed(before[sid], now, days)] {
        assert after[sid].due == Known(NewDue(before[sid].due, now, days));
      } else {
        var offer := entry.value;
        var now :| after == before[sid := RenewedByPackage(before[sid], now, offer.validity, offer.trafficGb)];
        assert after[sid].due == Known(NewDue(before[sid].due, now, offer.validity));
      }
    }
  }

  /** The next two connections to the panel's database work. */
  predicate IsReachable(table: ServiceTable, tries: nat) {
    table.up(tries) && table.up(tries + 1)
  }

  /** Every connection works. */
  ghost predicate IsAlwaysUp(table: ServiceTable) {
    forall tries :: table.up(tries)
  }

  function EntryOf(packages: Reply<Option<seq<PackageEntry>>>, pid: int): Option<PackageEntry> {
    if packages.Got? && packages.body.Some? then FirstWithId(packages.body.value, pid) else None
  }

  /** The direct writes of the enforcement, given what invoice/view said; the package list is asked for
      only when the invoice is paid. */
  method RenewInTable(api: Api, table: ServiceTable, env: Env, creds: Creds, sid: int, pid: int,
                      row: Option<InvoiceRow>, planDays: int)
    returns (renewed: bool, ghost d: seq<Event>)
    requires api.IsFaithful()
    modifies api, table
    ensures api.IsFaithful() && api.log == old(api.log) + d
    ensures if row.None? then d == [] else |d| == 1 && d[0].PackagesListed? && d[0].creds == creds
    ensures renewed <==> table.rows != old(table.rows)
    ensures renewed ==> env.mysqlDirect && sid in old(table.rows)
    ensures RenewedAtMostOnce(old(table.rows), table.rows, sid, row,
                              if row.Some? then EntryOf(d[0].packages, pid) else None, planDays)
    ensures !renewed && env.mysqlDirect && sid in old(table.rows) ==> !IsReachable(table, old(table.tries))
  {
    d := [];
    renewed := false;
    ghost var before := table.rows;
    var now;
    if row.Some? {
      var packages := api.ListPackages(creds);
      d := [PackagesListed(creds, packages)];
      var entry := FindPackage(packages, pid);
      if entry.Some? {
        renewed, now := table.RenewFromPackage(env.mysqlDirect, sid, entry.value.validity, entry.value.trafficGb);
        if renewed {
          var rec := RenewedByPackage(before[sid], now, entry.value.validity, entry.value.trafficGb);
          assert table.rows == before[sid := rec] && table.rows[sid] == rec != before[sid];
          assert EntryOf(d[0].packages, pid) == entry;
          return;
        }
      }
    }
    var days := Max(1, planDays);
    if row.Some? {
      days := Max(days, RenewalDays(row.value));
    }
    renewed, now := table.RenewDirectly(env.mysqlDirect, sid, days);
    if renewed {
      RenewalChangesRow(before[sid], now, days);
      assert days == FallbackDays(row, planDays);
      assert table.rows == before[sid := Renewed(before[sid], now, FallbackDays(row, planDays))];
      assert table.rows[sid] != before[sid];
    }
  }

  /** The paid invoice row an enforcement saw. */
  function PaidRowIn(d: seq<Event>): Option<InvoiceRow> {
    if |d| > 1 && d[1].Viewed? && d[1].view.Got? && ViewIsPaid(d[1].view.body) then d[1].view.body.invoice else None
  }

  /** The package it was offered. */
  function EntryIn(d: seq<Event>, pid: int): Option<PackageEntry> {
    if |d| > 2 && d[2].PackagesListed? then EntryOf(d[2].packages, pid) else None
  }

  /** The calls of an enforcement: one look that settles it, or a look, the invoice, the packages when
      the invoice is paid, and a last look. */
  predicate EnforceRun(d: seq<Event>, creds: Creds, sid: int, invid: string) {
    && d != [] && IsServiceRead(d[0], creds, sid)
    && if d[0].service.Threw? || ShowsApplied(d[0]) then |d| == 1
       else
         && |d| == (if PaidRowIn(d).Some? then 4 else 3)
         && d[1].Viewed? && d[1].creds == creds && d[1].invid == invid
         && (|d| == 4 ==> d[2].PackagesListed? && d[2].creds == creds)
         && IsServiceRead(d[|d| - 1], creds, sid)
  }

  lemma EnforcedByLook(creds: Creds, sid: int, invid: string, first: Reply<ServiceBody>)
    requires first.Threw? || RenewalApplied(first.body)
    ensures EnforceRun([ServiceRead(creds, sid, first)], creds, sid, invid)
    ensures forall changed :: Passes([ServiceRead(creds, sid, first)], creds, sid, changed)
    ensures var d := [ServiceRead(creds, sid, first)];
            PaidRowIn(d).None? && EntryIn(d, 0).None? && !SawItMissing(d)
  {
    hide RenewalApplied;
  }

  lemma EnforcedByWrite(creds: Creds, sid: int, invid: string, pid: int, first: Reply<ServiceBody>,
                        view: Reply<ViewBody>, e: seq<Event>, last: Reply<ServiceBody>, changed: bool)
    requires first.Got? && !RenewalApplied(first.body)
    requires var row := if view.Got? && ViewIsPaid(view.body) then view.body.invoice else None;
             if row.None? then e == [] else |e| == 1 && e[0].PackagesListed? && e[0].creds == creds
    ensures var d := [ServiceRead(creds, sid, first), Viewed(creds, invid, view)] + e + [ServiceRead(creds, sid, last)];
            && EnforceRun(d, creds, sid, invid) && SawItMissing(d)
            && (Passes(d, creds, sid, changed) <==> last.Got? && (RenewalApplied(last.body) || changed))
            && PaidRowIn(d) == (if view.Got? && ViewIsPaid(view.body) then view.body.invoice else None)
            && EntryIn(d, pid) == if e == [] then None else EntryOf(e[0].packages, pid)
  {
    hide RenewalApplied, ViewIsPaid, EntryOf;
    var d := [ServiceRead(creds, sid, first), Viewed(creds, invid, view)] + e + [ServiceRead(creds, sid, last)];
    assert d[0] == ServiceRead(creds, sid, first) && d[1] == Viewed(creds, invid, view);
    assert d[|d| - 1] == ServiceRead(creds, sid, last);
    if e != [] {
      assert d[2] == e[0];
    }
  }

  /** enforcePanelRenewalAfterShopPay; `ok` is false where the source throws. */
  method EnforceAfterShopPay(api: Api, table: ServiceTable, env: Env, creds: Creds, sid: int, pid: int,
                             invid: string, planDays: int)
    returns (ok: bool, ghost d: seq<Event>)
    requires api.IsFaithful()
    modifies api, table
    ensures api.IsFaithful() && api.log == old(api.log) + d
    ensures EnforceRun(d, creds, sid, invid) && SumOf(d) == ZERO
    ensures ok <==> Passes(d, creds, sid, table.rows != old(table.rows))
    ensures RenewedAtMostOnce(old(table.rows), table.rows, sid, PaidRowIn(d), EntryIn(d, pid), planDays)
    ensures IsOneRenewal(old(table.rows), table.rows, sid, PaidRowIn(d), EntryIn(d, pid), planDays)
    // The shop steps in only after it has seen the renewal missing, and then does where it can.
    ensures table.rows != old(table.rows) ==> SawItMissing(d) && env.mysqlDirect && sid in old(table.rows)
    ensures SawItMissing(d) && env.mysqlDirect && sid in old(table.rows) && IsReachable(table, old(table.tries)) ==>
              table.rows != old(table.rows)
    // Having done so, it throws only when it cannot see the result.
    ensures !ok && table.rows != old(table.rows) ==> LastLookFailed(d)
  {
    hide SumOf, RenewalApplied, ViewIsPaid, RenewedAtMostOnce, IsOneRenewal, Passes, EnforceRun, PaidRowIn, EntryIn;
    hide SawItMissing;
    var first := api.ServiceInfo(creds, sid);
    d := [ServiceRead(creds, sid, first)];
    QuietEvent(d[0]);
    if first.Threw? || RenewalApplied(first.body) {
      EnforcedByLook(creds, sid, invid, first);
      NoMove(table.rows, sid, PaidRowIn(d), EntryIn(d, pid), planDays);
      RenewedInFigures(table.rows, table.rows, sid, PaidRowIn(d), EntryIn(d, pid), planDays);
      return true, d;
    }
    var view := api.InvoiceView(creds, invid);
    var seen := Viewed(creds, invid, view);
    ghost var start := d + [seen];
    QuietAfter(d, [seen]);
    var row := if view.Got? && ViewIsPaid(view.body) then view.body.invoice else None;
    var renewed;
    ghost var e;
    renewed, e := RenewInTable(api, table, env, creds, sid, pid, row, planDays);
    QuietAfter(start, e);
    var last := api.ServiceInfo(creds, sid);
    QuietAfter(start + e, [ServiceRead(creds, sid, last)]);
    EnforcedByWrite(creds, sid, invid, pid, first, view, e, last, renewed);
    assert start == [ServiceRead(creds, sid, first), Viewed(creds, invid, view)];
    d := start + e + [ServiceRead(creds, sid, last)];
    ok := last.Got? && (RenewalApplied(last.body) || renewed);
    RenewedInFigures(old(table.rows), table.rows, sid, PaidRowIn(d), EntryIn(d, pid), planDays);
  }

  /** Once the shop has renewed the row from a package, the enforcement passes on a last look that did not
      fail, whatever that look shows; and a truthful look shows the service used up exactly when it was and
      the package names no traffic. The renewal then does not count as applied, and the customer could pay
      for another one at once. */
  lemma PassesWhileUsedUp(d: seq<Event>, creds: Creds, sid: int, invid: string, info: ServiceBody,
                          rec: ServiceRecord, now: int, offer: PackageEntry)
    requires rec.u + rec.d >= 0
    requires var after := RenewedByPackage(rec, now, offer.validity, offer.trafficGb);
             info.usage.total == after.traffic && info.usage.used == after.u + after.d
    ensures EnforceRun(d, creds, sid, invid) && SawItMissing(d) && d[|d| - 1].service == Got(info) ==>
              && Passes(d, creds, sid, true)
              && (!NamesTraffic(offer.trafficGb) && IsUsedUp(rec.traffic, rec.u + rec.d) <==>
                    HasLowTraffic(info.usage))
              && (HasLowTraffic(info.usage) ==> !ShowsApplied(d[|d| - 1]) && MayRenewRow(info.usage))
  {
    hide IsExpired, IndicatesService;
    LowExactlyWhen(info.usage);
  }

  lemma NoMove(rows: map<int, ServiceRecord>, sid: int, row: Option<InvoiceRow>, entry: Option<PackageEntry>,
               planDays: int)
    ensures RenewedAtMostOnce(rows, rows, sid, row, entry, planDays)
  {
  }

  predicate IsQuiet(e: Event) {
    || e.ServiceRead? || e.Viewed? || e.PackagesListed? || e.AccountRead? || e.RenewTried? || e.GatewaysListed?
    || e.LinkedInvoice?
  }

  lemma QuietCounts(e: Event)
    requires IsQuiet(e)
    ensures SumOfEvent(e) == ZERO
  {
    SumOfPlainEvent(e);
  }

  lemma QuietEvent(e: Event)
    requires IsQuiet(e)
    ensures SumOf([e]) == ZERO
  {
    hide SumOf, SumOfEvent;
    SumOfOne(e);
    QuietCounts(e);
  }

  lemma QuietAfter(d: seq<Event>, e: seq<Event>)
    requires SumOf(d) == ZERO && forall k :: 0 <= k < |e| ==> IsQuiet(e[k])
    ensures SumOf(d + e) == ZERO
  {
    hide SumOf, SumOfEvent, IsQuiet, Sum.Plus, ZERO;
    SumOfConcat(d, e);
    PlusIsAssociative(ZERO, ZERO, ZERO);
    forall k | 0 <= k < |e|
      ensures SumOfEvent(e[k]) == ZERO
    {
      QuietCounts(e[k]);
    }
    QuietSum(e);
  }

  // ---------------------------------------------------------------- a renewal cut short

  const EXPIRED_SERVICE := ServiceBody(
    Envelope(Some(100), "success", ""), Some(7), UsageRow("expired", None, 0, 0), None, ["present link"], [], [])
  const PAID_FOR_THREE_MONTHS := InvoiceRow(Some("Paid"), Missing, Missing, Missing, None, "quater")
  const USED_RECORD := ServiceRecord(EXPIRED, Known(0), 0, 0, 0, 0, 1)

  /** The service stays expired, the invoice of three months is paid, and no package is offered. */
  function Unmoved(): Script {
    Script(
      _ => Got(ViewBody(Envelope(Some(100), "success", ""), Some(PAID_FOR_THREE_MONTHS))),
      _ => Threw(NO_PANEL), _ => Threw(NO_PANEL), _ => Got(EXPIRED_SERVICE), _ => Threw(NO_PANEL),
      _ => Threw(NO_PANEL), _ => Threw(NO_PANEL), _ => Threw(NO_PANEL), _ => Threw(NO_PANEL), _ => Threw(NO_PANEL),
      _ => Threw(NO_PANEL), _ => Threw(NO_PANEL))
  }

  lemma UnmovedReplies()
    ensures !RenewalApplied(EXPIRED_SERVICE)
    ensures ViewIsPaid(ViewBody(Envelope(Some(100), "success", ""), Some(PAID_FOR_THREE_MONTHS)))
  {
    LowerCaseStays("expired");
    assert Lower("Paid") == "paid";
  }

  /** On that panel the calls of an enforcement show the paid invoice and no package. */
  lemma EnforcedOnUnmoved(d: seq<Event>, creds: Creds, sid: int, pid: int, invid: string)
    requires EnforceRun(d, creds, sid, invid) && Follows(Unmoved(), 0, d)
    ensures SawItMissing(d) && PaidRowIn(d) == Some(PAID_FOR_THREE_MONTHS) && EntryIn(d, pid).None?
    ensures Passes(d, creds, sid, true)
  {
    hide RenewalApplied, ViewIsPaid;
    UnmovedReplies();
    assert IsAnswer(Unmoved(), 0 + 0, d[0]);
    assert |d| > 2;
    assert IsAnswer(Unmoved(), 0 + 1, d[1]) && IsAnswer(Unmoved(), 0 + 2, d[2]);
    var last := |d| - 1;
    assert IsAnswer(Unmoved(), 0 + last, d[last]);
  }

  /** A plan of 60 days, whose invoice the shop makes for three months: the invoice is paid, the service is
      renewed for 60 days, and the enforcement lets it pass. */
  method RenewedForSixtyDays(env: Env, creds: Creds, sid: int, pid: int, invid: string)
    returns (ok: bool, rec: ServiceRecord)
    requires env.mysqlDirect
    ensures BillingOf("", 60) == PAID_FOR_THREE_MONTHS.cycle && NominalDays(PAID_FOR_THREE_MONTHS.cycle) == 90
    ensures ok && exists now :: rec == Renewed(USED_RECORD, now, 60)
  {
    hide EnforceRun, Passes, PaidRowIn, EntryIn, SawItMissing, Follows, Unmoved, RenewedAtMostOnce, Renewed, SumOf;
    var api := new Api(Unmoved());
    var table := new ServiceTable(_ => true, _ => 0, map[sid := USED_RECORD]);
    ghost var before := table.rows;
    ghost var d;
    ok, d := EnforceAfterShopPay(api, table, env, creds, sid, pid, invid, 60);
    assert api.log == d;
    EnforcedOnUnmoved(d, creds, sid, pid, invid);
    OnlySixtyDays(before, table.rows, sid);
    rec := table.rows[sid];
  }

  lemma OnlySixtyDays(before: map<int, ServiceRecord>, after: map<int, ServiceRecord>, sid: int)
    requires sid in before && after != before
    requires RenewedAtMostOnce(before, after, sid, Some(PAID_FOR_THREE_MONTHS), None, 60)
    ensures sid in after && exists now :: after[sid] == Renewed(before[sid], now, 60)
  {
    hide Renewed, Lower, Trim;
    PlainWordStays("quater");
    TableMissesQuater("quater");
    var now :| after == before[sid := Renewed(before[sid], now, 60)];
    assert after[sid] == Renewed(before[sid], now, 60);
  }
}

/** The panel's service row: who may renew, when a renewal counts as applied, and the direct writes
    the shop makes to the row. */
module ServiceRules {
  import opened Text
  import opened Numbers
  import opened Panel
  import opened RenewalDates

  const GIGABYTE := 1024 * 1024 * 1024
  const ACTIVE := 1
  const EXPIRED := -1
  const EXPIRED_WORDS: seq<string> := ["expired", "inactive", "cancelled", "canceled", "disabled", "suspended"]

  // ---------------------------------------------------------------- reading a row

  /** serviceRowHasLowRemainingTraffic: at most a tenth, rounded down, is left. */
  predicate HasLowTraffic(row: UsageRow) {
    row.total > 0 && Max(0, row.total - row.used) <= row.total / 10
  }

  /** serviceRowIsExpired. */
  predicate IsExpired(row: UsageRow) {
    row.statusNumber == Some(EXPIRED) || ContainsAny(Lower(Trim(row.status)), EXPIRED_WORDS)
  }

  predicate MayRenewRow(row: UsageRow) {
    IsExpired(row) || HasLowTraffic(row)
  }

  /** evaluateFromServiceRow looks into `data` when there is one. */
  function RowOf(info: ServiceBody): UsageRow {
    if info.nestedUsage.Some? then info.nestedUsage.value else info.usage
  }

  predicate MayRenew(info: ServiceBody) {
    MayRenewRow(RowOf(info))
  }

  /** responseIndicatesExistingService looks at the top level only, and so does renewalAppliedOnPanel. */
  predicate IndicatesService(info: ServiceBody) {
    && (info.env.code.None? || info.env.code.value == 100)
    && (|| (info.sid.Some? && info.sid.value > 0)
        || Lower(info.usage.status) in {"active", "expired", "suspended", "cancelled"})
  }

  predicate RenewalApplied(info: ServiceBody) {
    IndicatesService(info) && Lower(info.usage.status) == "active" && !HasLowTraffic(info.usage)
  }

  /** A status that reads as a number does not read "active". */
  predicate NumbersAreNotWords(row: UsageRow) {
    row.statusNumber.Some? ==> Lower(row.status) != "active"
  }

  lemma ContainsFirstChar(s: string, needle: string)
    requires Contains(s, needle) && needle != ""
    ensures needle[0] in s
  {
    var at := WhereContained(s, needle);
    assert s[at + 0] == needle[0];
  }

  lemma LowerActive(status: string)
    requires Lower(status) == "active"
    ensures Lower(Trim(status)) == "active"
  {
    TrimLower(status);
    assert Trim("active") == "active";
  }

  lemma ActiveIsNotExpired(row: UsageRow)
    requires Lower(row.status) == "active" && NumbersAreNotWords(row)
    ensures !IsExpired(row)
  {
    LowerActive(row.status);
    NoExpiredWord("active");
  }

  lemma NoExpiredWord(st: string)
    requires st == "active"
    ensures !ContainsAny(st, EXPIRED_WORDS)
  {
    hide Contains;
    NoPairNoNeedle(st, EXPIRED_WORDS[0], 0);
    NoPairNoNeedle(st, EXPIRED_WORDS[1], 0);
    NoPairNoNeedle(st, EXPIRED_WORDS[2], 0);
    NoPairNoNeedle(st, EXPIRED_WORDS[3], 0);
    NoPairNoNeedle(st, EXPIRED_WORDS[4], 0);
    NoPairNoNeedle(st, EXPIRED_WORDS[5], 0);
  }

  /** A renewal that counts as applied leaves the service ineligible, unless the reply also carries a
      nested row, which only the eligibility rule reads: then that row alone decides. */
  lemma AppliedMeansIneligible(info: ServiceBody)
    ensures RenewalApplied(info) && NumbersAreNotWords(info.usage) ==>
              (MayRenew(info) <==> info.nestedUsage.Some? && MayRenewRow(info.nestedUsage.value))
  {
    hide IsExpired;
    if RenewalApplied(info) && NumbersAreNotWords(info.usage) {
      ActiveIsNotExpired(info.usage);
    }
  }

  /** One reply that is "renewed" by one rule and "to be renewed" by the other. */
  lemma NestedRowDisagrees(info: ServiceBody)
    requires info == ServiceBody(Envelope(None, "", ""), Some(7), UsageRow("Active", None, 0, 0),
                                 Some(UsageRow("", None, 100, 95)), [], [], [])
    ensures RenewalApplied(info) && MayRenew(info)
  {
    assert Lower("Active") == "active";
  }

  // ---------------------------------------------------------------- the two thresholds

  /** At least nine tenths of a positive total, rounded up. */
  predicate IsUsedUp(traffic: int, used: int) {
    traffic > 0 && used >= traffic - traffic / 10
  }

  lemma LowExactlyWhen(row: UsageRow)
    ensures HasLowTraffic(row) <==> IsUsedUp(row.total, row.used)
  {
  }

  /** The row reads as used up from nine tenths, rounded down, on. */
  predicate IsDepleted(traffic: int, spent: int) {
    traffic > 0 && spent >= 9 * traffic / 10
  }

  /** What makes a service eligible by traffic always lets Active be flipped to Expired. */
  lemma LowIsDepleted(row: UsageRow)
    ensures HasLowTraffic(row) ==> IsDepleted(row.total, row.used)
  {
  }

  lemma ThresholdsMeet(total: int)
    requires total > 0
    ensures 9 * total / 10 == total - total / 10 <==> total % 10 == 0
  {
  }

  /** The two thresholds are one and the same exactly for totals that are multiples of ten. */
  lemma DepletedIsLowExactlyWhen(total: int, status: string, number: Option<int>)
    requires total > 0
    ensures (forall used :: used >= 0 ==>
               (IsDepleted(total, used) <==> HasLowTraffic(UsageRow(status, number, total, used))))
            <==> total % 10 == 0
  {
    ThresholdsMeet(total);
    var between := 9 * total / 10;
    if total % 10 != 0 {
      assert IsDepleted(total, between) && !HasLowTraffic(UsageRow(status, number, total, between));
    }
  }

  lemma LowIsMonotone(row: UsageRow, more: int)
    requires more >= row.used
    ensures HasLowTraffic(row) ==> HasLowTraffic(row.(used := more))
    ensures MayRenewRow(row) ==> MayRenewRow(row.(used := more))
  {
  }

  // ---------------------------------------------------------------- the panel's service table

  datatype ServiceRecord = ServiceRecord(status: int, due: Due, traffic: int, used: int, u: int, d: int, notify: int)

  /** renewServiceDirectly's UPDATE. */
  function Renewed(rec: ServiceRecord, now: int, days: int): ServiceRecord {
    rec.(due := Known(NewDue(rec.due, now, days)), status := ACTIVE, notify := 0, used := 0, u := 0, d := 0)
  }

  predicate NamesTraffic(trafficGb: Option<int>) {
    trafficGb.Some? && trafficGb.value > 0
  }

  /** renewServiceFromPackage's UPDATE: traffic is reset only by a package that names some. */
  function RenewedByPackage(rec: ServiceRecord, now: int, days: int, trafficGb: Option<int>): ServiceRecord {
    var dated := rec.(due := Known(NewDue(rec.due, now, days)), status := ACTIVE);
    if NamesTraffic(trafficGb)
    then dated.(traffic := trafficGb.value * GIGABYTE, used := 0, u := 0, d := 0)
    else dated
  }

  function FlippedToExpired(rec: ServiceRecord): ServiceRecord {
    rec.(status := EXPIRED, notify := 0)
  }

  /** The days are added to the due date, or to the present moment where that is later. */
  predicate IsExtended(before: Due, after: Due, now: int, days: int) {
    after == Known((if before.Known? && before.at > now then before.at else now) + days * 86400)
  }

  /** What a direct renewal leaves: Active, unused, with the same traffic limit. */
  predicate IsRenewedRow(before: ServiceRecord, after: ServiceRecord, now: int, days: int) {
    && after.status == 1 && IsExtended(before.due, after.due, now, days) && after.notify == 0
    && after.used == 0 && after.u == 0 && after.d == 0 && after.traffic == before.traffic
  }

  /** What a renewal from a package leaves: Active, and either unused with the package's gigabytes or with the
      limit and the usage it had. */
  predicate IsRepackagedRow(before: ServiceRecord, after: ServiceRecord, now: int, days: int, trafficGb: Option<int>) {
    && after.status == 1 && IsExtended(before.due, after.due, now, days) && after.notify == before.notify
    && if trafficGb.Some? && trafficGb.value > 0 then
         after.traffic == trafficGb.value * 1073741824 && after.used == 0 && after.u == 0 && after.d == 0
       else
         && after.traffic == before.traffic && after.used == before.used && after.u == before.u && after.d == before.d
  }

  lemma RenewedIsRenewed(rec: ServiceRecord, now: int, days: int, trafficGb: Option<int>)
    ensures IsRenewedRow(rec, Renewed(rec, now, days), now, days)
    ensures IsRepackagedRow(rec, RenewedByPackage(rec, now, days, trafficGb), now, days, trafficGb)
  {
  }

  /** A renewal by a positive number of days always changes its row, so MySQL reports it. */
  lemma RenewalChangesRow(rec: ServiceRecord, now: int, days: int)
    requires days > 0
    ensures Renewed(rec, now, days) != rec
  {
    if rec.due.Known? {
      assert NewDue(rec.due, now, days) > rec.due.at;
    }
  }

  /** The service table behind a connection that may fail; `clock` is read at every attempt. An UPDATE
      reports success when it changed the row. */
  class ServiceTable {
    const up: nat -> bool
    const clock: nat -> int
    var tries: nat
    var rows: map<int, ServiceRecord>

    constructor (up: nat -> bool, clock: nat -> int, rows: map<int, ServiceRecord>)
      ensures this.rows == rows && this.tries == 0 && this.up == up && this.clock == clock
    {
      this.up, this.clock, this.rows, this.tries := up, clock, rows, 0;
    }

    method Update(sid: int, rec: ServiceRecord) returns (changed: bool)
      requires sid in rows
      modifies this`rows
      ensures rows == old(rows)[sid := rec]
      ensures changed <==> rec != old(rows)[sid]
      ensures !changed ==> rows == old(rows)
    {
      changed := rows[sid] != rec;
      rows := rows[sid := rec];
    }

    method RenewDirectly(enabled: bool, sid: int, days: int) returns (done: bool, now: int)
      modifies this
      ensures done <==> enabled && up(old(tries)) && sid in old(rows) && days > 0
      ensures rows == if done then old(rows)[sid := Renewed(old(rows)[sid], now, days)] else old(rows)
      ensures done ==> sid in rows && IsRenewedRow(old(rows)[sid], rows[sid], now, days)
      ensures tries == old(tries) + if enabled then 1 else 0
    {
      now := clock(tries);
      if !enabled {
        return false, now;
      }
      var connected := up(tries);
      tries := tries + 1;
      if !connected || sid !in rows || days <= 0 {
        return false, now;
      }
      RenewalChangesRow(rows[sid], now, days);
      RenewedIsRenewed(rows[sid], now, days, None);
      done := Update(sid, Renewed(rows[sid], now, days));
    }

    method RenewFromPackage(enabled: bool, sid: int, days: int, trafficGb: Option<int>) returns (done: bool, now: int)
      modifies this
      ensures done ==> enabled && up(old(tries)) && sid in old(rows)
      ensures sid in old(rows) && done ==> RenewedByPackage(old(rows)[sid], now, days, trafficGb) != old(rows)[sid]
      ensures sid in old(rows) && days > 0 && enabled && up(old(tries)) ==> done
      ensures rows == if done then old(rows)[sid := RenewedByPackage(old(rows)[sid], now, days, trafficGb)]
                      else old(rows)
      ensures sid in old(rows) && done ==>
                sid in rows && IsRepackagedRow(old(rows)[sid], rows[sid], now, days, trafficGb)
      ensures tries == old(tries) + if enabled then 1 else 0
    {
      now := clock(tries);
      if !enabled {
        return false, now;
      }
      var connected := up(tries);
      tries := tries + 1;
      if !connected || sid !in rows {
        return false, now;
      }
      RenewedIsRenewed(rows[sid], now, days, trafficGb);
      done := Update(sid, RenewedByPackage(rows[sid], now, days, trafficGb));
    }

    /** markActiveDepletedAsExpiredForPanelRenewal. */
    method MarkDepleted(enabled: bool, sid: int) returns (done: bool)
      modifies this
      ensures done <==>
                enabled && up(old(tries)) && sid in old(rows)
                && var rec := old(rows)[sid]; rec.status == ACTIVE && IsDepleted(rec.traffic, rec.u + rec.d)
      ensures rows == if done then old(rows)[sid := FlippedToExpired(old(rows)[sid])] else old(rows)
      // An Active row with a traffic limit of which nine tenths, rounded down, are used becomes Expired.
      ensures done ==>
                var before := old(rows)[sid];
                && before.status == 1 && before.traffic > 0 && before.u + before.d >= 9 * before.traffic / 10
                && sid in rows && rows[sid] == before.(status := -1, notify := 0)
    {
      if !enabled {
        return false;
      }
      var connected := up(tries);
      tries := tries + 1;
      if !connected || sid !in rows {
        return false;
      }
      var rec := rows[sid];
      if rec.status != ACTIVE || !IsDepleted(rec.traffic, rec.u + rec.d) {
        return false;
      }
      done := Update(sid, FlippedToExpired(rec));
    }
  }

  // ---------------------------------------------------------------- the cycle of a service

  function Digits(n: nat): (s: string)
    ensures s != "" && forall k :: 0 <= k < |s| ==> '0' <= s[k] <= '9'
  {
    var digit := ['0' + (n % 10) as char];
    if n < 10 then digit else Digits(n / 10) + digit
  }

  function Decimal(n: int): (s: string)
    ensures forall c :: c in s ==> c == '-' || '0' <= c <= '9'
  {
    if n < 0 then "-" + Digits(-n) else Digits(n)
  }

  /** The usage figures service/info may carry, in the order the eligibility rule prefers them. */
  datatype Report = Report(usedTraffic: Option<int>, used: Option<int>, u: Option<int>)

  function ReportedUse(report: Report): int {
    if report.usedTraffic.Some? then report.usedTraffic.value
    else if report.used.Some? then report.used.value
    else if report.u.Some? then report.u.value
    else 0
  }

  /** The preferred figure is what the service really used. */
  predicate IsTruthful(report: Report, rec: ServiceRecord) {
    ReportedUse(report) == rec.u + rec.d
  }

  /** A record as the eligibility rule reads it: a numeric status, and the reported usage. */
  function AsRow(rec: ServiceRecord, report: Report): UsageRow {
    UsageRow(Decimal(rec.status), Some(rec.status), rec.traffic, ReportedUse(report))
  }

  lemma NumberNamesNoWord(s: string)
    requires forall c :: c in s ==> c == '-' || '0' <= c <= '9'
    ensures !ContainsAny(Lower(Trim(s)), EXPIRED_WORDS)
  {
    hide Contains, Trim;
    var st := Lower(Trim(s));
    TrimKeeps(s);
    forall i | 0 <= i < |st|
      ensures st[i] == '-' || '0' <= st[i] <= '9'
    {
      assert Trim(s)[i] in s;
    }
    if ContainsAny(st, EXPIRED_WORDS) {
      var k :| 0 <= k < |EXPIRED_WORDS| && Contains(st, EXPIRED_WORDS[k]);
      FirstLetters(k);
      ContainsFirstChar(st, EXPIRED_WORDS[k]);
      assert false;
    }
  }

  lemma FirstLetters(k: nat)
    requires k < |EXPIRED_WORDS|
    ensures EXPIRED_WORDS[k] != "" && EXPIRED_WORDS[k][0] in {'e', 'i', 'c', 'd', 's'}
  {
  }

  lemma {:induction false} TrimKeeps(s: string)
    ensures forall c :: c in Trim(s) ==> c in s
  {
    TrimLeftKeeps(s);
    var t := TrimLeft(s);
    assert forall c :: c in TrimRight(t) ==> c in t;
  }

  lemma {:induction false} TrimLeftKeeps(s: string)
    ensures forall c :: c in TrimLeft(s) ==> c in s
  {
    if s != "" && IsBlank(s[0]) {
      TrimLeftKeeps(s[1..]);
    }
  }

  lemma EligibleExactlyWhen(rec: ServiceRecord, report: Report)
    ensures MayRenewRow(AsRow(rec, report)) <==>
              rec.status == EXPIRED || IsUsedUp(rec.traffic, ReportedUse(report))
  {
    NumberNamesNoWord(Decimal(rec.status));
    LowExactlyWhen(AsRow(rec, report));
  }

  /** What happens to a service between two renewals: it is used, or the panel lets it expire. */
  datatype Step = Spend(up: nat, down: nat) | RunOut

  function After(rec: ServiceRecord, steps: seq<Step>): ServiceRecord {
    if steps == [] then rec
    else
      var before := After(rec, steps[..|steps| - 1]);
      match steps[|steps| - 1]
      case Spend(up, down) => before.(u := before.u + up, d := before.d + down)
      case RunOut => before.(status := EXPIRED)
  }

  function Spent(steps: seq<Step>): (n: int)
    ensures n >= 0
  {
    if steps == [] then 0
    else
      var last := steps[|steps| - 1];
      Spent(steps[..|steps| - 1]) + if last.Spend? then last.up + last.down else 0
  }

  lemma {:induction false} UsageAddsUp(rec: ServiceRecord, steps: seq<Step>)
    ensures var end := After(rec, steps);
            && end.u + end.d == rec.u + rec.d + Spent(steps) && end.traffic == rec.traffic && end.due == rec.due
            && end.status == if RunOut in steps then EXPIRED else rec.status
  {
    if steps != [] {
      UsageAddsUp(rec, steps[..|steps| - 1]);
      assert steps == steps[..|steps| - 1] + [steps[|steps| - 1]];
    }
  }

  /** A direct renewal ends eligibility until the service expires or nine tenths of its traffic,
      counted from the renewal, are gone; from then on it lasts. A service without a traffic limit has only
      the first way back. */
  lemma RenewedUntilUsedUp(rec: ServiceRecord, now: int, days: int, steps: seq<Step>, report: Report)
    requires IsTruthful(report, After(Renewed(rec, now, days), steps))
    ensures MayRenewRow(AsRow(After(Renewed(rec, now, days), steps), report)) <==>
              RunOut in steps || IsUsedUp(rec.traffic, Spent(steps))
  {
    hide MayRenewRow, AsRow;
    UsageAddsUp(Renewed(rec, now, days), steps);
    EligibleExactlyWhen(After(Renewed(rec, now, days), steps), report);
  }

  /** The way doRenewal takes an Active service that is used up: low traffic lets it be flipped, unless
      more was reported than used; the flipped row reads as expired, and renewing that row gives what
      renewing the old one would. */
  lemma FlipOpensRenewal(rec: ServiceRecord, now: int, days: int, report: Report, later: Report)
    requires rec.status == ACTIVE && HasLowTraffic(AsRow(rec, report)) && ReportedUse(report) <= rec.u + rec.d
    requires IsTruthful(later, Renewed(rec, now, days))
    ensures IsDepleted(rec.traffic, rec.u + rec.d)
    ensures IsExpired(AsRow(FlippedToExpired(rec), report))
    ensures Renewed(FlippedToExpired(rec), now, days) == Renewed(rec, now, days)
    ensures !MayRenewRow(AsRow(Renewed(rec, now, days), later))
  {
    hide MayRenewRow;
    LowIsDepleted(AsRow(rec, report));
    EligibleExactlyWhen(Renewed(rec, now, days), later);
  }

  /** A renewal from a package ends eligibility unless the package names no traffic and the service is
      used up: then the service is as eligible as before. */
  lemma PackageLeavesUsedUp(rec: ServiceRecord, now: int, days: int, trafficGb: Option<int>, report: Report)
    requires IsTruthful(report, RenewedByPackage(rec, now, days, trafficGb))
    ensures MayRenewRow(AsRow(RenewedByPackage(rec, now, days, trafficGb), report)) <==>
              !NamesTraffic(trafficGb) && IsUsedUp(rec.traffic, rec.u + rec.d)
  {
    hide MayRenewRow, AsRow;
    EligibleExactlyWhen(RenewedByPackage(rec, now, days, trafficGb), report);
  }
}

/** Due dates of a panel service and expiry dates of a shop order under repeated renewal. */
module RenewalDates {
  import opened Text
  import opened Numbers
  import opened Panel
  import opened Billing

  const DAY := 86400

  /** A stored date: a point in time (seconds), nothing, or text that is no date. */
  datatype Due = Known(at: int) | Blank | Garbled

  /** Where a renewal starts counting: at the due date, or now when that has passed or says nothing. */
  function Base(due: Due, now: int): int {
    if due.Known? then Max(due.at, now) else now
  }

  /** calculateNewDueDate; the two services carry the same code. */
  function NewDue(due: Due, now: int, days: int): int {
    Base(due, now) + days * DAY
  }

  datatype Renewal = Renewal(now: int, days: int)

  function DueAfter(due: Due, renewals: seq<Renewal>): (d: Due)
    ensures renewals != [] ==> d.Known?
  {
    if renewals == [] then due
    else
      var last := renewals[|renewals| - 1];
      Known(NewDue(DueAfter(due, renewals[..|renewals| - 1]), last.now, last.days))
  }

  /** Seconds granted by the renewals from number `from` on. */
  function Granted(renewals: seq<Renewal>, from: nat): int
    requires from <= |renewals|
    decreases |renewals|
  {
    if from == |renewals| then 0
    else Granted(renewals[..|renewals| - 1], from) + renewals[|renewals| - 1].days * DAY
  }

  // ---------------------------------------------------------------- the closed form

  /** Every renewal promises its own days and those of all later ones from its own moment, and the
      starting date, where there is one, promises all of them. */
  predicate IsLatestPromise(end: int, due: Due, renewals: seq<Renewal>) {
    && (due.Known? ==> due.at + Granted(renewals, 0) <= end)
    && (forall i :: 0 <= i < |renewals| ==> renewals[i].now + Granted(renewals, i) <= end)
    && (|| (due.Known? && end == due.at + Granted(renewals, 0))
        || (exists i :: 0 <= i < |renewals| && end == renewals[i].now + Granted(renewals, i)))
  }

  /** The due date is the latest of these promises, for days of any sign: none is cut short and
      nothing beyond them is given. */
  lemma {:induction false} DueIsLatestPromise(due: Due, renewals: seq<Renewal>)
    requires renewals != []
    ensures DueAfter(due, renewals).Known? && IsLatestPromise(DueAfter(due, renewals).at, due, renewals)
  {
    var n := |renewals| - 1;
    var front, last := renewals[..n], renewals[n];
    var before, end := DueAfter(due, front), DueAfter(due, renewals).at;
    assert renewals[..n] == front;
    assert Granted(renewals, n) == last.days * DAY by {
      assert Granted(front, n) == 0;
    }
    forall i | 0 <= i < n
      ensures Granted(renewals, i) == Granted(front, i) + last.days * DAY
    {
    }
    if n > 0 {
      DueIsLatestPromise(due, front);
      forall i | 0 <= i < |renewals|
        ensures renewals[i].now + Granted(renewals, i) <= end
      {
        if i < n {
          assert front[i].now + Granted(front, i) <= before.at;
        }
      }
      if before.at >= last.now {
        if exists i :: 0 <= i < n && before.at == front[i].now + Granted(front, i) {
          var i :| 0 <= i < n && before.at == front[i].now + Granted(front, i);
          assert end == renewals[i].now + Granted(renewals, i);
        }
      } else {
        assert end == renewals[n].now + Granted(renewals, n);
      }
    } else {
      assert end == Base(due, last.now) + last.days * DAY;
      assert Granted(renewals, 0) == last.days * DAY;
      assert (due.Known? && due.at >= last.now) || end == renewals[0].now + Granted(renewals, 0);
    }
  }

  /** Two renewals at one moment are worth one with the days added exactly when the first leaves the
      due date no earlier than that moment; with days that are not negative, always. */
  lemma TogetherOrApart(due: Due, now: int, first: int, second: int)
    ensures NewDue(Known(NewDue(due, now, first)), now, second) == NewDue(due, now, first + second)
            <==> NewDue(due, now, first) >= now
    ensures first >= 0 ==> NewDue(due, now, first) >= now
  {
  }

  lemma {:induction false} ManyAtOnce(due: Due, now: int, renewals: seq<Renewal>)
    requires renewals != []
    requires forall k :: 0 <= k < |renewals| ==> renewals[k].now == now && renewals[k].days >= 0
    ensures DueAfter(due, renewals) == Known(Base(due, now) + Granted(renewals, 0))
    ensures Granted(renewals, 0) >= 0
  {
    var front := renewals[..|renewals| - 1];
    if front == [] {
      assert DueAfter(due, front) == due && Granted(front, 0) == 0;
    } else {
      assert forall k :: 0 <= k < |front| ==> front[k] == renewals[k];
      ManyAtOnce(due, now, front);
    }
  }

  // ---------------------------------------------------------------- the shop's own date

  /** What the shop writes to expires_at: the days on top of the old date, wherever that lies; a
      missing date reads as the present moment. */
  function ShopExpiry(expires: Due, now: int, days: int): Option<int> {
    match expires
    case Known(at) => Some(at + days * DAY)
    case Blank => Some(now + days * DAY)
    case Garbled => None
  }

  /** A settled renewal: the plan's days go to the shop's date, the panel grants its own. */
  datatype Settled = Settled(now: int, planDays: int, panelDays: int)

  function OnPanel(settled: seq<Settled>): (r: seq<Renewal>)
    ensures |r| == |settled|
  {
    seq(|settled|, i requires 0 <= i < |settled| => Renewal(settled[i].now, settled[i].panelDays))
  }

  function ExpiryAfter(start: int, settled: seq<Settled>): int {
    if settled == [] then start
    else
      var last := settled[|settled| - 1];
      ShopExpiry(Known(ExpiryAfter(start, settled[..|settled| - 1])), last.now, last.planDays).value
  }

  function PlanDays(settled: seq<Settled>): int {
    if settled == [] then 0 else PlanDays(settled[..|settled| - 1]) + settled[|settled| - 1].planDays
  }

  function PanelDue(start: int, settled: seq<Settled>): int {
    DueAfter(Known(start), OnPanel(settled)).at
  }

  /** Seconds by which the renewals came after the panel's due date had passed. */
  function Lateness(start: int, settled: seq<Settled>): (late: int)
    ensures late >= 0
  {
    if settled == [] then 0
    else
      var front, last := settled[..|settled| - 1], settled[|settled| - 1];
      Lateness(start, front) + Max(0, last.now - PanelDue(start, front))
  }

  function ExtraDays(settled: seq<Settled>): int {
    if settled == [] then 0
    else ExtraDays(settled[..|settled| - 1]) + settled[|settled| - 1].panelDays - settled[|settled| - 1].planDays
  }

  lemma OnPanelFront(settled: seq<Settled>)
    requires settled != []
    ensures OnPanel(settled)[..|settled| - 1] == OnPanel(settled[..|settled| - 1])
  {
  }

  lemma {:induction false} ExpiryIsSum(start: int, settled: seq<Settled>)
    ensures ExpiryAfter(start, settled) == start + PlanDays(settled) * DAY
  {
    if settled != [] {
      ExpiryIsSum(start, settled[..|settled| - 1]);
    }
  }

  /** By how much the panel's date exceeds the shop's, to the second: the days the panel granted on
      top of the plan, and all the time by which renewals were late. */
  lemma {:induction false} DatesDriftApart(start: int, settled: seq<Settled>)
    ensures PanelDue(start, settled) - ExpiryAfter(start, settled)
            == ExtraDays(settled) * DAY + Lateness(start, settled)
  {
    if settled != [] {
      DatesDriftApart(start, settled[..|settled| - 1]);
      OnPanelFront(settled);
    } else {
      assert OnPanel(settled) == [];
    }
  }

  predicate PanelIsGenerous(settled: seq<Settled>) {
    forall k :: 0 <= k < |settled| ==> settled[k].panelDays >= settled[k].planDays
  }

  predicate SameDays(settled: seq<Settled>) {
    forall k :: 0 <= k < |settled| ==> settled[k].panelDays == settled[k].planDays
  }

  /** No renewal found the panel's due date already past. */
  predicate AlwaysInTime(start: int, settled: seq<Settled>) {
    forall k :: 0 <= k < |settled| ==> settled[k].now <= PanelDue(start, settled[..k])
  }

  lemma {:induction false} NoExtraDays(settled: seq<Settled>)
    requires PanelIsGenerous(settled)
    ensures ExtraDays(settled) >= 0
    ensures ExtraDays(settled) == 0 <==> SameDays(settled)
  {
    if settled != [] {
      var front := settled[..|settled| - 1];
      assert forall k :: 0 <= k < |front| ==> front[k] == settled[k];
      NoExtraDays(front);
      assert SameDays(settled) <==> SameDays(front) && settled[|front|].panelDays == settled[|front|].planDays;
    }
  }

  lemma {:induction false} NeverLate(start: int, settled: seq<Settled>)
    ensures Lateness(start, settled) == 0 <==> AlwaysInTime(start, settled)
  {
    hide PanelDue;
    if settled != [] {
      NeverLate(start, settled[..|settled| - 1]);
      InTimeSplits(start, settled);
    }
  }

  lemma InTimeSplits(start: int, settled: seq<Settled>)
    requires settled != []
    ensures var front := settled[..|settled| - 1];
            AlwaysInTime(start, settled)
            <==> AlwaysInTime(start, front) && settled[|front|].now <= PanelDue(start, front)
  {
    hide PanelDue;
    var front := settled[..|settled| - 1];
    forall k | 0 <= k < |front|
      ensures front[k] == settled[k] && front[..k] == settled[..k]
    {
    }
  }

  /** The shop's date is its start plus the plan days of every settled renewal. A panel that grants
      at least these days never expires before it, and the two agree exactly when it grants no more
      and no renewal came after expiry. */
  lemma ShopNeverOutlivesPanel(start: int, settled: seq<Settled>)
    requires PanelIsGenerous(settled)
    ensures ExpiryAfter(start, settled) == start + PlanDays(settled) * DAY
    ensures ExpiryAfter(start, settled) <= PanelDue(start, settled)
    ensures ExpiryAfter(start, settled) == PanelDue(start, settled)
            <==> SameDays(settled) && AlwaysInTime(start, settled)
  {
    ExpiryIsSum(start, settled);
    DatesDriftApart(start, settled);
    NoExtraDays(settled);
    NeverLate(start, settled);
  }

  // ---------------------------------------------------------------- how many days

  /** calculateRenewalDays on an invoice row: its own day count, or its cycle's. */
  function RenewalDays(row: InvoiceRow): int {
    if row.packageExpire.Some? then row.packageExpire.value else CycleDays(row.cycle)
  }

  function CycleDays(cycle: string): (days: int)
    ensures days > 0
  {
    var c := Lower(Trim(cycle));
    if c in {"quarter", "quarterly"} then 90
    else if c in {"semiannual", "semi-annual"} then 180
    else if c in {"annual", "yearly"} then 365
    else if c in {"week", "weekly"} then 7
    else 30
  }

  /** What a cycle of the invoice API stands for. */
  function NominalDays(cycle: string): int
    requires cycle in CYCLES
  {
    if cycle == "month" then 30 else if cycle == "quater" then 90 else if cycle == "semiannual" then 180 else 365
  }

  /** The day table spells the three-month cycle as English does; the API, and the shop when it makes the
      invoice, spell it "quater". The table takes it for a month and gets every other cycle right. */
  lemma TableMissesQuater(cycle: string)
    requires Lower(Trim(cycle)) in CYCLES
    ensures CycleDays(cycle) == if Lower(Trim(cycle)) == "quater" then 30 else NominalDays(Lower(Trim(cycle)))
  {
    hide Lower, Trim;
  }

  /** resolveBilling: the plan's own cycle, or the one its days suggest. */
  function BillingOf(billing: string, planDays: int): (b: string)
    ensures billing == "" ==> b in CYCLES
  {
    if billing != "" then billing
    else if planDays <= 35 then "month"
    else if planDays <= 100 then "quater"
    else if planDays <= 200 then "semiannual"
    else "annual"
  }
}

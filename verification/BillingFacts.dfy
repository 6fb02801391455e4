/** Which billing cycle an invoice is asked for first, and how long a cycle lasts. */
module BillingFacts {
  import opened Text
  import opened Words
  import opened Panel
  import opened Billing
  import opened RenewalDates
  import opened Enforcement

  // ---------------------------------------------------------------- spelling

  /** The panel's word for a cycle the shop writes in any case, with blanks or, for three months, in English. */
  function PanelWord(billing: string): (word: Option<string>) {
    if Says(billing, "month") then Some("month")
    else if Says(billing, "quater") || Says(billing, "quarter") then Some("quater")
    else if Says(billing, "semiannual") then Some("semiannual")
    else if Says(billing, "annual") then Some("annual")
    else None
  }

  lemma CyclesAreWords()
    ensures IsWord("month") && IsWord("quater") && IsWord("quarter") && IsWord("semiannual") && IsWord("annual")
  {
  }

  lemma CycleIsSpelled(billing: string)
    ensures PanelWord(billing).Some? ==> Canonical(billing) == PanelWord(billing).value
    ensures PanelWord(billing).None? ==> Canonical(billing) !in {"month", "quater", "semiannual", "annual"}
  {
    hide Lower, Trim, Says, IsWord;
    CyclesAreWords();
    TrimSays(billing, "month");
    TrimSays(billing, "quater");
    TrimSays(billing, "quarter");
    TrimSays(billing, "semiannual");
    TrimSays(billing, "annual");
  }

  lemma WordSaysItself(word: string)
    requires word != "" && IsWord(word)
    ensures Says(word, word)
    ensures forall other :: IsWord(other) && Says(word, other) ==> other == word
  {
    hide Says, Trim;
    PlainCore(word);
    TrimSays(word, word);
    LowerCaseStays(word);
    forall other | IsWord(other) && Says(word, other)
      ensures other == word
    {
      TrimSays(word, other);
    }
  }

  lemma PlainCore(word: string)
    requires word != "" && IsWord(word)
    ensures Trim(word) == word
  {
    assert !IsBlank(word[0]) && !IsBlank(word[|word| - 1]) by {
      assert !IsSpace(word[0]) && !IsSpace(word[|word| - 1]);
    }
  }

  // ---------------------------------------------------------------- the first cycle tried

  predicate Offers(cells: BillingCells, cycle: string) {
    || (cells.month && cycle == "month") || (cells.quater && cycle == "quater")
    || (cells.semiannual && cycle == "semiannual") || (cells.annual && cycle == "annual")
  }

  /** The panel lists at least one cycle for the package. */
  predicate ListsCycles(package: Reply<PackageBody>) {
    && package.Got? && package.body.package.Some? && package.body.package.value.billing.Some?
    && var cells := package.body.package.value.billing.value;
       cells.month || cells.quater || cells.semiannual || cells.annual
  }

  /** A package that only adds traffic, by its kind or by what it offers. */
  predicate OnlyAddsTraffic(package: Reply<PackageBody>) {
    && package.Got? && package.body.package.Some?
    && var card := package.body.package.value;
       || (Mentions(card.kind, "traffic") && !Mentions(card.kind, "full"))
       || (card.billing.Some? && card.billing.value.topupTraffic && !ListsCycles(package))
  }

  /** The preferred cycle, unless the package lists others only, and then the shortest of those. */
  function FirstCycle(billing: string, package: Reply<PackageBody>): string {
    if !ListsCycles(package) then if Canonical(billing) == "" then "month" else Canonical(billing)
    else
      var cells := package.body.package.value.billing.value;
      if Offers(cells, Canonical(billing)) then Canonical(billing)
      else if cells.month then "month"
      else if cells.quater then "quater"
      else if cells.semiannual then "semiannual"
      else "annual"
  }

  lemma EnabledAreOffered(cells: BillingCells)
    ensures forall b :: b in EnabledCycles(cells) <==> Offers(cells, b)
    ensures EnabledCycles(cells) != [] ==>
              EnabledCycles(cells)[0] == if cells.month then "month" else if cells.quater then "quater"
                                         else if cells.semiannual then "semiannual" else "annual"
    ensures EnabledCycles(cells) == [] <==> !cells.month && !cells.quater && !cells.semiannual && !cells.annual
  {
  }

  lemma AppendStartsWith(first: seq<string>, xs: seq<string>)
    requires first != [] || xs != []
    ensures AppendNew(first, xs) != [] && AppendNew(first, xs)[0] == (first + xs)[0]
  {
    if first == [] {
      FirstNewComesNext([], xs[0], xs);
    }
  }

  lemma DefaultsStart(preferred: string)
    ensures Defaults(preferred)[0] == if preferred == "" then "month" else preferred
  {
    AppendStartsWith(NonEmpty(preferred), CYCLES);
    assert preferred == "" ==> (NonEmpty(preferred) + CYCLES)[0] == CYCLES[0];
  }

  lemma OrderedStarts(preferred: string, enabled: seq<string>)
    requires enabled != []
    ensures Ordered(preferred, enabled)[0] == if preferred in enabled then preferred else enabled[0]
  {
    var first := if preferred in enabled then [preferred] else [];
    AppendStartsWith(first, enabled);
    AppendStartsWith(AppendNew(first, enabled), Defaults(preferred));
  }

  lemma UnsuitableExactlyWhen(package: Reply<PackageBody>, preferred: string)
    ensures CandidatesOf(preferred, package).Unsuitable? <==> OnlyAddsTraffic(package)
  {
    hide Contains, Mentions, Lower, EnabledCycles;
    if package.Got? && package.body.package.Some? {
      var card := package.body.package.value;
      LowerMentions(card.kind, "traffic");
      LowerMentions(card.kind, "full");
      if card.billing.Some? {
        EnabledAreOffered(card.billing.value);
      }
    }
  }

  /** Nothing is tried for a package that only adds traffic; otherwise the first attempt is for the preferred cycle
      where the package offers it or lists nothing, and for the shortest cycle it offers where it does not. */
  lemma FirstAttemptExactlyWhen(creds: Creds, pid: int, billing: string, d: seq<Event>, r: CreateResult)
    requires CreateRun(creds, pid, billing, d, r)
    ensures |d| == 1 <==> OnlyAddsTraffic(d[0].package)
    ensures r.NotForSale? <==> OnlyAddsTraffic(d[0].package)
    ensures |d| > 1 ==> d[1].CreateTried? && d[1].billing == FirstCycle(billing, d[0].package)
  {
    hide Canonical, EnabledCycles, Defaults, Ordered, IsUnsuitable, WasRefusedForBilling, OnlyAddsTraffic, Offers;
    var preferred, package := Canonical(billing), d[0].package;
    UnsuitableExactlyWhen(package, preferred);
    if CandidatesOf(preferred, package).Try? {
      assert d[1] == d[1..][0];
      DefaultsStart(preferred);
      if package.Got? && package.body.package.Some? && package.body.package.value.billing.Some? {
        var cells := package.body.package.value.billing.value;
        EnabledAreOffered(cells);
        if EnabledCycles(cells) != [] {
          OrderedStarts(preferred, EnabledCycles(cells));
        }
      }
    }
  }

  // ---------------------------------------------------------------- the cycles tried after it

  function Months(cycle: string): int {
    if cycle == "month" then 1
    else if cycle == "quater" then 3
    else if cycle == "semiannual" then 6
    else if cycle == "annual" then 12
    else 0
  }

  /** From position `from` on, and leaving the preferred one aside, the cycles get longer. */
  predicate Grows(c: seq<string>, from: nat, preferred: string) {
    forall i, j :: from <= i < j < |c| && c[i] != preferred && c[j] != preferred ==> Months(c[i]) < Months(c[j])
  }

  lemma {:induction false} AppendGrows(out: seq<string>, xs: seq<string>, preferred: string)
    requires Grows(xs, 0, preferred)
    ensures Grows(AppendNew(out, xs), |out|, preferred)
  {
    hide Months;
    if xs != [] {
      var front, last := xs[..|xs| - 1], xs[|xs| - 1];
      AppendGrows(out, front, preferred);
      var r := AppendNew(out, front);
      forall i | |out| <= i < |r| && r[i] != preferred && last != preferred
        ensures Months(r[i]) < Months(last)
      {
        assert r[i] in front;
      }
    }
  }

  lemma CyclesGrow(preferred: string)
    ensures Grows(CYCLES, 0, preferred)
  {
  }

  lemma EnabledGrow(cells: BillingCells, preferred: string)
    ensures Grows(EnabledCycles(cells), 0, preferred)
  {
  }

  lemma DefaultsGrow(preferred: string)
    ensures Grows(Defaults(preferred), 0, preferred)
  {
    hide Months;
    CyclesGrow(preferred);
    AppendGrows(NonEmpty(preferred), CYCLES, preferred);
  }

  lemma OrderedGrows(preferred: string, enabled: seq<string>, i: nat, j: nat)
    requires Distinct(enabled) && (forall b :: b in enabled ==> b in CYCLES) && Grows(enabled, 0, preferred)
    requires i < j < |Ordered(preferred, enabled)|
    ensures var c := Ordered(preferred, enabled);
            && (c[j] in enabled ==> c[i] in enabled)
            && (c[i] != preferred && c[j] != preferred && (c[i] in enabled ==> c[j] in enabled) ==>
                  Months(c[i]) < Months(c[j]))
  {
    hide Months, Defaults;
    var first := if preferred in enabled then [preferred] else [];
    var head := AppendNew(first, enabled);
    OrderedIsGood(preferred, enabled);
    AppendPermutes(first, enabled);
    DefaultsGrow(preferred);
    AppendGrows(first, enabled, preferred);
    AppendGrows(head, Defaults(preferred), preferred);
    var c := Ordered(preferred, enabled);
    assert forall k :: 0 <= k < |head| ==> c[k] == head[k];
  }

  /** What the package lists is tried before what it does not, and, the preferred cycle aside, shorter cycles are
      tried before longer ones. */
  lemma AttemptsInOrder(creds: Creds, pid: int, billing: string, d: seq<Event>, r: CreateResult, i: nat, j: nat)
    requires CreateRun(creds, pid, billing, d, r) && 1 <= i < j < |d|
    ensures d[i].CreateTried? && d[j].CreateTried?
    ensures ListsCycles(d[0].package) ==>
              var cells := d[0].package.body.package.value.billing.value;
              Offers(cells, d[j].billing) ==> Offers(cells, d[i].billing)
    ensures var preferred := Canonical(billing);
            && d[i].billing != preferred && d[j].billing != preferred
            && (ListsCycles(d[0].package) ==>
                  var cells := d[0].package.body.package.value.billing.value;
                  Offers(cells, d[i].billing) ==> Offers(cells, d[j].billing))
            ==> Months(d[i].billing) < Months(d[j].billing)
  {
    hide Canonical, EnabledCycles, Defaults, Ordered, IsUnsuitable, WasRefusedForBilling, Offers, Months;
    var preferred, package := Canonical(billing), d[0].package;
    assert CandidatesOf(preferred, package).Try?;
    assert d[i] == d[1..][i - 1] && d[j] == d[1..][j - 1];
    DefaultsGrow(preferred);
    if package.Got? && package.body.package.Some? && package.body.package.value.billing.Some? {
      var cells := package.body.package.value.billing.value;
      EnabledAreOffered(cells);
      EnabledGrow(cells, preferred);
      if EnabledCycles(cells) != [] {
        OrderedGrows(preferred, EnabledCycles(cells), i - 1, j - 1);
      }
    }
  }

  // ---------------------------------------------------------------- plans

  /** The cycle for a plan of so many days. */
  function CycleFor(planDays: int): string {
    if planDays <= 35 then "month"
    else if planDays <= 100 then "quater"
    else if planDays <= 200 then "semiannual"
    else "annual"
  }

  /** A plan that names its cycle keeps it; the others get one by their days, and the cycle is what the panel is
      asked for first where the package offers it or lists nothing. */
  lemma PlanTriesItsCycle(creds: Creds, pid: int, cycle: string, planDays: int, d: seq<Event>, r: CreateResult)
    requires CreateRun(creds, pid, BillingOf(cycle, planDays), d, r)
    ensures var word := if cycle == "" then Some(CycleFor(planDays)) else PanelWord(cycle);
            && |d| > 1 && word.Some?
            && (ListsCycles(d[0].package) ==> Offers(d[0].package.body.package.value.billing.value, word.value))
            ==> d[1].CreateTried? && d[1].billing == word.value
  {
    hide Canonical, CreateRun, PanelWord, Offers, ListsCycles;
    var billing := BillingOf(cycle, planDays);
    FirstAttemptExactlyWhen(creds, pid, billing, d, r);
    CycleIsSpelled(billing);
    CycleSaysItself(planDays);
    assert PanelWord(billing).Some? ==> Canonical(billing) != "" by {
      NoWordIsEmpty(billing);
    }
  }

  lemma NoWordIsEmpty(billing: string)
    ensures PanelWord(billing) != Some("")
  {
    hide Says;
  }

  lemma CycleSaysItself(planDays: int)
    ensures BillingOf("", planDays) == CycleFor(planDays)
    ensures PanelWord(CycleFor(planDays)) == Some(CycleFor(planDays))
  {
    hide Says, IsWord;
    CyclesAreWords();
    WordSaysItself(CycleFor(planDays));
  }

  // ---------------------------------------------------------------- days

  /** How long the shop takes a cycle to last. */
  function DaysNamed(cycle: string): int {
    if Says(cycle, "quarter") || Says(cycle, "quarterly") then 90
    else if Says(cycle, "semiannual") || Says(cycle, "semi-annual") then 180
    else if Says(cycle, "annual") || Says(cycle, "yearly") then 365
    else if Says(cycle, "week") || Says(cycle, "weekly") then 7
    else 30
  }

  lemma SaysEither(cycle: string, one: string, other: string)
    requires IsWord(one) && IsWord(other)
    ensures Lower(Trim(cycle)) in {one, other} <==> Says(cycle, one) || Says(cycle, other)
  {
    hide Lower, Trim, Says;
    TrimSays(cycle, one);
    TrimSays(cycle, other);
  }

  lemma LongCyclesAreWords()
    ensures IsWord("quarter") && IsWord("quarterly") && IsWord("semiannual") && IsWord("semi-annual")
  {
  }

  lemma OtherCyclesAreWords()
    ensures IsWord("annual") && IsWord("yearly") && IsWord("week") && IsWord("weekly")
  {
  }

  lemma TableSays(cycle: string)
    ensures CycleDays(cycle) == DaysNamed(cycle)
  {
    hide Lower, Trim, Says, IsWord;
    LongCyclesAreWords();
    OtherCyclesAreWords();
    SaysEither(cycle, "quarter", "quarterly");
    SaysEither(cycle, "semiannual", "semi-annual");
    SaysEither(cycle, "annual", "yearly");
    SaysEither(cycle, "week", "weekly");
  }

  /** Everything the table does not know is a month, the panel's own word for three months among it. */
  lemma QuaterIsAMonth(cycle: string)
    requires Says(cycle, "quater")
    ensures CycleDays(cycle) == 30
  {
    hide Lower, Trim, Says, NominalDays;
    TrimSays(cycle, "quater");
    TableMissesQuater(cycle);
  }

  /** The fallback of the enforcement grants the most of one day, the plan's days, and the days of the paid invoice:
      those it states, or else those of its cycle. */
  lemma FallbackIsTheMost(row: Option<InvoiceRow>, planDays: int)
    ensures var days := FallbackDays(row, planDays);
            var invoiced := if row.None? then 1 else if row.value.packageExpire.Some? then row.value.packageExpire.value
                            else DaysNamed(row.value.cycle);
            days >= 1 && days >= planDays && days >= invoiced && days in {1, planDays, invoiced}
  {
    hide CycleDays, DaysNamed;
    if row.Some? {
      TableSays(row.value.cycle);
    }
  }
}

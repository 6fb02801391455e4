/** invoice/create: which billing cycles are tried, in what order, and when the search stops. */
module Billing {
  import opened Text
  import opened Panel

  const CYCLES: seq<string> := ["month", "quater", "semiannual", "annual"]

  /** The API spells the three-month cycle "quater"; some panels crash on "quarter". */
  function Canonical(billing: string): string {
    var b := Lower(Trim(billing));
    if b == "quarter" then "quater" else b
  }

  // ---------------------------------------------------------------- candidate lists

  predicate Distinct(xs: seq<string>) {
    forall i, j :: 0 <= i < j < |xs| ==> xs[i] != xs[j]
  }

  /** xs appended to `out`, leaving out what is already there. */
  function AppendNew(out: seq<string>, xs: seq<string>): (r: seq<string>)
    ensures out <= r
    ensures forall b :: b in r <==> b in out || b in xs
    ensures forall k :: |out| <= k < |r| ==> r[k] in xs && r[k] !in out
    ensures Distinct(out) ==> Distinct(r)
  {
    if xs == [] then out
    else
      var r := AppendNew(out, xs[..|xs| - 1]);
      var last := xs[|xs| - 1];
      assert xs == xs[..|xs| - 1] + [last];
      if last in r then r else r + [last]
  }

  function NonEmpty(preferred: string): seq<string> {
    if preferred == "" then [] else [preferred]
  }

  function Defaults(preferred: string): (d: seq<string>)
    ensures forall b :: b in d <==> b in CYCLES || (b == preferred && b != "")
    ensures Distinct(d)
    ensures preferred != "" ==> d[0] == preferred
  {
    AppendNew(NonEmpty(preferred), CYCLES)
  }

  function EnabledCycles(cells: BillingCells): (e: seq<string>)
    ensures forall b :: b in e ==> b in CYCLES
    ensures Distinct(e)
  {
    (if cells.month then ["month"] else [])
    + (if cells.quater then ["quater"] else [])
    + (if cells.semiannual then ["semiannual"] else [])
    + (if cells.annual then ["annual"] else [])
  }

  function Ordered(preferred: string, enabled: seq<string>): seq<string> {
    var first := if preferred in enabled then [preferred] else [];
    AppendNew(AppendNew(first, enabled), Defaults(preferred))
  }

  /** A traffic top-up package cannot start a service. */
  predicate IsUnsuitable(card: PackageCard) {
    var kind := Lower(card.kind);
    || (Contains(kind, "traffic") && !Contains(kind, "full"))
    || (card.billing.Some? && card.billing.value.topupTraffic && EnabledCycles(card.billing.value) == [])
  }

  datatype Candidates = Unsuitable | Try(billings: seq<string>)

  function CandidatesOf(preferred: string, package: Reply<PackageBody>): Candidates {
    if package.Threw? || package.body.package.None? then Try(Defaults(preferred))
    else
      var card := package.body.package.value;
      if IsUnsuitable(card) then Unsuitable
      else if card.billing.None? || EnabledCycles(card.billing.value) == [] then Try(Defaults(preferred))
      else Try(Ordered(preferred, EnabledCycles(card.billing.value)))
  }

  // ---------------------------------------------------------------- what the order promises

  lemma UnknownPackageIsTried(preferred: string, package: Reply<PackageBody>)
    requires package.Threw?
    ensures CandidatesOf(preferred, package).Try?
  {
  }

  lemma PlainWordIsCanonical(word: string)
    requires word != "" && word != "quarter"
    requires forall k :: 0 <= k < |word| ==> 'a' <= word[k] <= 'z'
    ensures Canonical(word) == word
  {
    PlainWordStays(word);
  }

  lemma TrimmedLowerIsCanonical(billing: string)
    ensures Canonical(Canonical(billing)) == Canonical(billing)
  {
    var b := Lower(Trim(billing));
    if b == "quarter" {
      PlainWordIsCanonical("quater");
    } else {
      TrimLower(Trim(billing));
      TrimIdempotent(billing);
      assert Lower(b) == b;
    }
  }

  lemma CyclesAreCanonical()
    ensures forall b :: b in CYCLES ==> Canonical(b) == b
  {
    hide Canonical;
    PlainWordIsCanonical("month");
    PlainWordIsCanonical("quater");
    PlainWordIsCanonical("semiannual");
    PlainWordIsCanonical("annual");
  }

  /** The order in which cycles are tried when the package lists enabled ones: the same cycles as the
      defaults, each once, the enabled ones first, and the preferred cycle leading its own group. */
  ghost predicate IsGoodOrder(c: seq<string>, preferred: string, enabled: seq<string>) {
    && Distinct(c)
    && (forall b :: b in c <==> b in CYCLES || (b == preferred && b != ""))
    && |enabled| <= |c|
    && (forall k :: 0 <= k < |c| ==> (c[k] in enabled <==> k < |enabled|))
    && (preferred in enabled ==> c[0] == preferred)
    && (preferred !in enabled && preferred != "" ==> |enabled| < |c| && c[|enabled|] == preferred)
  }

  lemma {:induction false} AppendPermutes(first: seq<string>, xs: seq<string>)
    requires Distinct(first) && Distinct(xs) && forall b :: b in first ==> b in xs
    ensures |AppendNew(first, xs)| == |xs|
  {
    var r := AppendNew(first, xs);
    SameSize(r, xs);
    SameSize(xs, r);
  }

  lemma {:induction false} SameSize(a: seq<string>, b: seq<string>)
    requires Distinct(a) && forall x :: x in a ==> x in b
    ensures |a| <= |b|
  {
    if a != [] {
      var last := a[|a| - 1];
      assert last in b;
      var at :| 0 <= at < |b| && b[at] == last;
      var rest := b[..at] + b[at + 1..];
      forall x | x in a[..|a| - 1]
        ensures x in rest
      {
        assert x in a && x in b;
        var k :| 0 <= k < |b| && b[k] == x;
        assert if k < at then rest[k] == x else rest[k - 1] == x;
      }
      SameSize(a[..|a| - 1], rest);
    }
  }

  lemma {:induction false} FirstNewComesNext(out: seq<string>, x: string, xs: seq<string>)
    requires x !in out && xs != [] && xs[0] == x
    ensures |AppendNew(out, xs)| > |out| && AppendNew(out, xs)[|out|] == x
  {
    if |xs| == 1 {
      assert AppendNew(out, xs[..0]) == out;
    } else {
      FirstNewComesNext(out, x, xs[..|xs| - 1]);
    }
  }

  lemma OrderedIsGood(preferred: string, enabled: seq<string>)
    requires Distinct(enabled) && forall b :: b in enabled ==> b in CYCLES
    ensures IsGoodOrder(Ordered(preferred, enabled), preferred, enabled)
  {
    var first := if preferred in enabled then [preferred] else [];
    var head := AppendNew(first, enabled);
    AppendPermutes(first, enabled);
    var c := Ordered(preferred, enabled);
    assert forall k :: 0 <= k < |head| ==> c[k] == head[k] && c[k] in enabled;
    if preferred !in enabled && preferred != "" {
      FirstNewComesNext(head, preferred, Defaults(preferred));
    }
  }

  lemma DefaultsAreGood(preferred: string)
    ensures IsGoodOrder(Defaults(preferred), preferred, [])
  {
  }

  lemma CandidatesAreOrdered(preferred: string, package: Reply<PackageBody>)
    requires CandidatesOf(preferred, package).Try?
    ensures exists enabled :: IsGoodOrder(CandidatesOf(preferred, package).billings, preferred, enabled)
  {
    hide IsGoodOrder, AppendNew;
    if package.Got? && package.body.package.Some? && package.body.package.value.billing.Some?
       && EnabledCycles(package.body.package.value.billing.value) != [] {
      OrderedIsGood(preferred, EnabledCycles(package.body.package.value.billing.value));
    } else {
      DefaultsAreGood(preferred);
    }
  }

  lemma GoodOrderIsSafe(c: seq<string>, preferred: string, enabled: seq<string>)
    requires IsGoodOrder(c, preferred, enabled) && Canonical(preferred) == preferred
    ensures "quarter" !in c && 4 <= |c| <= 5
    ensures forall b :: b in c ==> Canonical(b) == b
  {
    CyclesAreCanonical();
    hide Lower, Trim;
    assert Distinct(CYCLES);
    SameSize(CYCLES, c);
    SameSize(c, [preferred] + CYCLES);
    assert Canonical(preferred) != "quarter";
  }

  /** Whatever package/info answers, the search never tries "quarter", tries every cycle it tries in
      the spelling the API wants, never twice, and has four or five cycles to try. */
  lemma CandidatesAreSafe(billing: string, package: Reply<PackageBody>)
    requires CandidatesOf(Canonical(billing), package).Try?
    ensures var c := CandidatesOf(Canonical(billing), package).billings;
            && Distinct(c) && "quarter" !in c && 4 <= |c| <= 5
            && (forall b :: b in c ==> Canonical(b) == b)
            && exists enabled :: IsGoodOrder(c, Canonical(billing), enabled)
  {
    TrimmedLowerIsCanonical(billing);
    hide Canonical, CandidatesOf;
    var preferred := Canonical(billing);
    CandidatesAreOrdered(preferred, package);
    var c := CandidatesOf(preferred, package).billings;
    var enabled :| IsGoodOrder(c, preferred, enabled);
    GoodOrderIsSafe(c, preferred, enabled);
  }

  // ---------------------------------------------------------------- the source's loops

  method AddMissing(out: seq<string>, xs: seq<string>) returns (r: seq<string>)
    ensures r == AppendNew(out, xs)
  {
    r := out;
    for i := 0 to |xs|
      invariant r == AppendNew(out, xs[..i])
    {
      assert xs[..i + 1][..i] == xs[..i];
      if xs[i] !in r {
        r := r + [xs[i]];
      }
    }
    assert xs[..|xs|] == xs;
  }

  /** resolveInvoiceCreateBillingCandidates. */
  method ResolveCandidates(api: Api, pid: int, preferred: string)
    returns (c: Candidates, package: Reply<PackageBody>)
    requires api.IsFaithful()
    modifies api
    ensures api.IsFaithful() && api.log == old(api.log) + [PackageRead(pid, package)]
    ensures c == CandidatesOf(preferred, package)
  {
    var defaults := AddMissing(NonEmpty(preferred), CYCLES);
    package := api.PackageInfo(pid);
    if package.Threw? || package.body.package.None? {
      return Try(defaults), package;
    }
    var card := package.body.package.value;
    if IsUnsuitable(card) {
      return Unsuitable, package;
    }
    if card.billing.None? {
      return Try(defaults), package;
    }
    var enabled := EnabledCycles(card.billing.value);
    if enabled == [] {
      return Try(defaults), package;
    }
    var out := if preferred in enabled then [preferred] else [];
    out := AddMissing(out, enabled);
    out := AddMissing(out, defaults);
    c := Try(out);
  }

  datatype CreateResult = Replied(body: ApiBody) | CreateThrew | NotForSale

  /** Attempt k was made for candidate k. */
  predicate IsAttempt(e: Event, creds: Creds, pid: int, billing: string) {
    e.CreateTried? && e.creds == creds && e.pid == pid && e.billing == billing
  }

  predicate WasRefusedForBilling(e: Event) {
    e.CreateTried? && e.created.Got? && !ApiOk(e.created.body) && BillingUnavailable(e.created.body.env)
  }

  predicate IsAccepted(e: Event) {
    e.CreateTried? && e.created.Got? && ApiOk(e.created.body)
  }

  /** The attempts for the candidates c, in order: each one but the last was refused because of its
      billing cycle, and the last one was not, unless the candidates ran out. */
  predicate AttemptsRun(creds: Creds, pid: int, c: seq<string>, tries: seq<Event>, r: CreateResult) {
    && 0 < |tries| <= |c|
    && (forall k :: 0 <= k < |tries| ==> IsAttempt(tries[k], creds, pid, c[k]))
    && (forall k :: 0 <= k < |tries| - 1 ==> WasRefusedForBilling(tries[k]))
    && (WasRefusedForBilling(tries[|tries| - 1]) ==> |tries| == |c|)
    && r == match tries[|tries| - 1].created
            case Threw(_) => CreateThrew
            case Got(body) => Replied(body)
  }

  predicate CreateRun(creds: Creds, pid: int, billing: string, d: seq<Event>, r: CreateResult) {
    && d != [] && d[0].PackageRead? && d[0].pid == pid
    && match CandidatesOf(Canonical(billing), d[0].package)
       case Unsuitable => |d| == 1 && r == NotForSale
       case Try(c) => AttemptsRun(creds, pid, c, d[1..], r)
  }

  /** The loop over the candidates. */
  method TryCandidates(api: Api, creds: Creds, pid: int, c: seq<string>)
    returns (r: CreateResult, ghost tries: seq<Event>)
    requires c != [] && forall b :: b in c ==> Canonical(b) == b
    requires api.IsFaithful()
    modifies api
    ensures api.IsFaithful() && api.log == old(api.log) + tries
    ensures AttemptsRun(creds, pid, c, tries, r)
  {
    hide ApiOk, BillingUnavailable, Canonical;
    tries := [];
    var last := ApiBody(Envelope(Some(0), "error", "invoice create: no attempt"), NoId, NoId);
    for k := 0 to |c|
      invariant |tries| == k && api.IsFaithful() && api.log == old(api.log) + tries
      invariant forall j :: 0 <= j < k ==> IsAttempt(tries[j], creds, pid, c[j])
      invariant forall j :: 0 <= j < k ==> WasRefusedForBilling(tries[j])
      invariant k > 0 ==> tries[k - 1].created == Got(last)
    {
      var b := Canonical(c[k]);
      var inv := api.InvoiceCreate(creds, pid, b);
      tries := tries + [CreateTried(creds, pid, b, inv)];
      if inv.Threw? {
        return CreateThrew, tries;
      }
      last := inv.body;
      if ApiOk(inv.body) {
        return Replied(inv.body), tries;
      }
      if !BillingUnavailable(inv.body.env) {
        break;
      }
    }
    r := Replied(last);
  }

  /** invoiceCreateWithBillingFallback. */
  method CreateWithFallback(api: Api, creds: Creds, pid: int, billing: string)
    returns (r: CreateResult, ghost d: seq<Event>)
    requires api.IsFaithful()
    modifies api
    ensures api.IsFaithful() && api.log == old(api.log) + d
    ensures CreateRun(creds, pid, billing, d, r)
  {
    hide Canonical, CandidatesOf, AttemptsRun;
    var candidates, package := ResolveCandidates(api, pid, Canonical(billing));
    d := [PackageRead(pid, package)];
    if candidates.Unsuitable? {
      return NotForSale, d;
    }
    CandidatesAreSafe(billing, package);
    ghost var tries;
    r, tries := TryCandidates(api, creds, pid, candidates.billings);
    assert (d + tries)[1..] == tries;
    d := d + tries;
  }

  // ---------------------------------------------------------------- what the search promises

  /** The search accepts at most one invoice and stops there; everything tried before was refused
      for its billing cycle, no cycle is tried twice, none is spelled "quarter", and the result is
      the last answer. */
  lemma SearchAcceptsAtMostOne(creds: Creds, pid: int, billing: string, d: seq<Event>, r: CreateResult)
    requires CreateRun(creds, pid, billing, d, r)
    ensures |d| <= 6 && forall k :: 0 <= k < |d| - 1 ==> !IsAccepted(d[k])
    ensures forall k :: 1 <= k < |d| - 1 ==> WasRefusedForBilling(d[k])
    ensures forall i, j :: 1 <= i < j < |d| ==> d[i].CreateTried? && d[j].CreateTried? && d[i].billing != d[j].billing
    ensures forall k :: 1 <= k < |d| ==> d[k].CreateTried? && d[k].billing != "quarter"
    ensures r.Replied? && ApiOk(r.body) <==> IsAccepted(d[|d| - 1])
  {
    hide ApiOk, BillingUnavailable, CandidatesOf;
    if CandidatesOf(Canonical(billing), d[0].package).Try? {
      CandidatesAreSafe(billing, d[0].package);
      assert forall k :: 1 <= k < |d| ==> d[k] == d[1..][k - 1];
    }
  }
}

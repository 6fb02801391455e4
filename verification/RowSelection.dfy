/** Choosing a subscription link and a service id from account/info's service list. */
module RowSelection {
  import opened Text
  import opened Panel

  predicate HasLink(row: ServiceRow) {
    row.Row? && !PhpEmpty(row.sublink)
  }

  function SidOf(row: ServiceRow): int {
    if row.Row? && row.sid.Some? then row.sid.value else 0
  }

  predicate OfPackage(row: ServiceRow, pid: int) {
    row.Row? && row.packageId == pid
  }

  predicate HasSid(row: ServiceRow, sid: int) {
    row.Row? && SidOf(row) == sid
  }

  predicate LooksActive(row: ServiceRow) {
    && row.Row?
    && var status := Lower(Trim(row.status));
       && status !in {"inactive", "expired", "cancelled", "canceled", "disabled", "suspended"}
       && status in {"active", "", "activating"}
  }

  function PositiveSid(row: ServiceRow): Option<int> {
    if row.Row? && row.sid.Some? && row.sid.value > 0 then row.sid else None
  }

  predicate IsPreferred(row: ServiceRow, prefer: Option<int>) {
    prefer.Some? && HasSid(row, prefer.value)
  }

  /** The tests the selection loops apply to a row. */
  datatype Test =
    | Linked
    | LinkedPreferred(prefer: Option<int>)
    | LinkedOfPackage(pid: int)
    | LinkedActive
    | Preferred(prefer: Option<int>)
    | LinkedActivePreferred(prefer: Option<int>)
    | LinkedActiveOfPackage(pid: int)
    | ActiveWithSid

  predicate Meets(row: ServiceRow, test: Test) {
    match test
    case Linked => HasLink(row)
    case LinkedPreferred(prefer) => HasLink(row) && IsPreferred(row, prefer)
    case LinkedOfPackage(pid) => HasLink(row) && OfPackage(row, pid)
    case LinkedActive => LooksActive(row) && HasLink(row)
    case Preferred(prefer) => IsPreferred(row, prefer)
    case LinkedActivePreferred(prefer) => IsPreferred(row, prefer) && LooksActive(row) && HasLink(row)
    case LinkedActiveOfPackage(pid) => LooksActive(row) && OfPackage(row, pid) && HasLink(row)
    case ActiveWithSid => LooksActive(row) && row.sid.Some?
  }

  // ---------------------------------------------------------------- list helpers

  function Filter(rows: seq<ServiceRow>, test: Test): (kept: seq<ServiceRow>)
    ensures forall row :: row in kept <==> row in rows && Meets(row, test)
  {
    if rows == [] then []
    else Filter(rows[..|rows| - 1], test) + if Meets(rows[|rows| - 1], test) then [rows[|rows| - 1]] else []
  }

  /** The first row satisfying p. */
  function First(rows: seq<ServiceRow>, test: Test): (r: Option<ServiceRow>)
    ensures r.Some? ==> r.value in rows && Meets(r.value, test)
    ensures r.None? <==> forall row :: row in rows ==> !Meets(row, test)
  {
    if rows == [] then None else if Meets(rows[0], test) then Some(rows[0]) else First(rows[1..], test)
  }

  lemma {:induction false} NarrowerFindsLess(rows: seq<ServiceRow>, narrow: Test, wide: Test)
    requires forall row :: Meets(row, narrow) ==> Meets(row, wide)
    requires Filter(rows, wide) == []
    ensures Filter(rows, narrow) == []
  {
    if rows != [] {
      NarrowerFindsLess(rows[..|rows| - 1], narrow, wide);
    }
  }

  /** A stable sort by descending sid, as `usort` performs it. */
  function SortBySid(rows: seq<ServiceRow>): (sorted: seq<ServiceRow>)
    ensures |sorted| == |rows|
  {
    if rows == [] then [] else InsertBySid(rows[0], SortBySid(rows[1..]))
  }

  function InsertBySid(row: ServiceRow, sorted: seq<ServiceRow>): (r: seq<ServiceRow>)
    ensures |r| == |sorted| + 1
  {
    if sorted == [] || SidOf(row) >= SidOf(sorted[0]) then [row] + sorted
    else [sorted[0]] + InsertBySid(row, sorted[1..])
  }

  /** The row of the greatest sid, the earliest one among equals. */
  function TopBySid(rows: seq<ServiceRow>): (top: ServiceRow)
    requires rows != []
    ensures top in rows
    ensures forall row :: row in rows ==> SidOf(row) <= SidOf(top)
  {
    if |rows| == 1 then rows[0]
    else
      var rest := TopBySid(rows[1..]);
      assert forall row :: row in rows ==> row == rows[0] || row in rows[1..];
      if SidOf(rows[0]) >= SidOf(rest) then rows[0] else rest
  }

  lemma {:induction false} SortHead(rows: seq<ServiceRow>)
    requires rows != []
    ensures SortBySid(rows)[0] == TopBySid(rows)
  {
    if |rows| > 1 {
      SortHead(rows[1..]);
    }
  }

  function Largest(numbers: seq<int>): (n: int)
    requires numbers != []
    ensures n in numbers
    ensures forall m :: m in numbers ==> m <= n
  {
    if |numbers| == 1 then numbers[0]
    else
      var rest := Largest(numbers[1..]);
      assert forall m :: m in numbers ==> m == numbers[0] || m in numbers[1..];
      if numbers[0] >= rest then numbers[0] else rest
  }

  // ---------------------------------------------------------------- what is chosen

  datatype Picked = Picked(link: string, sid: Option<int>)

  function LinkRowsOf(rows: seq<ServiceRow>, pid: int): seq<ServiceRow> {
    Filter(rows, LinkedOfPackage(pid))
  }

  /** Three tiers: the preferred service; the newest service of the package; any active service. */
  function StrictRow(rows: seq<ServiceRow>, pid: int, prefer: Option<int>): (r: Option<ServiceRow>)
    ensures r.Some? ==> r.value in rows && HasLink(r.value)
  {
    var preferred := First(rows, LinkedPreferred(prefer));
    if preferred.Some? then preferred
    else if LinkRowsOf(rows, pid) != [] then Some(TopBySid(LinkRowsOf(rows, pid)))
    else First(rows, LinkedActive)
  }

  function StrictLink(rows: seq<ServiceRow>, pid: int, prefer: Option<int>): (r: Option<string>)
    ensures r.Some? ==> !PhpEmpty(r.value)
  {
    var row := StrictRow(rows, pid, prefer);
    if row.Some? then Some(row.value.sublink) else None
  }

  function RelaxedRow(rows: seq<ServiceRow>, pid: int): (r: Option<ServiceRow>)
    ensures r.Some? ==> r.value in rows && HasLink(r.value)
  {
    if LinkRowsOf(rows, pid) != [] then Some(TopBySid(LinkRowsOf(rows, pid))) else First(rows, Linked)
  }

  function RelaxedPick(rows: seq<ServiceRow>, pid: int): (r: Option<Picked>)
    ensures r.Some? ==> !PhpEmpty(r.value.link)
  {
    var row := RelaxedRow(rows, pid);
    if row.Some? then Some(Picked(row.value.sublink, PositiveSid(row.value))) else None
  }

  function SidCandidates(rows: seq<ServiceRow>, pid: int): (sids: seq<int>)
    ensures forall sid :: sid in sids <==>
      exists row :: row in rows && LooksActive(row) && OfPackage(row, pid) && SidOf(row) == sid && sid > 0
  {
    if rows == [] then []
    else
      var last := rows[|rows| - 1];
      var before := SidCandidates(rows[..|rows| - 1], pid);
      assert rows == rows[..|rows| - 1] + [last];
      before + if LooksActive(last) && OfPackage(last, pid) && SidOf(last) > 0 then [SidOf(last)] else []
  }

  function ChosenSid(rows: seq<ServiceRow>, pid: int, prefer: Option<int>): Option<int> {
    if First(rows, Preferred(prefer)).Some? then prefer
    else if SidCandidates(rows, pid) != [] then Some(Largest(SidCandidates(rows, pid)))
    else
      var active := First(rows, ActiveWithSid);
      if active.Some? then PositiveSid(active.value) else None
  }

  /** The strict rules, and the relaxed ones when those find nothing. */
  function Pick(rows: seq<ServiceRow>, pid: int, prefer: Option<int>): (r: Option<Picked>)
    ensures r.Some? ==> !PhpEmpty(r.value.link)
  {
    var strict := StrictLink(rows, pid, prefer);
    if strict.Some? then Some(Picked(strict.value, ChosenSid(rows, pid, prefer))) else RelaxedPick(rows, pid)
  }

  // ---------------------------------------------------------------- the source's loops

  method FindFirst(rows: seq<ServiceRow>, test: Test) returns (r: Option<ServiceRow>)
    ensures r == First(rows, test)
  {
    for i := 0 to |rows|
      invariant First(rows, test) == First(rows[i..], test)
    {
      if Meets(rows[i], test) {
        return Some(rows[i]);
      }
      assert rows[i..][1..] == rows[i + 1..];
    }
    return None;
  }

  method Collect(rows: seq<ServiceRow>, test: Test) returns (kept: seq<ServiceRow>)
    ensures kept == Filter(rows, test)
  {
    kept := [];
    for i := 0 to |rows|
      invariant kept == Filter(rows[..i], test)
    {
      assert rows[..i + 1][..i] == rows[..i];
      if Meets(rows[i], test) {
        kept := kept + [rows[i]];
      }
    }
    assert rows[..|rows|] == rows;
  }

  /** pickSublinkFromServices with all five of its tiers. The third and the fourth ask for more than
      the first and the second and so never fire: the result is that of the three-tier rule. */
  method PickSublink(rows: seq<ServiceRow>, pid: int, prefer: Option<int>) returns (link: Option<string>)
    ensures link == StrictLink(rows, pid, prefer)
  {
    var preferred := FindFirst(rows, LinkedPreferred(prefer));
    if preferred.Some? {
      return Some(preferred.value.sublink);
    }
    var candidates := Collect(rows, LinkedOfPackage(pid));
    if |candidates| > 0 {
      SortHead(candidates);
      return Some(SortBySid(candidates)[0].sublink);
    }
    var activePreferred := FindFirst(rows, LinkedActivePreferred(prefer));
    if activePreferred.Some? {
      assert false;
    }
    var activeCandidates := Collect(rows, LinkedActiveOfPackage(pid));
    NarrowerFindsLess(rows, LinkedActiveOfPackage(pid), LinkedOfPackage(pid));
    if |activeCandidates| > 0 {
      assert false;
    }
    var active := FindFirst(rows, LinkedActive);
    link := if active.Some? then Some(active.value.sublink) else None;
  }

  /** pickSublinkFromServicesRelaxed. */
  method PickRelaxed(rows: seq<ServiceRow>, pid: int) returns (picked: Option<Picked>)
    ensures picked == RelaxedPick(rows, pid)
  {
    var candidates := Collect(rows, LinkedOfPackage(pid));
    if |candidates| > 0 {
      SortHead(candidates);
      var best := SortBySid(candidates)[0];
      return Some(Picked(best.sublink, PositiveSid(best)));
    }
    var any := FindFirst(rows, Linked);
    if any.Some? {
      return Some(Picked(any.value.sublink, PositiveSid(any.value)));
    }
    return None;
  }

  /** pickSidFromServices. */
  method PickSid(rows: seq<ServiceRow>, pid: int, prefer: Option<int>) returns (sid: Option<int>)
    ensures sid == ChosenSid(rows, pid, prefer)
  {
    var preferred := FindFirst(rows, Preferred(prefer));
    if preferred.Some? {
      return Some(SidOf(preferred.value));
    }
    var candidates: seq<int> := [];
    for i := 0 to |rows|
      invariant candidates == SidCandidates(rows[..i], pid)
    {
      assert rows[..i + 1][..i] == rows[..i];
      if LooksActive(rows[i]) && OfPackage(rows[i], pid) && SidOf(rows[i]) > 0 {
        candidates := candidates + [SidOf(rows[i])];
      }
    }
    assert rows[..|rows|] == rows;
    if |candidates| > 0 {
      return Some(Largest(candidates));
    }
    var active := FindFirst(rows, ActiveWithSid);
    sid := if active.Some? then PositiveSid(active.value) else None;
  }

  // ---------------------------------------------------------------- what the rules promise

  /** Strict and relaxed selection together find a link exactly when some row carries one. */
  lemma PickFindsEveryLink(rows: seq<ServiceRow>, pid: int, prefer: Option<int>)
    ensures Pick(rows, pid, prefer).Some? <==> exists row :: row in rows && HasLink(row)
  {
    if StrictRow(rows, pid, prefer).None? && exists row :: row in rows && HasLink(row) {
      assert RelaxedRow(rows, pid) == First(rows, Linked);
    }
  }

  /** A sid that is handed out is the preferred one, or positive and that of some row. */
  lemma PickedSidIsReal(rows: seq<ServiceRow>, pid: int, prefer: Option<int>)
    ensures var picked := Pick(rows, pid, prefer);
            picked.Some? && picked.value.sid.Some? && picked.value.sid != prefer ==>
              picked.value.sid.value > 0 && exists row :: row in rows && row.Row? && row.sid == picked.value.sid
  {
    var picked := Pick(rows, pid, prefer);
    if StrictLink(rows, pid, prefer).Some? {
      if First(rows, Preferred(prefer)).None? && SidCandidates(rows, pid) != [] {
        var sid := Largest(SidCandidates(rows, pid));
        var row :| row in rows && LooksActive(row) && OfPackage(row, pid) && SidOf(row) == sid && sid > 0;
        assert row.sid == Some(sid);
      }
    }
  }

  /** When the strict rules fail, every linked row is inactive and of another package, and the
      relaxed rules hand out the first of them together with its own sid. */
  lemma RelaxedIsLastResort(rows: seq<ServiceRow>, pid: int, prefer: Option<int>)
    requires StrictLink(rows, pid, prefer).None? && Pick(rows, pid, prefer).Some?
    ensures forall row :: row in rows && HasLink(row) ==> !LooksActive(row) && !OfPackage(row, pid)
    ensures exists row ::
              && row in rows && HasLink(row)
              && Pick(rows, pid, prefer).value == Picked(row.sublink, PositiveSid(row))
  {
    assert LinkRowsOf(rows, pid) == [];
    forall row | row in rows && HasLink(row)
      ensures !LooksActive(row) && !OfPackage(row, pid)
    {
      assert !Meets(row, LinkedOfPackage(pid)) && !Meets(row, LinkedActive);
    }
    var row := RelaxedRow(rows, pid).value;
    assert row in rows && HasLink(row);
  }

  predicate DistinctSids(rows: seq<ServiceRow>) {
    forall i, j :: 0 <= i < j < |rows| && rows[i].Row? && rows[j].Row? && rows[i].sid.Some? && rows[j].sid.Some?
      ==> rows[i].sid != rows[j].sid
  }

  /** A later service of the package, already active but still without a link. */
  predicate OutrankedByLinkless(rows: seq<ServiceRow>, pid: int, sid: int) {
    exists row :: row in rows && LooksActive(row) && OfPackage(row, pid) && !HasLink(row) && SidOf(row) > sid
  }

  lemma SidNamesRow(rows: seq<ServiceRow>, a: ServiceRow, b: ServiceRow)
    requires DistinctSids(rows) && a in rows && b in rows
    requires SidOf(a) == SidOf(b) > 0
    ensures a == b
  {
    var i :| 0 <= i < |rows| && rows[i] == a;
    var j :| 0 <= j < |rows| && rows[j] == b;
  }

  lemma ChosenComesFromActiveRow(rows: seq<ServiceRow>, pid: int) returns (row: ServiceRow)
    requires ChosenSid(rows, pid, None).Some?
    ensures row in rows && LooksActive(row) && SidOf(row) == ChosenSid(rows, pid, None).value
  {
    var sids := SidCandidates(rows, pid);
    if sids != [] {
      var most := Largest(sids);
      row :| row in rows && LooksActive(row) && OfPackage(row, pid) && SidOf(row) == most && most > 0;
    } else {
      row := First(rows, ActiveWithSid).value;
    }
  }

  /** The chosen sid is at least that of every active row of the package. */
  lemma ChosenIsNewest(rows: seq<ServiceRow>, pid: int, row: ServiceRow)
    requires row in rows && LooksActive(row) && OfPackage(row, pid) && SidOf(row) > 0
    ensures ChosenSid(rows, pid, None).Some? && ChosenSid(rows, pid, None).value >= SidOf(row)
    ensures exists best :: best in rows && LooksActive(best) && OfPackage(best, pid)
                           && ChosenSid(rows, pid, None) == Some(SidOf(best))
  {
    var sids := SidCandidates(rows, pid);
    assert SidOf(row) in sids;
    var most := Largest(sids);
    var best :| best in rows && LooksActive(best) && OfPackage(best, pid) && SidOf(best) == most && most > 0;
  }

  lemma PickOnPackage(rows: seq<ServiceRow>, pid: int)
    requires LinkRowsOf(rows, pid) != []
    ensures Pick(rows, pid, None)
            == Some(Picked(TopBySid(LinkRowsOf(rows, pid)).sublink, ChosenSid(rows, pid, None)))
  {
    hide ChosenSid, TopBySid, Filter;
  }

  /** With no preferred service the two picks agree on the newest linked row of the package exactly when that
      row is active and no newer active row of the package is still waiting for its link. */
  lemma NewestAgrees(rows: seq<ServiceRow>, pid: int)
    requires DistinctSids(rows)
    requires LinkRowsOf(rows, pid) != []
    requires forall row :: row in rows && OfPackage(row, pid) ==> SidOf(row) > 0
    ensures var top := TopBySid(LinkRowsOf(rows, pid));
            && Pick(rows, pid, None).Some? && Pick(rows, pid, None).value.link == top.sublink
            && (Pick(rows, pid, None).value.sid == Some(SidOf(top))
                <==> LooksActive(top) && !OutrankedByLinkless(rows, pid, SidOf(top)))
  {
    hide ChosenSid, StrictRow, RelaxedRow, TopBySid, Filter;
    var top := TopBySid(LinkRowsOf(rows, pid));
    assert top in rows && OfPackage(top, pid);
    PickOnPackage(rows, pid);
    if ChosenSid(rows, pid, None) == Some(SidOf(top)) {
      var row := ChosenComesFromActiveRow(rows, pid);
      SidNamesRow(rows, row, top);
      forall other | other in rows && LooksActive(other) && OfPackage(other, pid)
        ensures SidOf(other) <= SidOf(top)
      {
        ChosenIsNewest(rows, pid, other);
      }
    } else if LooksActive(top) {
      ChosenIsNewest(rows, pid, top);
      var best :| best in rows && LooksActive(best) && OfPackage(best, pid)
                  && ChosenSid(rows, pid, None) == Some(SidOf(best));
      assert best !in LinkRowsOf(rows, pid);
    }
  }

  predicate IsListed(rows: seq<ServiceRow>, prefer: Option<int>) {
    exists row :: row in rows && IsPreferred(row, prefer)
  }

  predicate IsListedWithLink(rows: seq<ServiceRow>, prefer: Option<int>) {
    exists row :: row in rows && IsPreferred(row, prefer) && HasLink(row)
  }

  predicate HasActiveOfPackage(rows: seq<ServiceRow>, pid: int) {
    exists row :: row in rows && LooksActive(row) && OfPackage(row, pid)
  }

  /** The services carry ids, and different ones. */
  predicate HasGoodSids(rows: seq<ServiceRow>) {
    DistinctSids(rows) && forall row :: row in rows && row.Row? ==> SidOf(row) > 0
  }

  /** When the sid recorded with the link of `row` is that row's: where the preferred service is listed, it has
      a link; else, where the package has a linked row, the newest of these is active and no newer active one
      waits for its link; else no row of the package is active and the first active row has a link. */
  predicate Agrees(rows: seq<ServiceRow>, pid: int, prefer: Option<int>, row: ServiceRow) {
    if IsListed(rows, prefer) then IsListedWithLink(rows, prefer)
    else if LinkRowsOf(rows, pid) != [] then LooksActive(row) && !OutrankedByLinkless(rows, pid, SidOf(row))
    else !HasActiveOfPackage(rows, pid) && First(rows, ActiveWithSid) == Some(row)
  }

  lemma UnlistedIsNone(rows: seq<ServiceRow>, pid: int, prefer: Option<int>)
    requires !IsListed(rows, prefer)
    ensures StrictRow(rows, pid, prefer) == StrictRow(rows, pid, None)
    ensures ChosenSid(rows, pid, prefer) == ChosenSid(rows, pid, None)
  {
    hide TopBySid, Filter, SidCandidates, HasLink;
  }

  lemma ListedDecides(rows: seq<ServiceRow>, pid: int, prefer: Option<int>)
    requires HasGoodSids(rows) && IsListed(rows, prefer) && StrictRow(rows, pid, prefer).Some?
    ensures var row := StrictRow(rows, pid, prefer).value;
            ChosenSid(rows, pid, prefer) == Some(SidOf(row)) <==> IsListedWithLink(rows, prefer)
  {
    hide TopBySid, Filter, SidCandidates, DistinctSids;
    var row := StrictRow(rows, pid, prefer).value;
    assert ChosenSid(rows, pid, prefer) == prefer;
    if SidOf(row) == prefer.value {
      assert row in rows && IsPreferred(row, prefer) && HasLink(row);
    }
    if IsListedWithLink(rows, prefer) {
      assert First(rows, LinkedPreferred(prefer)).Some?;
    }
  }

  /** A service of another package is outranked by any active one of the package. */
  lemma OwnPackageWins(rows: seq<ServiceRow>, pid: int, row: ServiceRow)
    requires HasGoodSids(rows) && row in rows && row.Row? && !OfPackage(row, pid) && HasActiveOfPackage(rows, pid)
    ensures ChosenSid(rows, pid, None) != Some(SidOf(row))
  {
    hide ChosenSid, DistinctSids, LooksActive;
    var other :| other in rows && LooksActive(other) && OfPackage(other, pid);
    ChosenIsNewest(rows, pid, other);
    var best :| best in rows && LooksActive(best) && OfPackage(best, pid)
                && ChosenSid(rows, pid, None) == Some(SidOf(best));
    if SidOf(best) == SidOf(row) {
      SidNamesRow(rows, best, row);
    }
  }

  lemma FirstActiveIsChosen(rows: seq<ServiceRow>, pid: int, row: ServiceRow)
    requires HasGoodSids(rows) && row in rows && row.Row? && !HasActiveOfPackage(rows, pid)
    ensures ChosenSid(rows, pid, None) == Some(SidOf(row)) <==> First(rows, ActiveWithSid) == Some(row)
  {
    hide Largest, LooksActive, DistinctSids;
    assert forall sid :: sid !in SidCandidates(rows, pid);
    var first := First(rows, ActiveWithSid);
    if first.Some? && SidOf(first.value) == SidOf(row) {
      SidNamesRow(rows, first.value, row);
    }
  }

  lemma ForeignDecides(rows: seq<ServiceRow>, pid: int)
    requires HasGoodSids(rows) && LinkRowsOf(rows, pid) == [] && StrictRow(rows, pid, None).Some?
    ensures var row := StrictRow(rows, pid, None).value;
            ChosenSid(rows, pid, None) == Some(SidOf(row))
            <==> !HasActiveOfPackage(rows, pid) && First(rows, ActiveWithSid) == Some(row)
  {
    hide ChosenSid, HasGoodSids, LooksActive, HasActiveOfPackage, TopBySid;
    var row := StrictRow(rows, pid, None).value;
    assert row in rows && row.Row? && row !in LinkRowsOf(rows, pid);
    if HasActiveOfPackage(rows, pid) {
      OwnPackageWins(rows, pid, row);
    } else {
      FirstActiveIsChosen(rows, pid, row);
    }
  }

  /** Link selection ignores activity and sid selection ignores links. For every list and every preference,
      where the strict rules find a link, the sid recorded with it is that of the same row under exactly the
      condition above. */
  lemma LinkAndSidAgree(rows: seq<ServiceRow>, pid: int, prefer: Option<int>)
    requires HasGoodSids(rows) && StrictRow(rows, pid, prefer).Some?
    ensures var row := StrictRow(rows, pid, prefer).value;
            && Pick(rows, pid, prefer).Some? && Pick(rows, pid, prefer).value.link == row.sublink
            && (Pick(rows, pid, prefer).value.sid == Some(SidOf(row)) <==> Agrees(rows, pid, prefer, row))
  {
    hide ChosenSid, TopBySid, Filter, DistinctSids, IsListed, IsListedWithLink, HasActiveOfPackage;
    hide OutrankedByLinkless;
    if IsListed(rows, prefer) {
      ListedDecides(rows, pid, prefer);
    } else {
      UnlistedIsNone(rows, pid, prefer);
      NothingPreferred(rows);
      if LinkRowsOf(rows, pid) != [] {
        NewestAgrees(rows, pid);
      } else {
        ForeignDecides(rows, pid);
      }
    }
  }

  lemma NothingPreferred(rows: seq<ServiceRow>)
    ensures First(rows, LinkedPreferred(None)).None?
  {
  }

  /** The case the shop hopes for: every row of the package is active and linked. */
  lemma AllLiveRowsAgree(rows: seq<ServiceRow>, pid: int)
    requires DistinctSids(rows)
    requires exists row :: row in rows && OfPackage(row, pid)
    requires forall row :: row in rows && OfPackage(row, pid) ==> LooksActive(row) && HasLink(row) && SidOf(row) > 0
    ensures exists row ::
              && row in rows && OfPackage(row, pid)
              && Pick(rows, pid, None) == Some(Picked(row.sublink, Some(SidOf(row))))
  {
    var some :| some in rows && OfPackage(some, pid);
    assert some in LinkRowsOf(rows, pid);
    NewestAgrees(rows, pid);
    var top := TopBySid(LinkRowsOf(rows, pid));
    assert top in rows && OfPackage(top, pid);
  }

  /** With a preferred service the two always agree once that service has its link. */
  lemma PreferredAgrees(rows: seq<ServiceRow>, pid: int, sid: int)
    requires exists row :: row in rows && HasLink(row) && HasSid(row, sid)
    ensures exists row ::
              && row in rows && HasLink(row) && HasSid(row, sid)
              && Pick(rows, pid, Some(sid)) == Some(Picked(row.sublink, Some(sid)))
  {
    var row := First(rows, LinkedPreferred(Some(sid)));
    assert row.Some? && HasSid(row.value, sid);
    assert First(rows, Preferred(Some(sid))).Some?;
  }

  /** A preferred service that is listed without a link gets the link of another one under its own sid, and so
      does every renewal, which prefers the service it renews. */
  lemma AnotherLinkUnderThisSid(rows: seq<ServiceRow>, pid: int, sid: int)
    requires HasGoodSids(rows) && IsListed(rows, Some(sid)) && !IsListedWithLink(rows, Some(sid))
    requires StrictRow(rows, pid, Some(sid)).Some?
    ensures exists row ::
              && row in rows && HasLink(row) && SidOf(row) != sid
              && Pick(rows, pid, Some(sid)) == Some(Picked(row.sublink, Some(sid)))
  {
    hide TopBySid, Filter, SidCandidates, DistinctSids;
    ListedDecides(rows, pid, Some(sid));
    var row := StrictRow(rows, pid, Some(sid)).value;
    assert row in rows && HasLink(row) && SidOf(row) != sid;
  }

  /** Two active services of one package; the renewed one, number 2, still waits for its link. */
  lemma RenewalTakesOtherLink()
    ensures var rows := [Row("old", Some(1), 7, "Active"), Row("", Some(2), 7, "Active")];
            Pick(rows, 7, Some(2)) == Some(Picked("old", Some(2)))
  {
    hide LooksActive, TopBySid;
    var other, renewed := Row("old", Some(1), 7, "Active"), Row("", Some(2), 7, "Active");
    var rows := [other, renewed];
    assert renewed in rows && IsPreferred(renewed, Some(2));
    assert !IsListedWithLink(rows, Some(2));
    assert Meets(other, LinkedOfPackage(7)) && other in LinkRowsOf(rows, 7);
    AnotherLinkUnderThisSid(rows, 7, 2);
  }

  /** An expired service with a link and a newer active one without: the customer gets the old
      link recorded under the new sid. */
  lemma LinkAndSidMayDiffer()
    ensures var rows := [Row("old", Some(1), 7, "Expired"), Row("", Some(2), 7, "Active")];
            Pick(rows, 7, None) == Some(Picked("old", Some(2)))
  {
    var expired, waiting := Row("old", Some(1), 7, "Expired"), Row("", Some(2), 7, "Active");
    assert Lower(Trim("Active")) == "active";
    WaitingOutranks(expired, waiting, 7);
  }

  lemma WaitingOutranks(expired: ServiceRow, waiting: ServiceRow, pid: int)
    requires OfPackage(expired, pid) && HasLink(expired) && OfPackage(waiting, pid) && !HasLink(waiting)
    requires LooksActive(waiting) && 0 < SidOf(expired) < SidOf(waiting)
    ensures Pick([expired, waiting], pid, None) == Some(Picked(expired.sublink, Some(SidOf(waiting))))
  {
    hide ChosenSid, StrictRow, RelaxedPick, TopBySid, Filter, LooksActive;
    var rows := [expired, waiting];
    ChosenIsNewest(rows, pid, waiting);
    assert expired in LinkRowsOf(rows, pid);
    PickOnPackage(rows, pid);
    assert TopBySid(LinkRowsOf(rows, pid)) in rows;
  }
}

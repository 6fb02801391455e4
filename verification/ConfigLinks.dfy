/** Connection links: written at purchase, read back at renewal. */
module ConfigLinks {
  import opened Panel

  // ---------------------------------------------------------------- vless links

  predicate IsHex(c: char) {
    '0' <= c <= '9' || 'a' <= c <= 'f' || 'A' <= c <= 'F'
  }

  /** The text form of a UUID, section 4 of RFC 9562, in either case. */
  predicate IsUuid(t: string) {
    && |t| == 36
    && forall k :: 0 <= k < 36 ==> if k in {8, 13, 18, 23} then t[k] == '-' else IsHex(t[k])
  }

  /** The characters a UUID is written with. */
  lemma HexIsOneOf(c: char)
    ensures IsHex(c) <==> c in "0123456789abcdef" || c in "ABCDEF"
  {
  }

  predicate UuidAt(s: string, i: nat) {
    i + 36 <= |s| && IsUuid(s[i..i + 36])
  }

  /** `preg_match` with the UUID pattern: the leftmost match from `i` on. */
  function FindUuid(s: string, i: nat): (r: Option<string>)
    decreases |s| - i
    ensures r.Some? ==> IsUuid(r.value)
  {
    if i + 36 > |s| then None else if UuidAt(s, i) then Some(s[i..i + 36]) else FindUuid(s, i + 1)
  }

  function VlessLink(uuid: string, rest: string): string {
    "vless://" + uuid + "@" + rest
  }

  lemma {:induction false} FirstUuid(s: string, i: nat, k: nat)
    requires i <= k && UuidAt(s, k)
    requires forall j :: i <= j < k ==> !UuidAt(s, j)
    ensures FindUuid(s, i) == Some(s[k..k + 36])
    decreases k - i
  {
    if i < k {
      FirstUuid(s, i + 1, k);
    }
  }

  /** No UUID can begin within "vless://": it would have to run over the second slash. */
  lemma NoUuidInScheme(s: string, j: nat)
    requires |s| > 7 && s[7] == '/' && j < 8
    ensures !UuidAt(s, j)
  {
    if j + 36 <= |s| {
      assert s[j..j + 36][7 - j] == s[7];
    }
  }

  /** The client's UUID is read back from every link written for it, whatever host, port, parameters
      and remark follow, and even if they contain further UUIDs. */
  lemma VlessRoundTrip(uuid: string, rest: string)
    requires IsUuid(uuid)
    ensures FindUuid(VlessLink(uuid, rest), 0) == Some(uuid)
  {
    var s := VlessLink(uuid, rest);
    assert s[7] == '/';
    assert s[8..44] == uuid;
    forall j | 0 <= j < 8
      ensures !UuidAt(s, j)
    {
      NoUuidInScheme(s, j);
    }
    FirstUuid(s, 0, 8);
  }

  // ---------------------------------------------------------------- subscription links

  predicate IsAlnum(c: char) {
    '0' <= c <= '9' || 'a' <= c <= 'z' || 'A' <= c <= 'Z'
  }

  lemma AlnumIsOneOf(c: char)
    ensures IsAlnum(c) <==> c in "0123456789" || c in "abcdefghijklmnopqrstuvwxyz" || c in "ABCDEFGHIJKLMNOPQRSTUVWXYZ"
  {
  }

  predicate IsSubId(t: string) {
    t != "" && forall k :: 0 <= k < |t| ==> IsAlnum(t[k])
  }

  predicate SubAt(s: string, i: nat) {
    i + 5 < |s| && s[i..i + 5] == "/sub/" && IsAlnum(s[i + 5])
  }

  /** The longest run of letters and digits at the start. */
  function Run(s: string): (r: string)
    ensures r <= s && forall k :: 0 <= k < |r| ==> IsAlnum(r[k])
  {
    if s == "" || !IsAlnum(s[0]) then "" else [s[0]] + Run(s[1..])
  }

  /** `preg_match` with the `/sub/` pattern: the leftmost match from `i` on. */
  function FindSub(s: string, i: nat): (r: Option<string>)
    decreases |s| - i
    ensures r.Some? ==> IsSubId(r.value)
  {
    if i + 5 >= |s| then None
    else if SubAt(s, i) then
      assert s[i + 5..][0] == s[i + 5];
      Some(Run(s[i + 5..]))
    else FindSub(s, i + 1)
  }

  function SubLink(base: string, subId: string): string {
    base + "/sub/" + subId
  }

  lemma {:induction false} FirstSub(s: string, i: nat, k: nat)
    requires i <= k && SubAt(s, k)
    requires forall j :: i <= j < k ==> !SubAt(s, j)
    ensures FindSub(s, i) == Some(Run(s[k + 5..]))
    decreases k - i
  {
    if i < k {
      FirstSub(s, i + 1, k);
    }
  }

  lemma {:induction false} RunOfSubId(t: string, after: string)
    requires forall k :: 0 <= k < |t| ==> IsAlnum(t[k])
    requires after == "" || !IsAlnum(after[0])
    ensures Run(t + after) == t
  {
    if t == "" {
      assert t + after == after;
    } else {
      assert (t + after)[1..] == t[1..] + after;
      RunOfSubId(t[1..], after);
    }
  }

  /** Where a link to this base matches before its own `/sub/`: at a `/sub/` path within the base, or
      at a `/sub` that ends it. */
  predicate MatchesEarly(base: string, j: nat) {
    SubAt(base, j) || (j + 4 == |base| && base[j..] == "/sub")
  }

  predicate IsCleanBase(base: string) {
    forall j: nat :: j < |base| ==> !MatchesEarly(base, j)
  }

  lemma EarlyMatches(base: string, subId: string, j: nat)
    requires j < |base| && IsSubId(subId)
    ensures SubAt(SubLink(base, subId), j) <==> MatchesEarly(base, j)
  {
    var s := SubLink(base, subId);
    var n := |base|;
    assert s[n] == '/' && s[n + 1] == 's';
    if j + 5 < n {
      assert s[j..j + 5] == base[j..j + 5] && s[j + 5] == base[j + 5];
    } else if j + 5 == n {
      assert s[j + 5] == '/';
    } else if j + 4 == n {
      assert s[j..j + 5] == base[j..] + "/";
      assert "/sub/" == "/sub" + "/";
      assert base[j..] == "/sub" <==> s[j..j + 5] == "/sub/" by {
        if s[j..j + 5] == "/sub/" {
          assert base[j..] == s[j..j + 5][..4];
        }
      }
    } else {
      // The link's own slash would have to be one of the letters of "sub".
      assert s[j..j + 5][n - j] == '/';
      assert "/sub/"[n - j] != '/';
    }
  }

  lemma CleanBaseReadsBack(base: string, subId: string)
    requires IsCleanBase(base) && IsSubId(subId)
    ensures FindSub(SubLink(base, subId), 0) == Some(subId)
  {
    var s := SubLink(base, subId);
    var n := |base|;
    forall j | 0 <= j < n
      ensures !SubAt(s, j)
    {
      EarlyMatches(base, subId, j);
    }
    assert s[n..n + 5] == "/sub/" && s[n + 5..] == subId && s[n + 5] == subId[0];
    FirstSub(s, 0, n);
    RunOfSubId(subId, "");
    assert subId + "" == subId;
  }

  /** What an early match at k captures: it ends with the base at the latest. */
  function CapturedAt(base: string, k: nat): string
    requires k < |base| && MatchesEarly(base, k)
  {
    if SubAt(base, k) then Run(base[k + 5..]) else "sub"
  }

  lemma EarlyCapture(base: string, k: nat, subId: string)
    requires k < |base| && MatchesEarly(base, k) && IsSubId(subId)
    requires forall j: nat :: j < k ==> !MatchesEarly(base, j)
    ensures FindSub(SubLink(base, subId), 0) == Some(CapturedAt(base, k))
  {
    hide MatchesEarly, Run, IsAlnum;
    var s := SubLink(base, subId);
    forall j: nat | j <= k
      ensures SubAt(s, j) <==> MatchesEarly(base, j)
    {
      EarlyMatches(base, subId, j);
    }
    FirstSub(s, 0, k);
    CaptureEndsInBase(base, k, subId);
  }

  lemma CaptureEndsInBase(base: string, k: nat, subId: string)
    requires k < |base| && MatchesEarly(base, k)
    ensures Run(SubLink(base, subId)[k + 5..]) == CapturedAt(base, k)
  {
    var s := SubLink(base, subId);
    if SubAt(base, k) {
      assert s[k + 5..] == base[k + 5..] + ("/sub/" + subId);
      RunStopsAtSlash(base[k + 5..], "/sub/" + subId);
    } else {
      assert s[k + 5..] == "sub" + ("/" + subId);
      RunOfSubId("sub", "/" + subId);
    }
  }

  /** The first match of an unclean base lies before the link's own, so what is read back does not
      depend on the id. */
  lemma UncleanBaseCaptures(base: string) returns (captured: string)
    requires !IsCleanBase(base)
    ensures forall subId :: IsSubId(subId) ==> FindSub(SubLink(base, subId), 0) == Some(captured)
  {
    hide MatchesEarly, IsSubId, FindSub, SubLink;
    var k: nat :| k < |base| && MatchesEarly(base, k);
    k := LeastMatch(base, k);
    captured := CapturedAt(base, k);
    forall subId | IsSubId(subId)
      ensures FindSub(SubLink(base, subId), 0) == Some(captured)
    {
      EarlyCapture(base, k, subId);
    }
  }

  lemma {:induction false} RunStopsAtSlash(t: string, after: string)
    requires after == "" || !IsAlnum(after[0])
    ensures Run(t + after) == Run(t)
  {
    if t == "" {
      assert t + after == after;
    } else {
      assert (t + after)[1..] == t[1..] + after;
      RunStopsAtSlash(t[1..], after);
    }
  }

  lemma {:induction false} LeastMatch(base: string, k: nat) returns (least: nat)
    requires k < |base| && MatchesEarly(base, k)
    ensures least < |base| && MatchesEarly(base, least)
    ensures forall j: nat :: j < least ==> !MatchesEarly(base, j)
    decreases k
  {
    if j: nat :| j < k && MatchesEarly(base, j) {
      least := LeastMatch(base, j);
    } else {
      least := k;
    }
  }

  /** Every subscription id is read back from its link exactly when the configured base contains no
      `/sub/` path of its own and does not end in `/sub`. */
  lemma SubRoundTripExactlyWhen(base: string)
    ensures (forall subId :: IsSubId(subId) ==> FindSub(SubLink(base, subId), 0) == Some(subId))
            <==> IsCleanBase(base)
  {
    if IsCleanBase(base) {
      forall subId | IsSubId(subId)
        ensures FindSub(SubLink(base, subId), 0) == Some(subId)
      {
        CleanBaseReadsBack(base, subId);
      }
    } else {
      var captured := UncleanBaseCaptures(base);
      assert IsSubId("a") && IsSubId("b");
      assert FindSub(SubLink(base, "a"), 0) == Some(captured);
      assert FindSub(SubLink(base, "b"), 0) == Some(captured);
    }
  }

  lemma MatchHasSlashes(s: string, j: nat)
    requires SubAt(s, j)
    ensures s[j] == '/' && s[j + 1] == 's'
  {
    assert s[j..j + 5][0] == s[j] && s[j..j + 5][1] == s[j + 1];
  }

  /** A base configured as ".../sub" makes every id read back as "sub". */
  lemma BaseEndingInSub(subId: string)
    requires IsSubId(subId)
    ensures FindSub(SubLink("https://x/sub", subId), 0) == Some("sub")
  {
    var s := SubLink("https://x/sub", subId);
    assert s[9..14] == "/sub/" && s[9..] == "/sub" + ("/sub/" + subId);
    forall j | 0 <= j < 9
      ensures !SubAt(s, j)
    {
      if SubAt(s, j) {
        MatchHasSlashes(s, j);
      }
    }
    FirstSub(s, 0, 9);
    assert s[14..] == "sub" + ("/" + subId);
    RunOfSubId("sub", "/" + subId);
  }
}

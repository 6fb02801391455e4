/** The few PHP string operations the shop's decisions rest on. */
module Text {

  /** `strtolower` on one character: ASCII letters only, as in PHP 8. */
  function LowerChar(c: char): char {
    if 'A' <= c <= 'Z' then (c as int + 32) as char else c
  }

  function Lower(s: string): (t: string)
    ensures |t| == |s|
    ensures forall i :: 0 <= i < |s| ==> t[i] == LowerChar(s[i])
  {
    seq(|s|, i requires 0 <= i < |s| => LowerChar(s[i]))
  }

  /** The characters `trim` strips. */
  predicate IsBlank(c: char) {
    c == ' ' || c == '\t' || c == '\n' || c == '\r' || c == '\0' || c == '\U{0B}'
  }

  function TrimLeft(s: string): (t: string)
    ensures t == "" || !IsBlank(t[0])
    ensures s != "" && !IsBlank(s[0]) ==> t == s
  {
    if s == "" || !IsBlank(s[0]) then s else TrimLeft(s[1..])
  }

  function TrimRight(s: string): (t: string)
    ensures t <= s
    ensures t == "" || !IsBlank(t[|t| - 1])
    ensures s != "" && !IsBlank(s[|s| - 1]) ==> t == s
  {
    if s == "" || !IsBlank(s[|s| - 1]) then s else TrimRight(s[..|s| - 1])
  }

  function Trim(s: string): string {
    TrimRight(TrimLeft(s))
  }

  /** `empty()` on a string: "0" counts as empty. */
  predicate PhpEmpty(s: string) {
    s == "" || s == "0"
  }

  predicate StartsWith(s: string, needle: string) {
    |needle| <= |s| && s[..|needle|] == needle
  }

  /** `str_contains`. */
  predicate Contains(s: string, needle: string) {
    StartsWith(s, needle) || (s != "" && Contains(s[1..], needle))
  }

  predicate ContainsAny(s: string, needles: seq<string>) {
    exists k :: 0 <= k < |needles| && Contains(s, needles[k])
  }

  lemma TrimIdempotent(s: string)
    ensures Trim(Trim(s)) == Trim(s)
  {
    var l := TrimLeft(s);
    var t := TrimRight(l);
    if t != "" {
      assert t[0] == l[0];
    }
  }

  lemma {:induction false} TrimLeftLower(s: string)
    ensures TrimLeft(Lower(s)) == Lower(TrimLeft(s))
  {
    if s != "" && IsBlank(s[0]) {
      TrimLeftLower(s[1..]);
      assert Lower(s)[1..] == Lower(s[1..]);
    }
  }

  lemma {:induction false} TrimRightLower(s: string)
    ensures TrimRight(Lower(s)) == Lower(TrimRight(s))
  {
    if s != "" && IsBlank(s[|s| - 1]) {
      TrimRightLower(s[..|s| - 1]);
      assert Lower(s)[..|s| - 1] == Lower(s[..|s| - 1]);
    }
  }

  lemma TrimLower(s: string)
    ensures Trim(Lower(s)) == Lower(Trim(s))
  {
    TrimLeftLower(s);
    TrimRightLower(TrimLeft(s));
  }

  lemma LowerCaseStays(s: string)
    requires forall k :: 0 <= k < |s| ==> !('A' <= s[k] <= 'Z')
    ensures Lower(s) == s
  {
  }

  /** A word of small letters is neither trimmed nor changed in case. */
  lemma PlainWordStays(word: string)
    requires word != "" && forall k :: 0 <= k < |word| ==> 'a' <= word[k] <= 'z'
    ensures Lower(Trim(word)) == word
  {
    assert !IsBlank(word[0]) && !IsBlank(word[|word| - 1]);
    assert Trim(word) == word && Lower(word) == word;
  }

  lemma {:induction false} ContainsAt(s: string, needle: string, at: nat)
    requires at + |needle| <= |s|
    requires s[at..at + |needle|] == needle
    ensures Contains(s, needle)
  {
    if at > 0 {
      assert s[1..][at - 1..at - 1 + |needle|] == s[at..at + |needle|];
      ContainsAt(s[1..], needle, at - 1);
    }
  }

  /** Where a needle sits in a string, when it is contained in it. */
  lemma {:induction false} WhereContained(s: string, needle: string) returns (at: nat)
    requires Contains(s, needle)
    ensures at + |needle| <= |s|
    ensures forall k :: 0 <= k < |needle| ==> s[at + k] == needle[k]
  {
    if StartsWith(s, needle) {
      at := 0;
      assert forall k :: 0 <= k < |needle| ==> s[..|needle|][k] == needle[k];
    } else {
      var later := WhereContained(s[1..], needle);
      at := later + 1;
      assert forall k :: 0 <= k < |needle| ==> s[1..][later + k] == needle[k];
    }
  }

  /** Two neighbouring characters of a contained needle are neighbours in the string. */
  lemma NeighboursAppear(s: string, needle: string, k: nat) returns (i: nat)
    requires Contains(s, needle) && k + 1 < |needle|
    ensures i + 1 < |s| && s[i] == needle[k] && s[i + 1] == needle[k + 1]
  {
    var at := WhereContained(s, needle);
    i := at + k;
    assert s[at + (k + 1)] == needle[k + 1];
  }

  lemma NoPairNoNeedle(s: string, needle: string, k: nat)
    requires k + 1 < |needle|
    requires forall i, j :: 0 <= i && j == i + 1 < |s| ==> s[i] != needle[k] || s[j] != needle[k + 1]
    ensures !Contains(s, needle)
  {
    if Contains(s, needle) {
      var i := NeighboursAppear(s, needle, k);
    }
  }
}

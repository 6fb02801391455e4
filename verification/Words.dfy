/** Reading words in a text, letter by letter and in any case. */
module Words {
  import opened Text

  /** `small` or, where that is a small letter, its capital. */
  predicate IsLetter(c: char, small: char) {
    c == small || ('a' <= small <= 'z' && c as int + 32 == small as int)
  }

  /** The word stands at position i, in any case. */
  predicate ReadsAt(s: string, i: int, word: string) {
    0 <= i <= |s| - |word| && forall k :: 0 <= k < |word| ==> IsLetter(s[i + k], word[k])
  }

  /** s is the word, in any case. */
  predicate Reads(s: string, word: string) {
    |s| == |word| && ReadsAt(s, 0, word)
  }

  predicate Begins(s: string, word: string) {
    ReadsAt(s, 0, word)
  }

  predicate Mentions(s: string, word: string) {
    exists i :: 0 <= i <= |s| && ReadsAt(s, i, word)
  }

  predicate HasNoCapital(word: string) {
    forall k :: 0 <= k < |word| ==> !('A' <= word[k] <= 'Z')
  }

  lemma LowerReadsAt(s: string, i: int, word: string)
    requires HasNoCapital(word) && 0 <= i <= |s| - |word|
    ensures Lower(s)[i..i + |word|] == word <==> ReadsAt(s, i, word)
  {
    var part := Lower(s)[i..i + |word|];
    assert forall k :: 0 <= k < |word| ==> part[k] == LowerChar(s[i + k]);
    if part == word {
      assert forall k :: 0 <= k < |word| ==> LowerChar(s[i + k]) == word[k];
    }
  }

  lemma LowerReads(s: string, word: string)
    requires HasNoCapital(word)
    ensures Lower(s) == word <==> Reads(s, word)
  {
    if |s| == |word| {
      LowerReadsAt(s, 0, word);
      assert Lower(s)[0..0 + |word|] == Lower(s);
    }
  }

  lemma LowerBegins(s: string, word: string)
    requires HasNoCapital(word)
    ensures StartsWith(Lower(s), word) <==> Begins(s, word)
  {
    if |word| <= |s| {
      LowerReadsAt(s, 0, word);
      assert Lower(s)[0..0 + |word|] == Lower(s)[..|word|];
    }
  }

  lemma LowerMentions(s: string, word: string)
    requires HasNoCapital(word)
    ensures Contains(Lower(s), word) <==> Mentions(s, word)
  {
    hide Contains, ReadsAt;
    if Contains(Lower(s), word) {
      var i := WhereContained(Lower(s), word);
      assert Lower(s)[i..i + |word|] == word;
      LowerReadsAt(s, i, word);
    }
    if Mentions(s, word) {
      var i :| ReadsAt(s, i, word);
      assert 0 <= i <= |s| - |word| by { PlaceOf(s, i, word); }
      LowerReadsAt(s, i, word);
      ContainsAt(Lower(s), word, i);
    }
  }

  lemma PlaceOf(s: string, i: int, word: string)
    requires ReadsAt(s, i, word)
    ensures 0 <= i <= |s| - |word|
  {
  }

  // ---------------------------------------------------------------- blanks around a word

  predicate IsSpace(c: char) {
    c in {' ', '\t', '\n', '\r', '\0', '\U{0B}'}
  }

  predicate SpacesBetween(s: string, i: int, j: int) {
    0 <= i <= j <= |s| && forall k :: i <= k < j ==> IsSpace(s[k])
  }

  /** s is t with nothing but blanks before and after it, and t neither begins nor ends with one. */
  predicate IsCore(s: string, i: int, t: string) {
    && 0 <= i <= |s| - |t| && s[i..i + |t|] == t
    && SpacesBetween(s, 0, i) && SpacesBetween(s, i + |t|, |s|)
    && (t != "" ==> !IsSpace(t[0]) && !IsSpace(t[|t| - 1]))
  }

  lemma TrimIsCore(s: string) returns (i: nat)
    ensures IsCore(s, i, Trim(s))
  {
    i := LeftIsBlank(s);
    var l := TrimLeft(s);
    RightIsBlank(l);
    var t := TrimRight(l);
    assert forall k :: 0 <= k < |l| ==> s[i + k] == l[k];
    assert s[i..i + |t|] == t;
  }

  lemma {:induction false} LeftIsBlank(s: string) returns (n: nat)
    ensures n <= |s| && s[n..] == TrimLeft(s) && SpacesBetween(s, 0, n)
  {
    if s == "" || !IsBlank(s[0]) {
      n := 0;
    } else {
      var m := LeftIsBlank(s[1..]);
      n := m + 1;
      assert forall k :: 1 <= k < n ==> s[k] == s[1..][k - 1];
    }
  }

  lemma {:induction false} RightIsBlank(s: string)
    ensures SpacesBetween(s, |TrimRight(s)|, |s|)
  {
    if s != "" && IsBlank(s[|s| - 1]) {
      var front := s[..|s| - 1];
      RightIsBlank(front);
      assert forall k :: 0 <= k < |front| ==> s[k] == front[k];
    }
  }

  /** Small letters, digits and signs, and no blank among them. */
  predicate IsWord(word: string) {
    HasNoCapital(word) && forall k :: 0 <= k < |word| ==> !IsSpace(word[k])
  }

  lemma LettersAreNoSpace(s: string, i: int, word: string)
    requires ReadsAt(s, i, word) && IsWord(word)
    ensures forall k :: i <= k < i + |word| ==> !IsSpace(s[k])
  {
    forall k | i <= k < i + |word|
      ensures !IsSpace(s[k])
    {
      assert IsLetter(s[i + (k - i)], word[k - i]);
    }
  }

  /** A word is found in a text exactly when it is found in the trimmed text. */
  lemma TrimMentions(s: string, word: string)
    requires word != "" && IsWord(word)
    ensures Mentions(Trim(s), word) <==> Mentions(s, word)
  {
    var b := TrimIsCore(s);
    var t := Trim(s);
    assert forall k :: 0 <= k < |t| ==> t[k] == s[b + k];
    if Mentions(t, word) {
      var i :| 0 <= i <= |t| && ReadsAt(t, i, word);
      ShiftedRead(s, b, t, b + i, word);
    }
    if Mentions(s, word) {
      var i :| 0 <= i <= |s| && ReadsAt(s, i, word);
      LettersAreNoSpace(s, i, word);
      assert !IsSpace(s[i]) && !IsSpace(s[i + |word| - 1]);
      ShiftedRead(s, b, t, i, word);
    }
  }

  lemma ShiftedRead(s: string, b: int, t: string, i: int, word: string)
    requires 0 <= b <= |s| - |t| && s[b..b + |t|] == t && b <= i && i + |word| <= b + |t|
    ensures ReadsAt(t, i - b, word) <==> ReadsAt(s, i, word)
  {
    var from := i - b;
    forall k {:trigger word[k]} | 0 <= k < |word|
      ensures t[from + k] == s[i + k]
    {
      assert s[b..b + |t|][from + k] == s[b + (from + k)];
    }
  }

  /** The word stands alone in the text, in any case and with blanks around it. */
  predicate Says(s: string, word: string) {
    exists i :: 0 <= i <= |s| && SaysAt(s, i, word)
  }

  predicate SaysAt(s: string, i: int, word: string) {
    ReadsAt(s, i, word) && SpacesBetween(s, 0, i) && SpacesBetween(s, i + |word|, |s|)
  }

  lemma TrimSays(s: string, word: string)
    requires IsWord(word)
    ensures Lower(Trim(s)) == word <==> Says(s, word)
  {
    var b := TrimIsCore(s);
    var t := Trim(s);
    LowerReads(t, word);
    if Reads(t, word) {
      ShiftedRead(s, b, t, b, word);
      assert SaysAt(s, b, word);
    }
    if Says(s, word) {
      var i :| 0 <= i <= |s| && SaysAt(s, i, word);
      CoreIsUnique(s, i, b, t, word);
      ShiftedRead(s, b, t, b, word);
    }
  }

  lemma CoreIsUnique(s: string, i: int, b: int, t: string, word: string)
    requires SaysAt(s, i, word) && IsWord(word) && IsCore(s, b, t)
    ensures |t| == |word| && (t != "" ==> i == b)
  {
    LettersAreNoSpace(s, i, word);
    if t != "" {
      assert s[b..b + |t|][0] == s[b] && s[b..b + |t|][|t| - 1] == s[b + |t| - 1];
    }
    if word != "" {
      assert !IsSpace(s[i]) && !IsSpace(s[i + |word| - 1]);
    }
  }
}

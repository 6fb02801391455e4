/** TelegramMarkdownV2::escape: nineteen global replacements, one after the other. */
module MarkdownEscape {

  const SPECIALS := "_*[]()~`>#+-=|{}.!"

  /** `str_replace` of one character by a backslash and itself. */
  function Replace(s: string, c: char): string {
    if s == "" then "" else (if s[0] == c then ['\\', c] else [s[0]]) + Replace(s[1..], c)
  }

  /** `str_replace` with a list works through it from left to right, on the whole text each time. */
  function ReplaceEach(s: string, chars: string): string {
    if chars == "" then s else Replace(ReplaceEach(s, chars[..|chars| - 1]), chars[|chars| - 1])
  }

  function Escape(text: string): string {
    ReplaceEach(Replace(text, '\\'), SPECIALS)
  }

  /** What a reader expects: one pass that puts a backslash before every character of `marked`. */
  function MarkAll(s: string, marked: string): string {
    if s == "" then "" else (if s[0] in marked then ['\\', s[0]] else [s[0]]) + MarkAll(s[1..], marked)
  }

  /** Removing one level of escaping. */
  function Unescape(s: string): string {
    if s == "" then ""
    else if s[0] == '\\' && |s| > 1 then [s[1]] + Unescape(s[2..])
    else [s[0]] + Unescape(s[1..])
  }

  lemma {:induction false} ReplaceConcat(a: string, b: string, c: char)
    ensures Replace(a + b, c) == Replace(a, c) + Replace(b, c)
  {
    if a == "" {
      assert a + b == b;
    } else {
      assert (a + b)[1..] == a[1..] + b;
      ReplaceConcat(a[1..], b, c);
    }
  }

  /** One more replacement marks one more character and touches none of the backslashes already put. */
  lemma {:induction false} ReplaceMarksOneMore(s: string, marked: string, c: char)
    requires c != '\\' && c !in marked
    ensures Replace(MarkAll(s, marked), c) == MarkAll(s, marked + [c])
  {
    if s != "" {
      var head := if s[0] in marked then ['\\', s[0]] else [s[0]];
      ReplaceConcat(head, MarkAll(s[1..], marked), c);
      ReplaceMarksOneMore(s[1..], marked, c);
      assert Replace(head, c) == if s[0] == c then ['\\', c] else head by {
        assert head[1..] == [] || (head[1..] == [s[0]] && [s[0]][1..] == []);
      }
    }
  }

  lemma {:induction false} ReplaceEachMarks(s: string, marked: string, chars: string)
    requires '\\' !in chars
    requires forall k :: 0 <= k < |chars| ==> chars[k] !in marked && chars[k] !in chars[..k]
    ensures ReplaceEach(MarkAll(s, marked), chars) == MarkAll(s, marked + chars)
  {
    if chars == "" {
      assert marked + chars == marked;
    } else {
      var front, last := chars[..|chars| - 1], chars[|chars| - 1];
      assert forall k :: 0 <= k < |front| ==> front[k] == chars[k] && front[..k] == chars[..k];
      ReplaceEachMarks(s, marked, front);
      assert last !in marked + front;
      ReplaceMarksOneMore(s, marked + front, last);
      assert marked + front + [last] == marked + chars;
    }
  }

  lemma {:induction false} BackslashPass(s: string)
    ensures Replace(s, '\\') == MarkAll(s, "\\")
  {
    if s != "" {
      BackslashPass(s[1..]);
    }
  }

  lemma SpecialsAreDistinct()
    ensures '\\' !in SPECIALS
    ensures forall k :: 0 <= k < |SPECIALS| ==> SPECIALS[k] !in "\\" && SPECIALS[k] !in SPECIALS[..k]
  {
  }

  /** The nineteen passes are one: no pass disturbs what an earlier one has written. */
  lemma EscapeIsOnePass(text: string)
    ensures Escape(text) == MarkAll(text, "\\" + SPECIALS)
  {
    BackslashPass(text);
    SpecialsAreDistinct();
    ReplaceEachMarks(text, "\\", SPECIALS);
  }

  /** The characters MarkdownV2 reserves, and the backslash itself. */
  const RESERVED: set<char> := {
    '_', '*', '[', ']', '(', ')', '~', '`', '>', '#', '+', '-', '=', '|', '{', '}', '.', '!', '\\'}

  /** Every reserved character stands behind a backslash, and a backslash behind no other. */
  predicate IsGuarded(s: string) {
    s == "" || if s[0] == '\\' then |s| > 1 && s[1] in RESERVED && IsGuarded(s[2..])
               else s[0] !in RESERVED && IsGuarded(s[1..])
  }

  lemma {:induction false} MarkedIsGuarded(s: string, marked: string)
    requires forall c :: c in marked <==> c in RESERVED
    ensures IsGuarded(MarkAll(s, marked))
  {
    if s != "" {
      MarkedIsGuarded(s[1..], marked);
      var rest := MarkAll(s[1..], marked);
      if s[0] in marked {
        assert MarkAll(s, marked)[2..] == rest;
      } else {
        assert MarkAll(s, marked)[1..] == rest;
      }
    }
  }

  lemma SpecialsAreReserved()
    ensures forall c :: c in "\\" + SPECIALS <==> c in RESERVED
  {
    var all := "\\" + SPECIALS;
    forall c
      ensures c in all <==> c in RESERVED
    {
      assert c in all <==> c == '\\' || c in SPECIALS;
    }
  }

  /** Whatever the text, Telegram finds no reserved character that is not escaped, and no escape it does not know. */
  lemma EscapeIsGuarded(text: string)
    ensures IsGuarded(Escape(text))
  {
    EscapeIsOnePass(text);
    SpecialsAreReserved();
    MarkedIsGuarded(text, "\\" + SPECIALS);
  }

  lemma {:induction false} UnmarkMarked(s: string, marked: string)
    requires '\\' in marked
    ensures Unescape(MarkAll(s, marked)) == s
  {
    if s != "" {
      UnmarkMarked(s[1..], marked);
      var rest := MarkAll(s[1..], marked);
      if s[0] in marked {
        assert MarkAll(s, marked)[2..] == rest;
      } else {
        assert MarkAll(s, marked)[1..] == rest;
      }
    }
  }

  /** Escaping loses nothing: reading the escaped text gives the text back, on all strings. */
  lemma EscapeRoundTrip(text: string)
    ensures Unescape(Escape(text)) == text
  {
    EscapeIsOnePass(text);
    UnmarkMarked(text, "\\" + SPECIALS);
  }

  lemma EscapeIsInjective(a: string, b: string)
    requires Escape(a) == Escape(b)
    ensures a == b
  {
    EscapeRoundTrip(a);
    EscapeRoundTrip(b);
  }

  /** The order matters once: were the backslashes doubled last, an underscore would come back with a
      backslash in front. */
  lemma BackslashesMustComeFirst()
    ensures Unescape(Replace(ReplaceEach("_", SPECIALS), '\\')) == "\\_"
  {
    var s := "_";
    SpecialsAreDistinct();
    ReplaceEachMarks(s, "", SPECIALS);
    assert MarkAll(s, "") == s;
    assert "" + SPECIALS == SPECIALS;
    assert s[0] == SPECIALS[0];
    assert ReplaceEach(s, SPECIALS) == "\\_";
    var t := "\\_";
    assert t[1..] == s && Replace(s, '\\') == s;
    assert Replace(t, '\\') == "\\\\_";
    assert "\\\\_"[2..] == s && Unescape(s) == s;
  }
}

/** The name a customer gave a service, and what panel updates make of it. */
module ServiceLabel {
  import opened Text
  import opened Panel

  /** The two columns the name is read from; '' stands for null. */
  datatype Named = Named(name: string, username: string)

  /** The columns of an update, where they are set. */
  datatype Patch = Patch(name: Option<string>, username: Option<string>)

  /** A username that can serve as a name: not blank, and not the panel's e-mail address. */
  predicate IsUsable(username: string) {
    Trim(username) != "" && '@' !in Trim(username)
  }

  function DefaultName(idText: string): string {
    "سرویس-" + idText
  }

  /** Orders without any name are still told apart. */
  lemma DefaultNamesDiffer(one: string, other: string)
    ensures DefaultName(one) == DefaultName(other) <==> one == other
  {
    var n := |DefaultName("")|;
    assert DefaultName(one)[n..] == one && DefaultName(other)[n..] == other;
  }

  /** serviceDisplayLabel. */
  function Display(order: Named, idText: string): string {
    if Trim(order.name) != "" then Trim(order.name)
    else if IsUsable(order.username) then Trim(order.username)
    else DefaultName(idText)
  }

  /** mergePreserveServiceLabel. */
  function Merge(order: Named, patch: Patch): Patch {
    if patch.username.None? || '@' !in patch.username.value then patch
    else if (patch.name.Some? && !PhpEmpty(patch.name.value)) || !PhpEmpty(order.name) then patch
    else if IsUsable(order.username) then patch.(name := Some(Trim(order.username)))
    else patch
  }

  function Updated(order: Named, patch: Patch): Named {
    Named(if patch.name.Some? then patch.name.value else order.name,
          if patch.username.Some? then patch.username.value else order.username)
  }

  /** The panel's e-mail address becomes the username; the handlers merge twice. */
  function Renamed(order: Named, email: string): Named {
    Updated(order, Merge(order, Merge(order, Patch(None, Some(email)))))
  }

  lemma MergeIsIdempotent(order: Named, patch: Patch)
    ensures Merge(order, Merge(order, patch)) == Merge(order, patch)
  {
  }

  lemma TrimKeepsAt(s: string)
    ensures '@' in s ==> '@' in Trim(s)
  {
    TrimLeftKeepsAt(s);
    TrimRightKeepsAt(TrimLeft(s));
  }

  lemma {:induction false} TrimLeftKeepsAt(s: string)
    ensures '@' in s ==> '@' in TrimLeft(s)
  {
    if s != "" && IsBlank(s[0]) {
      assert s == [s[0]] + s[1..];
      TrimLeftKeepsAt(s[1..]);
    }
  }

  lemma {:induction false} TrimRightKeepsAt(s: string)
    ensures '@' in s ==> '@' in TrimRight(s)
  {
    if s != "" && IsBlank(s[|s| - 1]) {
      assert s == s[..|s| - 1] + [s[|s| - 1]];
      TrimRightKeepsAt(s[..|s| - 1]);
    }
  }

  lemma TrimOfEmptyish()
    ensures Trim("0") == "0" && Trim("") == ""
  {
  }

  /** The names that get lost: a label "0", and a label of nothing but blanks, each beside a usable
      username. The merge takes the first for empty and the second for a name; the display does the
      opposite. */
  predicate LosesName(order: Named, idText: string) {
    && IsUsable(order.username)
    && (|| (order.name == "0" && Trim(order.username) != "0")
        || (order.name != "" && Trim(order.name) == "" && Trim(order.username) != DefaultName(idText)))
  }

  /** One panel update keeps the displayed name exactly when the order is not one of these. */
  lemma NameSurvivesExactlyWhen(order: Named, email: string, idText: string)
    requires '@' in email
    ensures Display(Renamed(order, email), idText) == Display(order, idText) <==> !LosesName(order, idText)
    ensures !IsUsable(Renamed(order, email).username)
  {
    hide Trim;
    MergeIsIdempotent(order, Patch(None, Some(email)));
    TrimKeepsAt(email);
    TrimIdempotent(order.username);
    TrimOfEmptyish();
  }

  function RenamedBy(order: Named, emails: seq<string>): Named {
    if emails == [] then order else Renamed(RenamedBy(order, emails[..|emails| - 1]), emails[|emails| - 1])
  }

  /** Only the first update can cost a name; over any number of them the displayed name is kept exactly
      when that one keeps it. */
  lemma {:induction false} NameSurvivesManyUpdates(order: Named, emails: seq<string>, idText: string)
    requires emails != [] && forall k :: 0 <= k < |emails| ==> '@' in emails[k]
    ensures Display(RenamedBy(order, emails), idText) == Display(order, idText) <==> !LosesName(order, idText)
    ensures !IsUsable(RenamedBy(order, emails).username)
  {
    hide Display, LosesName, Renamed;
    var front, last := emails[..|emails| - 1], emails[|emails| - 1];
    if front == [] {
      assert RenamedBy(order, front) == order;
      NameSurvivesExactlyWhen(order, last, idText);
    } else {
      assert forall k :: 0 <= k < |front| ==> front[k] == emails[k];
      NameSurvivesManyUpdates(order, front, idText);
      NameSurvivesExactlyWhen(RenamedBy(order, front), last, idText);
      NothingLeftToLose(RenamedBy(order, front), idText);
    }
  }

  lemma NothingLeftToLose(order: Named, idText: string)
    requires !IsUsable(order.username)
    ensures !LosesName(order, idText)
  {
  }

  // ---------------------------------------------------------------- renewals

  /** A settled renewal: the patch is merged with the renewal order first and with the renewed one
      then, and written to the latter. */
  function RenewedName(original: Named, renewal: Named, email: string): Named {
    Updated(original, Merge(original, Merge(renewal, Patch(None, Some(email)))))
  }

  /** A renewal order with a username of its own and no label passes that username on. */
  predicate Donates(renewal: Named) {
    PhpEmpty(renewal.name) && IsUsable(renewal.username)
  }

  /** A renewal order without a name of its own leaves the renewed service its name, with the same
      exceptions as before; one that has a usable username and no label of its own puts that username in its
      place, whether or not the renewed service has a label. */
  lemma RenewalKeepsName(original: Named, renewal: Named, email: string, idText: string)
    requires '@' in email
    ensures !Donates(renewal) ==>
              (Display(RenewedName(original, renewal, email), idText) == Display(original, idText)
               <==> !LosesName(original, idText))
    ensures Donates(renewal) && Trim(renewal.username) != "0" ==>
              Display(RenewedName(original, renewal, email), idText) == Trim(renewal.username)
  {
    hide Trim;
    NameSurvivesExactlyWhen(original, email, idText);
    MergeIsIdempotent(original, Patch(None, Some(email)));
    TrimIdempotent(renewal.username);
    TrimOfEmptyish();
  }
}

/** Finding, recovering or replacing a user's panel credentials. */
module Credentials {
  import opened Text
  import opened Numbers
  import opened Panel
  import opened Tally

  const ALTERNATE_ATTEMPTS := 8

  type Secret = s: string | |s| == 16 witness "0123456789abcdef"

  /** Settings, and the shop's own randomness: a password and an address suffix for every moment. */
  datatype Env = Env(
    domain: string, sendCode: bool, secret: nat -> Secret, suffix: nat -> string,
    autoGateway: Option<int>, invoiceDbSync: bool, mysqlDirect: bool, gatewayPicker: bool)

  /** What the shop reads as the password: the cast value, or what the raw column can be turned into. */
  function Rehydrated(password: string, recoverable: string): string {
    if Trim(password) == "" && recoverable != "" then recoverable else password
  }

  /** A user row and the object the shop works on. `password` is what the cast yields ('' when unreadable)
      and `recoverable` what the raw column can still be turned into ('' when nothing); `unset` says that the
      column is NULL, and `stale` that the object still takes it for NULL although another identity was saved
      through a copy. */
  class User {
    const idText: string
    var email: string
    var password: string
    var recoverable: string
    var unset: bool
    var stale: bool

    constructor (idText: string, email: string, password: string, recoverable: string, unset: bool)
      ensures this.idText == idText && this.email == email && this.unset == unset && !stale
      ensures this.password == password && this.recoverable == recoverable
    {
      this.idText := idText;
      this.email, this.password, this.recoverable := email, password, recoverable;
      this.unset, this.stale := unset, false;
    }

    predicate Holds(creds: Creds)
      reads this
    {
      email == creds.email && Rehydrated(password, recoverable) == creds.password && email != "" && creds.password != ""
    }

    predicate IsCleared()
      reads this
    {
      email == "" && password == "" && recoverable == ""
    }

    method Save(creds: Creds)
      modifies this
      ensures email == creds.email && password == creds.password && recoverable == creds.password
      ensures creds.email != "" && creds.password != "" ==> Holds(creds)
      ensures !unset && !stale
    {
      email, password, recoverable := creds.email, creds.password, creds.password;
      unset, stale := false, false;
    }

    /** The row is written through a copy; this object keeps what it knew of the password column. */
    method SaveOnCopy(creds: Creds)
      modifies this
      ensures email == creds.email && password == creds.password && recoverable == creds.password
      ensures creds.email != "" && creds.password != "" ==> Holds(creds)
      ensures !unset && stale == old(unset)
    {
      stale := unset;
      email, password, recoverable, unset := creds.email, creds.password, creds.password, false;
    }

    /** Forgets the credentials and reads the row anew. Only columns this object takes for changed are
        written, so a stale one leaves the password where it is. */
    method Clear()
      modifies this
      ensures email == "" && !stale && unset == !old(stale)
      ensures if old(stale) then password == old(password) && recoverable == old(recoverable) else IsCleared()
    {
      email, unset := "", !stale;
      if !stale {
        password, recoverable := "", "";
      }
      stale := false;
    }
  }

  /** What the shop has stored of a user. */
  datatype Stored = Stored(idText: string, email: string, password: string, unset: bool)

  function StoredOf(user: User): Stored
    reads user
  {
    Stored(user.idText, user.email, Rehydrated(user.password, user.recoverable), user.unset)
  }

  /** An address and a password for it. */
  predicate IsComplete(stored: Stored) {
    stored.email != "" && stored.password != ""
  }

  /** An address whose password column is NULL. */
  predicate IsMissing(stored: Stored) {
    stored.email != "" && stored.password == "" && stored.unset
  }

  function Cleared(stored: Stored): Stored {
    Stored(stored.idText, "", "", true)
  }

  lemma RehydratedTwice(password: string, recoverable: string)
    ensures Rehydrated(Rehydrated(password, recoverable), recoverable) == Rehydrated(password, recoverable)
    ensures Rehydrated(password, password) == password
    ensures Rehydrated("", "") == ""
  {
  }

  /** resolveXmplusClientPassword, which reads the row anew; '' where the source gives null. */
  method ResolvePassword(user: User) returns (password: string)
    modifies user
    ensures password == user.password == old(StoredOf(user)).password
    ensures StoredOf(user) == old(StoredOf(user)) && !user.stale && user.email == old(user.email)
    ensures user.recoverable == old(user.recoverable)
    ensures old(user.IsCleared()) ==> user.IsCleared()
  {
    RehydratedTwice(user.password, user.recoverable);
    user.password, user.stale := Rehydrated(user.password, user.recoverable), false;
    password := user.password;
  }

  function StripAt(domain: string): string {
    if domain != "" && domain[0] == '@' then StripAt(domain[1..]) else domain
  }

  function MainEmail(idText: string, env: Env): string {
    "tg" + idText + "@" + StripAt(Trim(env.domain))
  }

  function AlternateEmail(idText: string, suffix: string, env: Env): string {
    "tg" + idText + "." + suffix + "@" + StripAt(Trim(env.domain))
  }

  /** What is left of the domain setting without the '@' signs in front. */
  ghost predicate IsHost(host: string, env: Env) {
    && (host == "" || host[0] != '@')
    && exists n :: 0 <= n <= |Trim(env.domain)| && Trim(env.domain)[n..] == host && AllAt(Trim(env.domain)[..n])
  }

  predicate AllAt(signs: string) {
    forall k :: 0 <= k < |signs| ==> signs[k] == '@'
  }

  /** The standing address of a user, and any other the shop would make up for the same user. */
  ghost predicate IsMain(email: string, idText: string, env: Env) {
    exists host :: IsHost(host, env) && email == "tg" + idText + "@" + host
  }

  ghost predicate IsAlternate(email: string, idText: string, env: Env) {
    exists host, suffix :: IsHost(host, env) && email == "tg" + idText + "." + suffix + "@" + host
  }

  ghost predicate IsOwnAddress(email: string, idText: string, env: Env) {
    IsMain(email, idText, env) || IsAlternate(email, idText, env)
  }

  predicate IsNumber(idText: string) {
    idText != "" && forall k :: 0 <= k < |idText| ==> '0' <= idText[k] <= '9'
  }

  /** Every registration tried is of an address of the user's, with a password of sixteen characters. */
  ghost predicate RegistersAs(d: seq<Event>, idText: string, env: Env) {
    forall k :: 0 <= k < |d| && d[k].RegisterTried? ==>
      IsOwnAddress(d[k].creds.email, idText, env) && |d[k].creds.password| == 16
  }

  ghost predicate RegistersAlternates(d: seq<Event>, idText: string, env: Env) {
    forall k :: 0 <= k < |d| && d[k].RegisterTried? ==>
      IsAlternate(d[k].creds.email, idText, env) && |d[k].creds.password| == 16
  }

  lemma {:induction false} SignsInFront(domain: string) returns (n: nat)
    ensures n <= |domain| && domain[n..] == StripAt(domain) && AllAt(domain[..n])
    ensures StripAt(domain) == "" || StripAt(domain)[0] != '@'
  {
    if domain == "" || domain[0] != '@' {
      n := 0;
    } else {
      var m := SignsInFront(domain[1..]);
      n := m + 1;
      assert domain[..n] == ['@'] + domain[1..][..m];
    }
  }

  lemma AddressesAreOwn(idText: string, suffix: string, env: Env)
    ensures IsMain(MainEmail(idText, env), idText, env)
    ensures IsAlternate(AlternateEmail(idText, suffix, env), idText, env)
  {
    var n := SignsInFront(Trim(env.domain));
    var host := StripAt(Trim(env.domain));
    assert IsHost(host, env);
  }

  lemma ReadId(email: string, idText: string, rest: string)
    requires email == "tg" + idText + rest && rest != ""
    ensures |email| > |idText| + 2 && email[2..|idText| + 2] == idText && email[|idText| + 2] == rest[0]
  {
  }

  lemma SignOfMain(email: string, idText: string, env: Env)
    requires IsMain(email, idText, env)
    ensures |email| > |idText| + 2 && email[2..|idText| + 2] == idText && email[|idText| + 2] == '@'
  {
    var host :| IsHost(host, env) && email == "tg" + idText + "@" + host;
    assert email == "tg" + idText + ("@" + host);
    ReadId(email, idText, "@" + host);
  }

  lemma SignOfAlternate(email: string, idText: string, env: Env)
    requires IsAlternate(email, idText, env)
    ensures |email| > |idText| + 2 && email[2..|idText| + 2] == idText && email[|idText| + 2] == '.'
  {
    var host, suffix :| IsHost(host, env) && email == "tg" + idText + "." + suffix + "@" + host;
    var rest := "." + (suffix + "@" + host);
    assert email == "tg" + idText + rest;
    ReadId(email, idText, rest);
  }

  /** The sign after the id tells the two kinds of address apart. */
  lemma SignAfterId(email: string, idText: string, env: Env)
    requires IsOwnAddress(email, idText, env)
    ensures |email| > |idText| + 2 && email[2..|idText| + 2] == idText
    ensures email[|idText| + 2] == if IsMain(email, idText, env) then '@' else '.'
    ensures IsAlternate(email, idText, env) ==> email[|idText| + 2] == '.'
  {
    hide IsMain, IsAlternate;
    if IsMain(email, idText, env) {
      SignOfMain(email, idText, env);
    }
    if IsAlternate(email, idText, env) {
      SignOfAlternate(email, idText, env);
    }
  }

  lemma DigitsOf(email: string, idText: string)
    requires |email| > |idText| + 2 && email[2..|idText| + 2] == idText && IsNumber(idText)
    ensures forall i :: 2 <= i < |idText| + 2 ==> '0' <= email[i] <= '9'
  {
    forall i | 2 <= i < |idText| + 2
      ensures '0' <= email[i] <= '9'
    {
      assert email[i] == idText[i - 2];
    }
  }

  /** No two users of a shop share an address, and an alternate address is never the standing one. */
  lemma AddressesDiffer(email: string, one: string, other: string, env: Env)
    requires IsNumber(one) && IsNumber(other)
    requires IsOwnAddress(email, one, env) && IsOwnAddress(email, other, env)
    ensures one == other
    ensures IsMain(email, one, env) <==> !IsAlternate(email, one, env)
  {
    hide IsMain, IsAlternate;
    SignAfterId(email, one, env);
    SignAfterId(email, other, env);
    DigitsOf(email, one);
    DigitsOf(email, other);
  }

  /** The recovery class has its own, laxer reading of success. */
  predicate RecoveryApiOk(env: Envelope) {
    Lower(env.status) == "success" || CodeOf(env) == 100
  }

  // ---------------------------------------------------------------- alternate identity

  predicate IsRegistering(e: Event) {
    e.CodeSent? || e.RegisterTried?
  }

  predicate WasTaken(e: Event) {
    e.RegisterTried? && e.registered.Got? && EmailAlreadyRegistered(e.registered.body.env)
  }

  predicate TookAlternate(e: Event, creds: Creds) {
    e.RegisterTried? && e.creds == creds && e.registered.Got? && RecoveryApiOk(e.registered.body.env)
  }

  lemma {:induction false} RegisteringSegment(d: seq<Event>)
    requires forall k :: 0 <= k < |d| ==> IsRegistering(d[k])
    ensures forall c :: AllActAs(d, c)
    ensures SumOf(d) == ZERO.(registers := SumOf(d).registers)
    ensures 0 <= SumOf(d).registers <= |d|
  {
    hide SumOfEvent;
    if d != [] {
      SumOfPlainEvent(d[|d| - 1]);
      RegisteringSegment(d[..|d| - 1]);
    }
  }

  /** Refused only because the address is taken: the loop tries another one. */
  predicate AsksForAnother(e: Event) {
    WasTaken(e) && !RecoveryApiOk(e.registered.body.env)
  }

  /** Calls of the retry loop: every registration but perhaps the last one met a taken address. */
  predicate IsAlternateRun(d: seq<Event>) {
    && (forall k :: 0 <= k < |d| ==> IsRegistering(d[k]))
    && (forall k :: 0 <= k < |d| - 1 && d[k].RegisterTried? ==> AsksForAnother(d[k]))
  }

  /** The same while the loop goes on: the last one did, too. */
  predicate IsStillTaken(d: seq<Event>) {
    IsAlternateRun(d) && (d != [] && d[|d| - 1].RegisterTried? ==> AsksForAnother(d[|d| - 1]))
  }

  /** The run ends with an accepted registration. */
  predicate EndsAccepted(d: seq<Event>) {
    d != [] && d[|d| - 1].RegisterTried? && d[|d| - 1].registered.Got?
    && RecoveryApiOk(d[|d| - 1].registered.body.env)
  }

  lemma AfterCode(d: seq<Event>, email: string, sent: Reply<()>)
    requires IsStillTaken(d)
    ensures var e := d + [CodeSent(email, sent)];
            && IsStillTaken(e) && IsAlternateRun(e) && !EndsAccepted(e)
            && SumOf(e).registers == SumOf(d).registers
  {
    hide SumOf, SumOfEvent, EmailAlreadyRegistered;
    SumOfAppend(d, CodeSent(email, sent));
    SumOfPlainEvent(CodeSent(email, sent));
  }

  lemma AfterTry(d: seq<Event>, creds: Creds, reg: Reply<ApiBody>)
    requires IsStillTaken(d)
    ensures var e := d + [RegisterTried(creds, reg)];
            && IsAlternateRun(e) && SumOf(e).registers == SumOf(d).registers + 1
            && (reg.Got? && EmailAlreadyRegistered(reg.body.env) && !RecoveryApiOk(reg.body.env)
                <==> IsStillTaken(e))
            && (reg.Got? && RecoveryApiOk(reg.body.env) ==> TookAlternate(e[|e| - 1], creds))
            && (reg.Got? && RecoveryApiOk(reg.body.env) <==> EndsAccepted(e))
  {
    hide SumOf, SumOfEvent, EmailAlreadyRegistered, RecoveryApiOk;
    SumOfAppend(d, RegisterTried(creds, reg));
    SumOfPlainEvent(RegisterTried(creds, reg));
  }

  lemma NoTriesYet()
    ensures IsStillTaken([]) && IsAlternateRun([]) && !EndsAccepted([]) && SumOf([]).registers == 0
  {
  }

  /** registerAlternateXmplusIdentity; None where the source throws. */
  method RegisterAlternate(api: Api, env: Env, user: User) returns (r: Option<Creds>, ghost d: seq<Event>)
    requires api.IsFaithful()
    modifies api, user
    ensures api.IsFaithful() && api.log == old(api.log) + d
    ensures IsAlternateRun(d) && SumOf(d).registers <= 8
    ensures r.Some? <==> EndsAccepted(d)
    // It gives up early only on a reply that another address would not change.
    ensures IsStillTaken(d) && (d != [] ==> d[|d| - 1].RegisterTried?) ==> SumOf(d).registers == 8
    ensures r.Some? ==> user.Holds(r.value) && d != [] && TookAlternate(d[|d| - 1], r.value)
    ensures RegistersAlternates(d, user.idText, env)
    // The row is written through a copy, so the object in hand may be left with a NULL column in mind.
    ensures r.Some? ==> user.stale == old(user.unset)
    ensures r.None? ==> unchanged(user)
  {
    hide SumOf, IsAlternateRun, IsStillTaken, EndsAccepted, EmailAlreadyRegistered, RecoveryApiOk, TookAlternate;
    hide IsMain, IsAlternate, AlternateEmail;
    d := [];
    NoTriesYet();
    for attempt := 0 to ALTERNATE_ATTEMPTS
      invariant api.IsFaithful() && api.log == old(api.log) + d
      invariant IsStillTaken(d) && IsAlternateRun(d) && !EndsAccepted(d) && SumOf(d).registers == attempt
      invariant RegistersAlternates(d, user.idText, env)
      invariant unchanged(user)
    {
      var email := AlternateEmail(user.idText, env.suffix(|api.log|), env);
      var creds := Creds(email, env.secret(|api.log|));
      AlternateEmailIsSet(user.idText, env.suffix(|api.log|), env);
      AddressesAreOwn(user.idText, env.suffix(|api.log|), env);
      if env.sendCode {
        var sent := api.SendCode(email);
        AfterCode(d, email, sent);
        d := d + [CodeSent(email, sent)];
        if sent.Threw? {
          return None, d;
        }
      }
      var reg := api.Register(creds);
      AfterTry(d, creds, reg);
      d := d + [RegisterTried(creds, reg)];
      if reg.Threw? {
        return None, d;
      }
      if RecoveryApiOk(reg.body.env) {
        user.SaveOnCopy(creds);
        return Some(creds), d;
      }
      if !EmailAlreadyRegistered(reg.body.env) {
        break;
      }
    }
    r := None;
  }

  lemma AlternateEmailIsSet(idText: string, suffix: string, env: Env)
    ensures AlternateEmail(idText, suffix, env) != ""
  {
  }

  // ---------------------------------------------------------------- recovery

  datatype Recovery = Recovered(creds: Creds) | NothingToRecover | ClearAndRestart | RecoveryThrew

  /** What account/info says about a stored address when asked with a made-up password; a thrown
      error is read as a message. */
  function ProbeBody(probe: Reply<AccountBody>): ApiBody {
    match probe
    case Threw(error) => ApiBody(Envelope(Some(0), "error", error.message), NoId, NoId)
    case Got(account) => account.api
  }

  /** A recovery that starts without a password: what account/info says about the address decides
      whether to wipe, to register another identity, or to leave things alone. */
  predicate RecoverRun(d: seq<Event>, email: string, domain: string, r: Recovery) {
    if Trim(email) == "" then d == [] && r.NothingToRecover?
    else
      && d != [] && d[0].AccountRead? && d[0].creds.email == email
      && var body := ProbeBody(d[0].account);
         if EmailNotFound(body.env) then d[1..] == [CredentialsCleared] && r.ClearAndRestart?
         else if !InvalidPassword(body.env) && ApiOk(body) then |d| == 1 && r.NothingToRecover?
         else if StripAt(Trim(domain)) == "" then |d| == 1 && r.RecoveryThrew?
         else
           && IsAlternateRun(d[1..])
           && if EndsAccepted(d[1..]) then r == Recovered(d[|d| - 1].creds) else r.RecoveryThrew?
  }

  /** recoverMissingXmplusCredentials. */
  method RecoverMissing(api: Api, env: Env, user: User, email: string)
    returns (r: Recovery, ghost d: seq<Event>)
    requires api.IsFaithful()
    modifies api, user
    ensures api.IsFaithful() && api.log == old(api.log) + d
    ensures SumOf(d) == ZERO.(registers := SumOf(d).registers, clears := One(r.ClearAndRestart?))
    ensures 0 <= SumOf(d).registers <= ALTERNATE_ATTEMPTS
    ensures forall c :: AllActAs(d, c)
    ensures r.ClearAndRestart? ==>
              && StoredOf(user) == Cleared(old(StoredOf(user))) && !user.stale
              && SumOf(d).registers == 0 && d != [] && d[|d| - 1].CredentialsCleared?
    ensures r.Recovered? && old(user.email) == email && email != "" ==> user.Holds(r.creds)
    ensures r.NothingToRecover? || r.RecoveryThrew? ==> StoredOf(user) == old(StoredOf(user))
    ensures var stored := old(StoredOf(user));
            if stored.password != "" then
              d == [] && r == Recovered(Creds(email, stored.password)) && !user.stale && StoredOf(user) == stored
            else
              && (r.Recovered? ==> SumOf(d).registers > 0 && (user.stale <==> stored.unset))
              && (stored.email == email ==> RecoverRun(d, email, env.domain, r))
    ensures RegistersAlternates(d, user.idText, env)
    // Without a stored address there is nothing to recover: no call is made.
    ensures Trim(old(user.email)) == "" && old(StoredOf(user)).password == "" ==> r.NothingToRecover? && d == []
  {
    hide EmailNotFound, InvalidPassword, ApiOk, Rehydrated, AllActAs, SumOf, IsAlternate, RegistersAlternates;
    hide IsAlternateRun, EndsAccepted, StripAt;
    d := [];
    AlternatesOf(d, [], user.idText, env);
    EmptySegment();
    var plain := ResolvePassword(user);
    if plain != "" {
      return Recovered(Creds(email, plain)), d;
    }
    if Trim(user.email) == "" {
      return NothingToRecover, d;
    }
    var guess := Creds(email, env.secret(|api.log|));
    var probe := api.AccountInfo(guess);
    d := [AccountRead(guess, probe)];
    ProbeSegment(d[0]);
    AlternatesOf(d, [], user.idText, env);
    var body := ProbeBody(probe);
    if EmailNotFound(body.env) {
      RehydratedTwice("", "");
      user.Clear();
      api.Note(CredentialsCleared);
      ClearSegment(d);
      AlternatesOf(d, [CredentialsCleared], user.idText, env);
      return ClearAndRestart, d + [CredentialsCleared];
    }
    if InvalidPassword(body.env) || !ApiOk(body) {
      if StripAt(Trim(env.domain)) == "" {
        return RecoveryThrew, d;
      }
      var alt;
      ghost var e;
      alt, e := RegisterAlternate(api, env, user);
      AlternateSegment(d, e);
      AlternatesOf(d, e, user.idText, env);
      if alt.Some? {
        TakenIsCounted(e, alt.value);
      }
      d := d + e;
      return if alt.Some? then Recovered(alt.value) else RecoveryThrew, d;
    }
    r := NothingToRecover;
  }

  lemma AlternatesOf(d: seq<Event>, e: seq<Event>, idText: string, env: Env)
    requires forall k :: 0 <= k < |d| ==> !d[k].RegisterTried?
    ensures RegistersAlternates(d, idText, env)
    ensures RegistersAlternates(d + e, idText, env) <==> RegistersAlternates(e, idText, env)
    ensures (forall k :: 0 <= k < |e| ==> !e[k].RegisterTried?) ==> RegistersAlternates(e, idText, env)
  {
    hide IsAlternate;
    assert forall k :: 0 <= k < |e| ==> (d + e)[|d| + k] == e[k];
  }

  lemma TakenIsCounted(e: seq<Event>, creds: Creds)
    requires e != [] && TookAlternate(e[|e| - 1], creds)
    ensures SumOf(e).registers > 0
  {
    hide SumOf, RecoveryApiOk;
    RegisterFree(e);
  }

  lemma EmptySegment()
    ensures SumOf([]) == ZERO && forall c :: AllActAs([], c)
  {
  }

  lemma ProbeSegment(e: Event)
    requires e.AccountRead?
    ensures SumOf([e]) == ZERO && forall c :: AllActAs([e], c)
  {
    hide SumOf, SumOfEvent;
    SumOfOne(e);
    SumOfPlainEvent(e);
  }

  lemma ClearSegment(d: seq<Event>)
    requires SumOf(d) == ZERO && forall c :: AllActAs(d, c)
    ensures var e := d + [CredentialsCleared];
            SumOf(e) == ZERO.(clears := 1) && forall c :: AllActAs(e, c)
  {
    hide SumOf, SumOfEvent, AllActAs;
    SumOfAppend(d, CredentialsCleared);
    SumOfPlainEvent(CredentialsCleared);
    forall c
      ensures AllActAs(d + [CredentialsCleared], c)
    {
      ActAsConcat(d, [CredentialsCleared], c);
      ClearActsAsAnyone(c);
    }
  }

  lemma ClearActsAsAnyone(creds: Creds)
    ensures AllActAs([CredentialsCleared], creds)
  {
  }

  lemma AlternateSegment(d: seq<Event>, e: seq<Event>)
    requires SumOf(d) == ZERO && forall c :: AllActAs(d, c)
    requires IsAlternateRun(e)
    ensures SumOf(d + e) == ZERO.(registers := SumOf(e).registers) && 0 <= SumOf(e).registers
    ensures forall c :: AllActAs(d + e, c)
  {
    hide SumOf, SumOfEvent, AllActAs, IsRegistering;
    SumOfConcat(d, e);
    RegisteringSegment(e);
    forall c
      ensures AllActAs(d + e, c)
    {
      ActAsConcat(d, e, c);
    }
  }
}

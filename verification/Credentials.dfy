/**
 Who gets a session (`services/AuthService.cpp`): what each call asks for, in terms of the tables, and
 which passwords open an account after any run.
 */
module Credentials {
  import opened Common
  import opened Auth

  // ---------------------------------------------------------------------------
  // What each call asks for
  // ---------------------------------------------------------------------------

  ghost predicate MaySignIn(p: Hasher, user: User) {
    user.isActive && (p.requireVerifiedEmail ==> user.emailVerified)
  }

  /** A session for the account that was found, its password given, active and, where asked for, verified. */
  lemma LoginMintsIff(p: Hasher, s: State, found: Option<UserId>, password: Password, upgraded: Option<PasswordHash>,
                      family: FamilyId, token: Token)
    ensures var o := Apply(p, s, Login(found, password, upgraded, family, token));
            && (o.answer.Minted? <==>
                 && found.Some? && found.value in s.users
                 && p.verify(password, s.users[found.value].passwordHash)
                 && MaySignIn(p, s.users[found.value]))
            && (o.answer.Minted? ==>
                 && o.answer.session.userId == found.value && o.answer.session.refreshToken == token
                 && token in o.state.tokens
                 && o.state.tokens[token] == RefreshToken(found.value, family, false, s.now + p.refreshTtl))
            && (!o.answer.Minted? ==> o.state == s)
            && (o.answer == Refused(Forbidden) ==>
                 found.Some? && found.value in s.users && p.verify(password, s.users[found.value].passwordHash))
  {
    hide ApplyRefresh, ApplyChangePassword, ApplyResetPassword;
  }

  /** A session for a presented token that is neither revoked nor expired and whose user is active. */
  lemma RefreshMintsIff(p: Hasher, s: State, presented: Token, token: Token)
    ensures var o := Apply(p, s, Refresh(presented, token));
            && (o.answer.Minted? <==>
                 && presented in s.tokens && !s.tokens[presented].revoked && s.tokens[presented].expiresAt > s.now
                 && s.tokens[presented].userId in s.users && s.users[s.tokens[presented].userId].isActive)
            && (o.answer.Minted? ==>
                 && o.answer.session.userId == s.tokens[presented].userId && token in o.state.tokens
                 && o.state.tokens[token]
                    == RefreshToken(s.tokens[presented].userId, s.tokens[presented].familyId, false, s.now + p.refreshTtl))
            && o.state.users == s.users
  {
    hide ApplyLogin, ApplyChangePassword, ApplyResetPassword;
  }

  /** The owner of an active account, with its present password and one that is not. */
  lemma ChangeSucceedsIff(p: Hasher, s: State, id: UserId, current: Password, next: Password,
                          newHash: Option<PasswordHash>, family: FamilyId, token: Token)
    ensures var o := Apply(p, s, ChangePassword(id, current, next, newHash, family, token));
            && (o.answer.Minted? <==>
                 && id in s.users && s.users[id].isActive && newHash.Some?
                 && p.verify(current, s.users[id].passwordHash) && !p.verify(next, s.users[id].passwordHash))
            && (o.answer.Minted? ==>
                 && o.state.users == s.users[id := s.users[id].(passwordHash := newHash.value,
                                                               passwordChangeRequired := false)])
            && (!o.answer.Minted? ==> o.state == s)
  {
    hide ApplyLogin, ApplyRefresh, ApplyResetPassword;
  }

  /** A link that is neither used nor expired, and a password that could be hashed. */
  lemma ResetSucceedsIff(p: Hasher, s: State, link: Link, newHash: Option<PasswordHash>)
    ensures var o := Apply(p, s, ResetPassword(link, newHash));
            && (o.answer == Done <==>
                 link in s.links && !s.links[link].consumed && s.links[link].expiresAt > s.now && newHash.Some?)
            && (o.answer == Done && s.links[link].userId in s.users ==>
                 var id := s.links[link].userId;
                 o.state.users == s.users[id := s.users[id].(passwordHash := newHash.value,
                                                             passwordChangeRequired := false)])
            && (o.answer != Done ==> o.state.users == s.users)
            && (link in s.links && s.links[link].userId !in s.users ==> o.state.users == s.users)
  {
    hide ApplyLogin, ApplyRefresh, ApplyChangePassword;
  }

  // ---------------------------------------------------------------------------
  // How long a session and a link last
  // ---------------------------------------------------------------------------

  ghost function AfterTime(p: Hasher, s: State, seconds: nat): State {
    Apply(p, s, Tick(seconds)).state
  }

  lemma OnlyTimePasses(p: Hasher, s: State, seconds: nat)
    ensures AfterTime(p, s, seconds) == s.(now := s.now + seconds)
  {
    hide ApplyLogin, ApplyRefresh, ApplyChangePassword, ApplyResetPassword;
  }

  /** Left alone, a session of a login can be refreshed exactly until its time is over. */
  lemma SessionsRefreshUntilTheyExpire(p: Hasher, s: State, user: UserId, password: Password,
                                       upgraded: Option<PasswordHash>, family: FamilyId, token: Token, seconds: nat,
                                       next: Token)
    requires Apply(p, s, Login(Some(user), password, upgraded, family, token)).answer.Minted?
    ensures var t := Apply(p, s, Login(Some(user), password, upgraded, family, token)).state;
            Apply(p, AfterTime(p, t, seconds), Refresh(token, next)).answer.Minted? <==> seconds < p.refreshTtl
  {
    hide Apply;
    LoginMintsIff(p, s, Some(user), password, upgraded, family, token);
    var t := Apply(p, s, Login(Some(user), password, upgraded, family, token)).state;
    LoginKeepsUsersActive(p, s, user, password, upgraded, family, token);
    OnlyTimePasses(p, t, seconds);
    RefreshMintsIff(p, AfterTime(p, t, seconds), token, next);
  }

  lemma LoginKeepsUsersActive(p: Hasher, s: State, user: UserId, password: Password, upgraded: Option<PasswordHash>,
                              family: FamilyId, token: Token)
    requires user in s.users
    ensures var t := Apply(p, s, Login(Some(user), password, upgraded, family, token)).state;
            user in t.users && t.users[user].isActive == s.users[user].isActive && t.now == s.now
  {
    hide ApplyRefresh, ApplyChangePassword, ApplyResetPassword;
  }

  /** Left alone, a reset link opens the account to its new password exactly until its time is over. */
  lemma LinksOpenUntilTheyExpire(p: Hasher, s: State, user: UserId, link: Link, seconds: nat, hash: PasswordHash,
                                 password: Password, family: FamilyId, token: Token)
    requires user in s.users && p.mailEnabled && MaySignIn(p, s.users[user])
    ensures var asked := AfterTime(p, Apply(p, s, RequestReset(Some(user), link)).state, seconds);
            var o := Apply(p, asked, ResetPassword(link, Some(hash)));
            && (o.answer == Done <==> seconds < p.resetTtl)
            && (o.answer == Done ==>
                 (Apply(p, o.state, Login(Some(user), password, None, family, token)).answer.Minted?
                  <==> p.verify(password, hash)))
  {
    hide Apply;
    var t := Apply(p, s, RequestReset(Some(user), link)).state;
    AskingSendsALink(p, s, user, link);
    OnlyTimePasses(p, t, seconds);
    ResetSucceedsIff(p, AfterTime(p, t, seconds), link, Some(hash));
    var o := Apply(p, AfterTime(p, t, seconds), ResetPassword(link, Some(hash)));
    LoginMintsIff(p, o.state, Some(user), password, None, family, token);
  }

  lemma AskingSendsALink(p: Hasher, s: State, user: UserId, link: Link)
    requires user in s.users && p.mailEnabled
    ensures var t := Apply(p, s, RequestReset(Some(user), link)).state;
            && t.users == s.users && t.now == s.now
            && link in t.links && t.links[link] == ResetLink(user, false, s.now + p.resetTtl)
  {
    hide ApplyLogin, ApplyRefresh, ApplyChangePassword, ApplyResetPassword;
  }

  // ---------------------------------------------------------------------------
  // Which passwords open an account
  // ---------------------------------------------------------------------------

  /** No two passwords fit one hash. */
  ghost predicate OnePasswordPerHash(p: Hasher) {
    forall a, b, hash :: p.verify(a, hash) && p.verify(b, hash) ==> a == b
  }

  /** What a login stores in place of an outdated hash fits the password that was given. */
  ghost predicate RehashesThePassword(p: Hasher, event: Event) {
    event.Login? && event.upgraded.Some? ==> p.verify(event.password, event.upgraded.value)
  }

  ghost predicate SameTakers(p: Hasher, a: PasswordHash, b: PasswordHash) {
    forall password :: p.verify(password, a) <==> p.verify(password, b)
  }

  ghost predicate LinkOpens(s: State, link: Link, id: UserId) {
    link in s.links && s.links[link].userId == id && !s.links[link].consumed && s.links[link].expiresAt > s.now
  }

  /** The hash somebody last chose for the account, or its erasure put there; rehashing is no choice. */
  ghost function ChosenBy(p: Hasher, s: State, event: Event, id: UserId, hash: PasswordHash): PasswordHash {
    match event
    case ResetPassword(link, newHash) => if newHash.Some? && LinkOpens(s, link, id) then newHash.value else hash
    case ChangePassword(user, _, _, newHash, _, _) =>
      if user == id && newHash.Some? && Apply(p, s, event).answer.Minted? then newHash.value else hash
    case SetTemporaryPassword(user, temporary) => if user == id then temporary else hash
    case Erase(user, unusable) => if user == id && id in s.users && !s.users[id].erased then unusable else hash
    case _ => hash
  }

  ghost function Chosen(p: Hasher, s: State, events: seq<Event>, id: UserId, hash: PasswordHash): PasswordHash
    decreases |events|
  {
    if events == [] then hash
    else Chosen(p, Apply(p, s, events[0]).state, events[1..], id, ChosenBy(p, s, events[0], id, hash))
  }

  lemma LoginKeepsTakers(p: Hasher, s: State, event: Event, id: UserId)
    requires event.Login? && id in s.users && OnePasswordPerHash(p) && RehashesThePassword(p, event)
    ensures var t := Apply(p, s, event).state;
            id in t.users && SameTakers(p, t.users[id].passwordHash, s.users[id].passwordHash)
  {
    hide ApplyRefresh, ApplyChangePassword, ApplyResetPassword;
    LoginMintsIff(p, s, event.found, event.password, event.upgraded, event.family, event.token);
  }

  lemma EventKeepsTakers(p: Hasher, s: State, event: Event, id: UserId, hash: PasswordHash)
    requires id in s.users && SameTakers(p, s.users[id].passwordHash, hash)
    requires OnePasswordPerHash(p) && RehashesThePassword(p, event)
    ensures var t := Apply(p, s, event).state;
            id in t.users && SameTakers(p, t.users[id].passwordHash, ChosenBy(p, s, event, id, hash))
  {
    hide ApplyLogin, ApplyRefresh, ApplyChangePassword, ApplyResetPassword, OnePasswordPerHash;
    match event
    case Login(_, _, _, _, _) => LoginKeepsTakers(p, s, event, id);
    case Refresh(presented, token) => RefreshMintsIff(p, s, presented, token);
    case ResetPassword(link, newHash) => ResetSucceedsIff(p, s, link, newHash);
    case ChangePassword(user, current, next, newHash, family, token) =>
      ChangeSucceedsIff(p, s, user, current, next, newHash, family, token);
    case _ =>
  }

  /** Over every run, the stored hash fits exactly the passwords that fit the hash last chosen. */
  lemma {:induction false} StoredHashFitsTheChosen(p: Hasher, s: State, events: seq<Event>, id: UserId, hash: PasswordHash)
    requires id in s.users && SameTakers(p, s.users[id].passwordHash, hash)
    requires OnePasswordPerHash(p) && forall event <- events :: RehashesThePassword(p, event)
    ensures var t := Run(p, s, events);
            id in t.users && SameTakers(p, t.users[id].passwordHash, Chosen(p, s, events, id, hash))
    decreases |events|
  {
    hide Apply, SameTakers, OnePasswordPerHash, RehashesThePassword, ChosenBy;
    if events != [] {
      assert events[0] in events;
      EventKeepsTakers(p, s, events[0], id, hash);
      StoredHashFitsTheChosen(p, Apply(p, s, events[0]).state, events[1..], id, ChosenBy(p, s, events[0], id, hash));
    }
  }

  /** Whatever has happened since, a login mints exactly for the password last chosen, of an account that may sign in. */
  lemma LoginsTakeTheChosenPassword(p: Hasher, s: State, events: seq<Event>, id: UserId, password: Password,
                                    upgraded: Option<PasswordHash>, family: FamilyId, token: Token)
    requires id in s.users && OnePasswordPerHash(p) && forall event <- events :: RehashesThePassword(p, event)
    ensures var t := Run(p, s, events);
            && id in t.users
            && (Apply(p, t, Login(Some(id), password, upgraded, family, token)).answer.Minted?
                <==> p.verify(password, Chosen(p, s, events, id, s.users[id].passwordHash)) && MaySignIn(p, t.users[id]))
  {
    hide Apply, Run, Chosen, OnePasswordPerHash, RehashesThePassword, MaySignIn;
    StoredHashFitsTheChosen(p, s, events, id, s.users[id].passwordHash);
    LoginMintsIff(p, Run(p, s, events), Some(id), password, upgraded, family, token);
  }

  /** Once its owner has changed it, the old password opens nothing, until somebody chooses again. */
  lemma ChangedPasswordsAreOver(p: Hasher, s: State, id: UserId, current: Password, next: Password, hash: PasswordHash,
                                family: FamilyId, token: Token, events: seq<Event>, upgraded: Option<PasswordHash>,
                                newFamily: FamilyId, newToken: Token)
    requires OnePasswordPerHash(p) && p.verify(next, hash) && forall event <- events :: RehashesThePassword(p, event)
    requires Apply(p, s, ChangePassword(id, current, next, Some(hash), family, token)).answer.Minted?
    requires var t := Apply(p, s, ChangePassword(id, current, next, Some(hash), family, token)).state;
             Chosen(p, t, events, id, hash) == hash
    ensures var t := Apply(p, s, ChangePassword(id, current, next, Some(hash), family, token)).state;
            !Apply(p, Run(p, t, events), Login(Some(id), current, upgraded, newFamily, newToken)).answer.Minted?
  {
    hide Apply, Run, Chosen, RehashesThePassword;
    ChangeSucceedsIff(p, s, id, current, next, Some(hash), family, token);
    var t := Apply(p, s, ChangePassword(id, current, next, Some(hash), family, token)).state;
    LoginsTakeTheChosenPassword(p, t, events, id, current, upgraded, newFamily, newToken);
  }
}

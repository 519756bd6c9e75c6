/**
 Refresh-token families, credential changes and the one-time-password flag
 (`services/AuthService.cpp` with the SQL of `PgRepositories.cpp` and `PgAdminRepositories.cpp`).

 A service call is one atomic event here; the last section shows what a rotation can do that comes
 some time after its read, and `AuthRaces` has the runs. Random tokens, family ids and reset links
 arrive with the event and are fresh; hashing and verifying passwords are uninterpreted.
 */
module Auth {
  import opened Common

  type UserId = string
  type FamilyId = string
  type Token = string
  type Link = string
  type Password = string
  type PasswordHash = string

  datatype Hasher = Hasher(
    verify: (Password, PasswordHash) -> bool,
    needsRehash: PasswordHash -> bool,
    requireVerifiedEmail: bool,
    mailEnabled: bool,
    refreshTtl: nat,
    resetTtl: nat)

  datatype User = User(
    passwordHash: PasswordHash,
    isActive: bool,
    emailVerified: bool,
    passwordChangeRequired: bool,
    erased: bool)

  /** A row of `refresh_tokens`, keyed by the token. */
  datatype RefreshToken = RefreshToken(userId: UserId, familyId: FamilyId, revoked: bool, expiresAt: int)

  /** A password-reset row of `user_tokens`, keyed by the link. */
  datatype ResetLink = ResetLink(userId: UserId, consumed: bool, expiresAt: int)

  datatype State = State(
    now: int,
    users: map<UserId, User>,
    tokens: map<Token, RefreshToken>,
    links: map<Link, ResetLink>,
    // History, read by no call: every token, family and link ever handed out.
    issuedTokens: set<Token>,
    families: set<FamilyId>,
    issuedLinks: set<Link>)

  /** What a client gets: whose session it is, and whether its access token demands a new password. */
  datatype Session = Session(userId: UserId, passwordChangeRequired: bool, refreshToken: Token)

  datatype Answer = Minted(session: Session) | Refused(code: ErrorCode) | Done

  datatype Outcome = Outcome(state: State, answer: Answer)

  // ---------------------------------------------------------------------------
  // Repository statements
  // ---------------------------------------------------------------------------

  function Issued(p: Hasher, s: State, user: UserId, family: FamilyId, token: Token): (t: State)
    ensures t == s.(tokens := t.tokens, issuedTokens := t.issuedTokens, families := t.families)
  {
    s.(tokens := s.tokens[token := RefreshToken(user, family, false, s.now + p.refreshTtl)],
       issuedTokens := s.issuedTokens + {token},
       families := s.families + {family})
  }

  function WithTokens(s: State, tokens: map<Token, RefreshToken>): State {
    s.(tokens := tokens)
  }

  function RevokedWhere(tokens: map<Token, RefreshToken>, chosen: RefreshToken -> bool): (r: map<Token, RefreshToken>)
    ensures r.Keys == tokens.Keys
    ensures forall token <- tokens ::
              r[token] == if chosen(tokens[token]) then tokens[token].(revoked := true) else tokens[token]
  {
    map token <- tokens :: if chosen(tokens[token]) then tokens[token].(revoked := true) else tokens[token]
  }

  function RevokedOne(tokens: map<Token, RefreshToken>, token: Token): (r: map<Token, RefreshToken>)
    ensures r.Keys == tokens.Keys
  {
    if token in tokens then tokens[token := tokens[token].(revoked := true)] else tokens
  }

  function RevokedFamily(tokens: map<Token, RefreshToken>, family: FamilyId): map<Token, RefreshToken> {
    RevokedWhere(tokens, (t: RefreshToken) => t.familyId == family)
  }

  function RevokedUser(tokens: map<Token, RefreshToken>, user: UserId): map<Token, RefreshToken> {
    RevokedWhere(tokens, (t: RefreshToken) => t.userId == user)
  }

  /** `rotate`: the new token is inserted whatever has become of the previous one. */
  function Rotated(p: Hasher, s: State, previous: Token, user: UserId, family: FamilyId, token: Token): (t: State)
    ensures t == s.(tokens := t.tokens, issuedTokens := t.issuedTokens, families := t.families)
  {
    Issued(p, s.(tokens := RevokedOne(s.tokens, previous)), user, family, token)
  }

  function InvalidatedLinks(links: map<Link, ResetLink>, user: UserId): (r: map<Link, ResetLink>)
    ensures r.Keys == links.Keys
    ensures forall link <- links ::
              r[link] == if links[link].userId == user then links[link].(consumed := true) else links[link]
  {
    map link <- links :: if links[link].userId == user then links[link].(consumed := true) else links[link]
  }

  predicate IsRedeemable(s: State, link: Link) {
    link in s.links && !s.links[link].consumed && s.links[link].expiresAt > s.now
  }

  function WithUser(s: State, id: UserId, user: User): (t: State)
    ensures t == s.(users := t.users)
  {
    s.(users := s.users[id := user])
  }

  // ---------------------------------------------------------------------------
  // Service calls
  // ---------------------------------------------------------------------------

  datatype Event =
    | Register(userId: UserId, hash: PasswordHash)
    | VerifyEmail(userId: UserId)
    | Login(found: Option<UserId>, password: Password, upgraded: Option<PasswordHash>, family: FamilyId, token: Token)
    | Refresh(presented: Token, token: Token)
    | Logout(presented: Token)
    | RequestReset(found: Option<UserId>, link: Link)
    | ResetPassword(link: Link, newHash: Option<PasswordHash>)
    | ChangePassword(userId: UserId, current: Password, next: Password, newHash: Option<PasswordHash>,
                     family: FamilyId, token: Token)
    | SetTemporaryPassword(userId: UserId, hash: PasswordHash)
    | SetActive(userId: UserId, active: bool)
    | Erase(userId: UserId, hash: PasswordHash)
    | DeleteExpired
    | Tick(seconds: nat)

  function NoSession(s: State): Outcome {
    Outcome(s, Done)
  }

  function ApplyLogin(p: Hasher, s: State, found: Option<UserId>, password: Password, upgraded: Option<PasswordHash>,
                      family: FamilyId, token: Token): Outcome {
    if found.None? || found.value !in s.users then Outcome(s, Refused(Unauthenticated))
    else
      var id := found.value;
      var user := s.users[id];
      if !p.verify(password, user.passwordHash) then Outcome(s, Refused(Unauthenticated))
      else if !user.isActive || (p.requireVerifiedEmail && !user.emailVerified) then Outcome(s, Refused(Forbidden))
      else
        var rehashed := if p.needsRehash(user.passwordHash) && upgraded.Some?
                        then WithUser(s, id, user.(passwordHash := upgraded.value)) else s;
        Outcome(Issued(p, rehashed, id, family, token), Minted(Session(id, user.passwordChangeRequired, token)))
  }

  function ApplyRefresh(p: Hasher, s: State, presented: Token, token: Token): Outcome {
    if presented !in s.tokens then Outcome(s, Refused(Unauthenticated))
    else
      var stored := s.tokens[presented];
      if stored.revoked then
        Outcome(WithTokens(s, RevokedFamily(s.tokens, stored.familyId)), Refused(Unauthenticated))
      else if stored.expiresAt <= s.now then
        Outcome(WithTokens(s, RevokedOne(s.tokens, presented)), Refused(Unauthenticated))
      else if stored.userId !in s.users then
        Outcome(WithTokens(s, RevokedFamily(s.tokens, stored.familyId)), Refused(Unauthenticated))
      else if !s.users[stored.userId].isActive then
        Outcome(WithTokens(s, RevokedUser(s.tokens, stored.userId)), Refused(Forbidden))
      else
        Outcome(Rotated(p, s, presented, stored.userId, stored.familyId, token),
                Minted(Session(stored.userId, s.users[stored.userId].passwordChangeRequired, token)))
  }

  /** A new password, chosen by its owner: the flag goes, and so does every session and link. */
  function WithNewPassword(s: State, id: UserId, user: User, hash: PasswordHash): (t: State)
    ensures t == s.(users := t.users, tokens := t.tokens, links := t.links)
  {
    s.(users := s.users[id := user.(passwordHash := hash, passwordChangeRequired := false)],
       tokens := RevokedUser(s.tokens, id),
       links := InvalidatedLinks(s.links, id))
  }

  function ApplyResetPassword(s: State, link: Link, newHash: Option<PasswordHash>): Outcome {
    if !IsRedeemable(s, link) then Outcome(s, Refused(InvalidInput))
    else
      var id := s.links[link].userId;
      var redeemed := s.(links := s.links[link := s.links[link].(consumed := true)]);
      if newHash.None? then Outcome(redeemed, Refused(DependencyFailure))
      else if id !in s.users
      then NoSession(redeemed.(tokens := RevokedUser(s.tokens, id), links := InvalidatedLinks(redeemed.links, id)))
      else NoSession(WithNewPassword(redeemed, id, s.users[id], newHash.value))
  }

  function ApplyChangePassword(p: Hasher, s: State, id: UserId, current: Password, next: Password,
                               newHash: Option<PasswordHash>, family: FamilyId, token: Token): Outcome {
    if id !in s.users || !p.verify(current, s.users[id].passwordHash) then Outcome(s, Refused(Unauthenticated))
    else if !s.users[id].isActive then Outcome(s, Refused(Forbidden))
    else if p.verify(next, s.users[id].passwordHash) then Outcome(s, Refused(InvalidInput))
    else if newHash.None? then Outcome(s, Refused(DependencyFailure))
    else
      var changed := WithNewPassword(s, id, s.users[id], newHash.value);
      Outcome(Issued(p, changed, id, family, token), Minted(Session(id, false, token)))
  }

  function ApplySetTemporaryPassword(s: State, id: UserId, hash: PasswordHash): State {
    if id !in s.users then s
    else
      s.(users := s.users[id := s.users[id].(passwordHash := hash, passwordChangeRequired := true)],
         tokens := RevokedUser(s.tokens, id),
         links := InvalidatedLinks(s.links, id))
  }

  function ApplySetActive(s: State, id: UserId, active: bool): State {
    if id !in s.users then s
    else
      s.(users := s.users[id := s.users[id].(isActive := active)],
         tokens := if active then s.tokens else RevokedUser(s.tokens, id))
  }

  /** A second erasure finds the placeholder address and does nothing. */
  function ApplyErase(s: State, id: UserId, hash: PasswordHash): State {
    if id !in s.users || s.users[id].erased then s
    else
      s.(users := s.users[id := s.users[id].(passwordHash := hash, isActive := false, emailVerified := false,
                                             erased := true)],
         tokens := map token | token in s.tokens && s.tokens[token].userId != id :: s.tokens[token],
         links := map link | link in s.links && s.links[link].userId != id :: s.links[link])
  }

  function ApplyRequestReset(p: Hasher, s: State, found: Option<UserId>, link: Link): State {
    if found.None? || found.value !in s.users || !p.mailEnabled then s
    else
      s.(links := InvalidatedLinks(s.links, found.value)[link := ResetLink(found.value, false, s.now + p.resetTtl)],
         issuedLinks := s.issuedLinks + {link})
  }

  function Apply(p: Hasher, s: State, event: Event): Outcome {
    match event
    case Register(id, hash) => NoSession(if id in s.users then s else WithUser(s, id, User(hash, true, false, false, false)))
    case VerifyEmail(id) => NoSession(if id in s.users then WithUser(s, id, s.users[id].(emailVerified := true)) else s)
    case Login(found, password, upgraded, family, token) => ApplyLogin(p, s, found, password, upgraded, family, token)
    case Refresh(presented, token) => ApplyRefresh(p, s, presented, token)
    case Logout(presented) => NoSession(WithTokens(s, RevokedOne(s.tokens, presented)))
    case RequestReset(found, link) => NoSession(ApplyRequestReset(p, s, found, link))
    case ResetPassword(link, newHash) => ApplyResetPassword(s, link, newHash)
    case ChangePassword(id, current, next, newHash, family, token) =>
      ApplyChangePassword(p, s, id, current, next, newHash, family, token)
    case SetTemporaryPassword(id, hash) => NoSession(ApplySetTemporaryPassword(s, id, hash))
    case SetActive(id, active) => NoSession(ApplySetActive(s, id, active))
    case Erase(id, hash) => NoSession(ApplyErase(s, id, hash))
    case DeleteExpired =>
      NoSession(WithTokens(s, map token | token in s.tokens && s.tokens[token].expiresAt > s.now :: s.tokens[token]))
    case Tick(seconds) => NoSession(s.(now := s.now + seconds))
  }

  /** Random values never repeat. */
  predicate Fresh(s: State, event: Event) {
    match event
    case Login(_, _, _, family, token) => token !in s.issuedTokens && family !in s.families
    case Refresh(_, token) => token !in s.issuedTokens
    case ChangePassword(_, _, _, _, family, token) => token !in s.issuedTokens && family !in s.families
    case RequestReset(_, link) => link !in s.issuedLinks
    case _ => true
  }

  function Run(p: Hasher, s: State, events: seq<Event>): State
    decreases |events|
  {
    if events == [] then s else Run(p, Apply(p, s, events[0]).state, events[1..])
  }

  predicate FreshRun(p: Hasher, s: State, events: seq<Event>)
    decreases |events|
  {
    events == [] || (Fresh(s, events[0]) && FreshRun(p, Apply(p, s, events[0]).state, events[1..]))
  }

  ghost predicate Initial(s: State) {
    s.tokens == map[] && s.links == map[] && s.issuedTokens == {} && s.families == {} && s.issuedLinks == {}
  }

  // ---------------------------------------------------------------------------
  // What an event does to tokens
  // ---------------------------------------------------------------------------

  predicate Live(s: State, token: Token) {
    token in s.tokens && !s.tokens[token].revoked
  }

  ghost predicate Recorded(s: State) {
    && s.tokens.Keys <= s.issuedTokens && s.links.Keys <= s.issuedLinks
    && forall token <- s.tokens :: s.tokens[token].familyId in s.families
  }

  /** A token that is still there still belongs to whom it did, and is not more alive than it was. */
  ghost predicate OnlyDies(s: State, t: State, token: Token) {
    token in t.tokens ==>
      token in s.tokens && t.tokens[token] == s.tokens[token].(revoked := t.tokens[token].revoked)
      && (s.tokens[token].revoked ==> t.tokens[token].revoked)
  }

  predicate Mints(event: Event) {
    event.Login? || event.Refresh? || event.ChangePassword?
  }

  ghost predicate HistoryGrows(s: State, t: State) {
    s.issuedTokens <= t.issuedTokens && s.families <= t.families && s.issuedLinks <= t.issuedLinks
  }

  lemma RefreshOnlyKills(p: Hasher, s: State, presented: Token, newToken: Token, token: Token)
    requires token != newToken
    ensures OnlyDies(s, ApplyRefresh(p, s, presented, newToken).state, token)
  {
  }

  lemma LoginOnlyAdds(p: Hasher, s: State, found: Option<UserId>, password: Password, upgraded: Option<PasswordHash>,
                      family: FamilyId, newToken: Token, token: Token)
    requires token != newToken
    ensures OnlyDies(s, ApplyLogin(p, s, found, password, upgraded, family, newToken).state, token)
  {
  }

  lemma ChangeOnlyKills(p: Hasher, s: State, id: UserId, current: Password, next: Password,
                        newHash: Option<PasswordHash>, family: FamilyId, newToken: Token, token: Token)
    requires token != newToken
    ensures OnlyDies(s, ApplyChangePassword(p, s, id, current, next, newHash, family, newToken).state, token)
  {
  }

  /** Apart from the one token an event mints, tokens only die. */
  lemma TokensOnlyDie(p: Hasher, s: State, event: Event, token: Token)
    requires Mints(event) ==> token != event.token
    ensures OnlyDies(s, Apply(p, s, event).state, token)
  {
    hide ApplyLogin, ApplyRefresh, ApplyChangePassword;
    match event
    case Login(found, password, upgraded, family, newToken) =>
      LoginOnlyAdds(p, s, found, password, upgraded, family, newToken, token);
    case Refresh(presented, newToken) => RefreshOnlyKills(p, s, presented, newToken, token);
    case ChangePassword(id, current, next, newHash, family, newToken) =>
      ChangeOnlyKills(p, s, id, current, next, newHash, family, newToken, token);
    case _ =>
  }

  lemma HistoryIsKept(p: Hasher, s: State, event: Event)
    requires Recorded(s)
    ensures HistoryGrows(s, Apply(p, s, event).state) && Recorded(Apply(p, s, event).state)
  {
    hide ApplyLogin, ApplyRefresh, ApplyChangePassword, ApplyResetPassword, ApplySetTemporaryPassword;
    match event
    case Login(found, password, upgraded, family, newToken) =>
      LoginIsRecorded(p, s, found, password, upgraded, family, newToken);
    case Refresh(presented, newToken) => RefreshIsRecorded(p, s, presented, newToken);
    case ChangePassword(id, current, next, newHash, family, newToken) =>
      ChangeIsRecorded(p, s, id, current, next, newHash, family, newToken);
    case ResetPassword(link, newHash) => ResetIsRecorded(s, link, newHash);
    case SetTemporaryPassword(id, hash) => TemporaryIsRecorded(s, id, hash);
    case _ =>
  }

  lemma LoginIsRecorded(p: Hasher, s: State, found: Option<UserId>, password: Password,
                        upgraded: Option<PasswordHash>, family: FamilyId, token: Token)
    requires Recorded(s)
    ensures var t := ApplyLogin(p, s, found, password, upgraded, family, token).state;
            HistoryGrows(s, t) && Recorded(t)
  {
  }

  lemma RefreshIsRecorded(p: Hasher, s: State, presented: Token, token: Token)
    requires Recorded(s)
    ensures var t := ApplyRefresh(p, s, presented, token).state;
            HistoryGrows(s, t) && Recorded(t)
  {
  }

  lemma ChangeIsRecorded(p: Hasher, s: State, id: UserId, current: Password, next: Password,
                         newHash: Option<PasswordHash>, family: FamilyId, token: Token)
    requires Recorded(s)
    ensures var t := ApplyChangePassword(p, s, id, current, next, newHash, family, token).state;
            HistoryGrows(s, t) && Recorded(t)
  {
  }

  lemma ResetIsRecorded(s: State, link: Link, newHash: Option<PasswordHash>)
    requires Recorded(s)
    ensures var t := ApplyResetPassword(s, link, newHash).state; HistoryGrows(s, t) && Recorded(t)
  {
  }

  lemma TemporaryIsRecorded(s: State, id: UserId, hash: PasswordHash)
    requires Recorded(s)
    ensures var t := ApplySetTemporaryPassword(s, id, hash); HistoryGrows(s, t) && Recorded(t)
  {
  }

  /** What a session is minted from, and what the minting leaves behind. */
  ghost predicate WellMinted(s: State, t: State, event: Event, session: Session)
    requires Mints(event)
  {
    && session.refreshToken == event.token && Live(t, event.token)
    && t.tokens[event.token].userId == session.userId && session.userId in s.users
    && (event.Refresh? ==>
         && Live(s, event.presented) && s.tokens[event.presented].userId == session.userId
         && s.tokens[event.presented].familyId == t.tokens[event.token].familyId
         && !Live(t, event.presented)
         && session.passwordChangeRequired == s.users[session.userId].passwordChangeRequired)
    && (!event.Refresh? ==> t.tokens[event.token].familyId == event.family)
    && (event.Login? ==> session.passwordChangeRequired == s.users[session.userId].passwordChangeRequired)
    && (event.ChangePassword? ==> session.userId == event.userId)
  }

  lemma MintingIsWellFounded(p: Hasher, s: State, event: Event)
    requires Mints(event) && Recorded(s) && Fresh(s, event)
    ensures var o := Apply(p, s, event);
            match o.answer
            case Minted(session) => WellMinted(s, o.state, event, session)
            case _ => event.token !in o.state.tokens
  {
    match event {
      case Login(_, _, _, _, _) => hide ApplyRefresh, ApplyChangePassword;
      case Refresh(_, _) => hide ApplyLogin, ApplyChangePassword;
      case _ => hide ApplyLogin, ApplyRefresh;
    }
  }

  // ---------------------------------------------------------------------------
  // Families
  // ---------------------------------------------------------------------------

  ghost predicate OneLivePerFamily(s: State) {
    forall a, b :: Live(s, a) && Live(s, b) && s.tokens[a].familyId == s.tokens[b].familyId ==> a == b
  }

  /** A family that was handed out and has no live token left. */
  ghost predicate Burned(s: State, family: FamilyId) {
    family in s.families && forall token :: Live(s, token) ==> s.tokens[token].familyId != family
  }

  lemma LiveBefore(p: Hasher, s: State, event: Event, token: Token)
    requires Live(Apply(p, s, event).state, token) && (Mints(event) ==> token != event.token)
    ensures Live(s, token) && s.tokens[token].familyId == Apply(p, s, event).state.tokens[token].familyId
    ensures s.tokens[token].userId == Apply(p, s, event).state.tokens[token].userId
  {
    hide Apply;
    TokensOnlyDie(p, s, event, token);
  }

  lemma EventKeepsOneLive(p: Hasher, s: State, event: Event)
    requires OneLivePerFamily(s) && Recorded(s) && Fresh(s, event)
    ensures OneLivePerFamily(Apply(p, s, event).state)
  {
    hide Apply;
    var t := Apply(p, s, event).state;
    forall a, b | Live(t, a) && Live(t, b) && t.tokens[a].familyId == t.tokens[b].familyId
      ensures a == b
    {
      if Mints(event) && (a == event.token || b == event.token) {
        MintingIsWellFounded(p, s, event);
        var other := if a == event.token then b else a;
        if other != event.token {
          LiveBefore(p, s, event, other);
        }
      } else {
        LiveBefore(p, s, event, a);
        LiveBefore(p, s, event, b);
      }
    }
  }

  lemma {:induction false} EachFamilyHasOneLiveToken(p: Hasher, s: State, events: seq<Event>)
    requires OneLivePerFamily(s) && Recorded(s) && FreshRun(p, s, events)
    ensures OneLivePerFamily(Run(p, s, events)) && Recorded(Run(p, s, events))
    decreases |events|
  {
    hide Apply, OneLivePerFamily, Recorded;
    if events != [] {
      EventKeepsOneLive(p, s, events[0]);
      HistoryIsKept(p, s, events[0]);
      EachFamilyHasOneLiveToken(p, Apply(p, s, events[0]).state, events[1..]);
    }
  }

  lemma FamiliesFromTheStart(p: Hasher, s: State, events: seq<Event>)
    requires Initial(s) && FreshRun(p, s, events)
    ensures OneLivePerFamily(Run(p, s, events)) && Recorded(Run(p, s, events))
  {
    hide Apply, Run, FreshRun;
    EachFamilyHasOneLiveToken(p, s, events);
  }

  lemma EventKeepsBurned(p: Hasher, s: State, event: Event, family: FamilyId)
    requires Burned(s, family) && Recorded(s) && Fresh(s, event)
    ensures Burned(Apply(p, s, event).state, family)
  {
    hide Apply;
    var t := Apply(p, s, event).state;
    HistoryIsKept(p, s, event);
    forall token | Live(t, token)
      ensures t.tokens[token].familyId != family
    {
      if Mints(event) && token == event.token {
        MintingIsWellFounded(p, s, event);
      } else {
        LiveBefore(p, s, event, token);
      }
    }
  }

  lemma {:induction false} BurnedStaysBurned(p: Hasher, s: State, events: seq<Event>, family: FamilyId)
    requires Burned(s, family) && Recorded(s) && FreshRun(p, s, events)
    ensures Burned(Run(p, s, events), family) && Recorded(Run(p, s, events))
    decreases |events|
  {
    hide Apply, Burned, Recorded;
    if events != [] {
      EventKeepsBurned(p, s, events[0], family);
      HistoryIsKept(p, s, events[0]);
      BurnedStaysBurned(p, Apply(p, s, events[0]).state, events[1..], family);
    }
  }

  /**
   Once a revoked token has been presented, no token of its family ever yields a session again,
   neither the ones already out nor any that follow.
   */
  lemma ReplayBurnsTheFamily(p: Hasher, s: State, presented: Token, newToken: Token, events: seq<Event>,
                             token: Token, another: Token)
    requires Recorded(s) && presented in s.tokens && s.tokens[presented].revoked
    requires var t := Apply(p, s, Refresh(presented, newToken)).state;
             && FreshRun(p, t, events)
             && (token in Run(p, t, events).tokens ==>
                  Run(p, t, events).tokens[token].familyId == s.tokens[presented].familyId)
    ensures var t := Apply(p, s, Refresh(presented, newToken)).state;
            !Apply(p, Run(p, t, events), Refresh(token, another)).answer.Minted?
  {
    hide Run, FreshRun;
    var family := s.tokens[presented].familyId;
    var t := Apply(p, s, Refresh(presented, newToken)).state;
    ReplayRevokes(p, s, presented, newToken);
    BurnedStaysBurned(p, t, events, family);
    assert !Live(Run(p, t, events), token);
  }

  lemma ReplayRevokes(p: Hasher, s: State, presented: Token, newToken: Token)
    requires Recorded(s) && presented in s.tokens && s.tokens[presented].revoked
    ensures var t := Apply(p, s, Refresh(presented, newToken)).state;
            Burned(t, s.tokens[presented].familyId) && Recorded(t)
  {
  }

  // ---------------------------------------------------------------------------
  // Credential changes
  // ---------------------------------------------------------------------------

  /** The token has been handed out and can no longer be redeemed. */
  predicate Dead(s: State, token: Token) {
    token in s.issuedTokens && !Live(s, token)
  }

  /** A successful change of the credential behind a user's sessions. */
  predicate ReplacesCredential(p: Hasher, s: State, event: Event, user: UserId) {
    match event
    case ResetPassword(link, newHash) => IsRedeemable(s, link) && s.links[link].userId == user && newHash.Some?
    case ChangePassword(id, _, _, _, _, _) => id == user && Apply(p, s, event).answer.Minted?
    case SetTemporaryPassword(id, _) => id == user && id in s.users
    case SetActive(id, active) => id == user && id in s.users && !active
    case Erase(id, _) => id == user && id in s.users && !s.users[id].erased
    case _ => false
  }

  lemma ReplacingKillsOldTokens(p: Hasher, s: State, event: Event, user: UserId, token: Token)
    requires ReplacesCredential(p, s, event, user) && Recorded(s) && Fresh(s, event)
    requires token in s.issuedTokens && (token in s.tokens ==> s.tokens[token].userId == user)
    ensures Dead(Apply(p, s, event).state, token)
  {
    HistoryIsKept(p, s, event);
    match event {
      case ResetPassword(_, _) => hide ApplyChangePassword, ApplyLogin, ApplyRefresh;
      case ChangePassword(_, _, _, _, _, _) => hide ApplyResetPassword, ApplyLogin, ApplyRefresh;
      case _ => hide ApplyChangePassword, ApplyResetPassword, ApplyLogin, ApplyRefresh;
    }
  }

  lemma EventKeepsDead(p: Hasher, s: State, event: Event, token: Token)
    requires Dead(s, token) && Recorded(s) && Fresh(s, event)
    ensures Dead(Apply(p, s, event).state, token)
  {
    hide Apply;
    HistoryIsKept(p, s, event);
    TokensOnlyDie(p, s, event, token);
  }

  lemma {:induction false} DeadStaysDead(p: Hasher, s: State, events: seq<Event>, token: Token)
    requires Dead(s, token) && Recorded(s) && FreshRun(p, s, events)
    ensures Dead(Run(p, s, events), token)
    decreases |events|
  {
    hide Apply, Dead, Recorded;
    if events != [] {
      EventKeepsDead(p, s, events[0], token);
      HistoryIsKept(p, s, events[0]);
      DeadStaysDead(p, Apply(p, s, events[0]).state, events[1..], token);
    }
  }

  /**
   A refresh token issued before a successful password change, reset, temporary password,
   deactivation or erasure of its owner never yields a session afterwards.
   */
  lemma CredentialChangesEndSessions(p: Hasher, s: State, event: Event, user: UserId, token: Token,
                                     events: seq<Event>, another: Token)
    requires Recorded(s) && Fresh(s, event) && ReplacesCredential(p, s, event, user)
    requires token in s.issuedTokens && (token in s.tokens ==> s.tokens[token].userId == user)
    requires FreshRun(p, Apply(p, s, event).state, events)
    ensures !Apply(p, Run(p, Apply(p, s, event).state, events), Refresh(token, another)).answer.Minted?
  {
    hide Run, FreshRun, ReplacesCredential;
    ReplacingKillsOldTokens(p, s, event, user, token);
    HistoryIsKept(p, s, event);
    DeadStaysDead(p, Apply(p, s, event).state, events, token);
    DeadTokensMintNothing(p, Run(p, Apply(p, s, event).state, events), token, another);
  }

  lemma DeadTokensMintNothing(p: Hasher, s: State, token: Token, another: Token)
    requires Dead(s, token)
    ensures !Apply(p, s, Refresh(token, another)).answer.Minted?
  {
  }

  // ---------------------------------------------------------------------------
  // The one-time-password flag
  // ---------------------------------------------------------------------------

  /** The owner has chosen a password: the only events that take the flag away. */
  predicate OwnerChooses(p: Hasher, s: State, event: Event, user: UserId) {
    (event.ResetPassword? || event.ChangePassword?) && ReplacesCredential(p, s, event, user)
  }

  ghost predicate OwnerIsSilent(p: Hasher, s: State, events: seq<Event>, user: UserId)
    decreases |events|
  {
    events == []
    || (!OwnerChooses(p, s, events[0], user) && OwnerIsSilent(p, Apply(p, s, events[0]).state, events[1..], user))
  }

  predicate Flagged(s: State, user: UserId) {
    user in s.users && s.users[user].passwordChangeRequired
  }

  /** A login's rehash, a refresh, anybody else's change: none of it takes the flag away. */
  lemma FlagStaysUntilTheOwnerChooses(p: Hasher, s: State, event: Event, user: UserId)
    requires Flagged(s, user) && !OwnerChooses(p, s, event, user)
    ensures Flagged(Apply(p, s, event).state, user)
    ensures Mints(event) ==>
              var answer := Apply(p, s, event).answer;
              answer.Minted? && answer.session.userId == user ==> answer.session.passwordChangeRequired
  {
    match event {
      case Login(_, _, _, _, _) => hide ApplyRefresh, ApplyChangePassword, ApplyResetPassword;
      case Refresh(_, _) => hide ApplyLogin, ApplyChangePassword, ApplyResetPassword;
      case ResetPassword(_, _) => hide ApplyLogin, ApplyChangePassword, ApplyRefresh;
      case ChangePassword(_, _, _, _, _, _) => hide ApplyLogin, ApplyResetPassword, ApplyRefresh;
      case _ => hide ApplyLogin, ApplyChangePassword, ApplyRefresh, ApplyResetPassword;
    }
  }

  /** Every session a run mints. */
  function Sessions(p: Hasher, s: State, events: seq<Event>): seq<Session>
    decreases |events|
  {
    if events == [] then []
    else
      var o := Apply(p, s, events[0]);
      (if o.answer.Minted? then [o.answer.session] else []) + Sessions(p, o.state, events[1..])
  }

  lemma {:induction false} FlaggedUsersGetFlaggedSessions(p: Hasher, s: State, events: seq<Event>, user: UserId)
    requires Flagged(s, user) && OwnerIsSilent(p, s, events, user)
    ensures Flagged(Run(p, s, events), user)
    ensures forall session <- Sessions(p, s, events) :: session.userId == user ==> session.passwordChangeRequired
    decreases |events|
  {
    hide Apply, OwnerChooses;
    if events != [] {
      if !Mints(events[0]) {
        OnlyMintingMints(p, s, events[0]);
      }
      FlagStaysUntilTheOwnerChooses(p, s, events[0], user);
      FlaggedUsersGetFlaggedSessions(p, Apply(p, s, events[0]).state, events[1..], user);
    }
  }

  lemma OnlyMintingMints(p: Hasher, s: State, event: Event)
    requires !Mints(event)
    ensures !Apply(p, s, event).answer.Minted?
  {
  }

  /** From the operator's temporary password until the owner's own choice, every session demands a change. */
  lemma TemporaryPasswordsDemandAChange(p: Hasher, s: State, user: UserId, hash: PasswordHash, events: seq<Event>)
    requires user in s.users
    requires OwnerIsSilent(p, Apply(p, s, SetTemporaryPassword(user, hash)).state, events, user)
    ensures forall session <- Sessions(p, Apply(p, s, SetTemporaryPassword(user, hash)).state, events) ::
              session.userId == user ==> session.passwordChangeRequired
  {
    hide Sessions, OwnerIsSilent, Run;
    FlaggedUsersGetFlaggedSessions(p, Apply(p, s, SetTemporaryPassword(user, hash)).state, events, user);
  }

  // ---------------------------------------------------------------------------
  // Reset links
  // ---------------------------------------------------------------------------

  predicate LinkIsDead(s: State, link: Link) {
    link in s.issuedLinks && !(link in s.links && !s.links[link].consumed)
  }

  /** Redeeming it, asking for another one, or any new password for its owner ends a link. */
  predicate EndsLink(p: Hasher, s: State, event: Event, link: Link)
    requires link in s.links
  {
    var user := s.links[link].userId;
    || (event.ResetPassword? && event.link == link && IsRedeemable(s, link))
    || (event.RequestReset? && event.found == Some(user) && user in s.users && p.mailEnabled)
    || (!event.SetActive? && ReplacesCredential(p, s, event, user))
  }

  lemma EndedLinksAreDead(p: Hasher, s: State, event: Event, link: Link)
    requires Recorded(s) && Fresh(s, event) && link in s.links && EndsLink(p, s, event, link)
    ensures LinkIsDead(Apply(p, s, event).state, link)
  {
    HistoryIsKept(p, s, event);
    match event {
      case ResetPassword(_, _) => hide ApplyChangePassword, ApplyLogin, ApplyRefresh;
      case ChangePassword(_, _, _, _, _, _) => hide ApplyResetPassword, ApplyLogin, ApplyRefresh;
      case _ => hide ApplyChangePassword, ApplyResetPassword, ApplyLogin, ApplyRefresh;
    }
  }

  lemma EventKeepsLinkDead(p: Hasher, s: State, event: Event, link: Link)
    requires Recorded(s) && Fresh(s, event) && LinkIsDead(s, link)
    ensures LinkIsDead(Apply(p, s, event).state, link)
  {
    HistoryIsKept(p, s, event);
    match event {
      case ResetPassword(_, _) => hide ApplyChangePassword, ApplyLogin, ApplyRefresh;
      case ChangePassword(_, _, _, _, _, _) => hide ApplyResetPassword, ApplyLogin, ApplyRefresh;
      case Login(_, _, _, _, _) => hide ApplyChangePassword, ApplyResetPassword, ApplyRefresh;
      case Refresh(_, _) => hide ApplyChangePassword, ApplyResetPassword, ApplyLogin;
      case _ => hide ApplyChangePassword, ApplyResetPassword, ApplyLogin, ApplyRefresh;
    }
  }

  lemma {:induction false} DeadLinksStayDead(p: Hasher, s: State, events: seq<Event>, link: Link)
    requires LinkIsDead(s, link) && Recorded(s) && FreshRun(p, s, events)
    ensures LinkIsDead(Run(p, s, events), link)
    decreases |events|
  {
    hide Apply, LinkIsDead, Recorded;
    if events != [] {
      EventKeepsLinkDead(p, s, events[0], link);
      HistoryIsKept(p, s, events[0]);
      DeadLinksStayDead(p, Apply(p, s, events[0]).state, events[1..], link);
    }
  }

  /** A link opens once, and not at all once its owner has a newer link or a new password. */
  lemma ResetLinksOpenOnce(p: Hasher, s: State, event: Event, link: Link, events: seq<Event>, newHash: Option<PasswordHash>)
    requires Recorded(s) && Fresh(s, event) && link in s.links && EndsLink(p, s, event, link)
    requires FreshRun(p, Apply(p, s, event).state, events)
    ensures var t := Run(p, Apply(p, s, event).state, events);
            Apply(p, t, ResetPassword(link, newHash)) == Outcome(t, Refused(InvalidInput))
  {
    hide Run, FreshRun, EndsLink;
    EndedLinksAreDead(p, s, event, link);
    HistoryIsKept(p, s, event);
    DeadLinksStayDead(p, Apply(p, s, event).state, events, link);
    hide ApplyLogin, ApplyRefresh, ApplyChangePassword;
  }

  // ---------------------------------------------------------------------------
  // Between the read and the write of one call
  // ---------------------------------------------------------------------------

  /** Families have one live token at most, and none of those without one has got one again. */
  ghost predicate KeepsFamilies(s: State, t: State) {
    OneLivePerFamily(t) && forall family :: Burned(s, family) ==> Burned(t, family)
  }

  /**
   A rotation that comes some time after its read keeps the families exactly when the token it read is
   still there and unrevoked: the test its own update makes, and its insert does not.
   */
  lemma RotationKeepsFamiliesIffTokenLives(p: Hasher, s: State, previous: Token, user: UserId, family: FamilyId, token: Token)
    requires OneLivePerFamily(s) && token !in s.tokens && family in s.families
    requires previous in s.tokens ==> s.tokens[previous].familyId == family
    ensures KeepsFamilies(s, Rotated(p, s, previous, user, family, token)) <==> Live(s, previous)
  {
    var t := Rotated(p, s, previous, user, family, token);
    assert Live(t, token) && t.tokens[token].familyId == family;
    forall other | other != token
      ensures Live(t, other) <==> Live(s, other) && other != previous
      ensures other in s.tokens ==> other in t.tokens && t.tokens[other].familyId == s.tokens[other].familyId
    {
    }
    if !Live(s, previous) {
      if other :| Live(s, other) && s.tokens[other].familyId == family {
        assert Live(t, other);
      } else {
        assert Burned(s, family) && !Burned(t, family);
      }
    } else {
      assert !Burned(s, family);
    }
  }

  /** Two refreshes that both find one live token leave its family with two. */
  lemma ConcurrentRefreshesForkTheFamily(p: Hasher, s: State, presented: Token, a: Token, b: Token)
    requires Live(s, presented) && a !in s.tokens && b !in s.tokens && a != b
    ensures var stored := s.tokens[presented];
            var first := Rotated(p, s, presented, stored.userId, stored.familyId, a);
            var second := Rotated(p, first, presented, stored.userId, stored.familyId, b);
            && Live(second, a) && Live(second, b)
            && second.tokens[a].familyId == second.tokens[b].familyId == stored.familyId
            && !OneLivePerFamily(second)
  {
    var stored := s.tokens[presented];
    var first := Rotated(p, s, presented, stored.userId, stored.familyId, a);
    var second := Rotated(p, first, presented, stored.userId, stored.familyId, b);
    assert Live(second, a) && Live(second, b);
  }

  /** A refresh that read before an operator's temporary password and rotates after it keeps its user signed in. */
  lemma LateRotationOutlivesRevocation(p: Hasher, s: State, presented: Token, hash: PasswordHash, token: Token)
    requires Live(s, presented) && s.tokens[presented].userId in s.users && token !in s.tokens
    ensures var stored := s.tokens[presented];
            var replaced := Apply(p, s, SetTemporaryPassword(stored.userId, hash)).state;
            var late := Rotated(p, replaced, presented, stored.userId, stored.familyId, token);
            Live(late, token) && late.tokens[token].userId == stored.userId && !Live(replaced, presented)
  {
    hide ApplyLogin, ApplyRefresh, ApplyChangePassword, ApplyResetPassword;
  }
}

/**
 A refresh reads its token first and rotates it later; here other calls, other reads and other
 rotations come in between. The families are kept throughout a run exactly when every rotation finds
 the token it read unrevoked, and a run in which each also comes before its token expires is a run of
 whole calls. Two runs show what happens otherwise.
 */
module AuthRaces {
  import opened Common
  import opened Auth

  type RequestId = nat

  /** What a refresh has read and is about to act on. */
  datatype Rotation = Rotation(previous: Token, userId: UserId, familyId: FamilyId, passwordChangeRequired: bool)

  datatype Racing = Racing(auth: State, pending: map<RequestId, Rotation>)

  /** A refresh that will be refused is a whole call: what it writes only revokes. */
  datatype Move =
    | Whole(event: Event)
    | Read(request: RequestId, presented: Token)
    | Rotate(request: RequestId, token: Token)
    | Drop(request: RequestId)

  /** The checks of `refresh` up to the rotation. */
  predicate MayRotate(s: State, presented: Token) {
    && Live(s, presented) && s.tokens[presented].expiresAt > s.now
    && s.tokens[presented].userId in s.users && s.users[s.tokens[presented].userId].isActive
  }

  function RotationOf(s: State, presented: Token): Rotation
    requires MayRotate(s, presented)
  {
    var stored := s.tokens[presented];
    Rotation(presented, stored.userId, stored.familyId, s.users[stored.userId].passwordChangeRequired)
  }

  function Turned(p: Hasher, s: State, rotation: Rotation, token: Token): State {
    Rotated(p, s, rotation.previous, rotation.userId, rotation.familyId, token)
  }

  function Next(p: Hasher, r: Racing, move: Move): Racing {
    match move
    case Whole(event) => r.(auth := Apply(p, r.auth, event).state)
    case Read(request, presented) =>
      if request in r.pending || !MayRotate(r.auth, presented) then r
      else r.(pending := r.pending[request := RotationOf(r.auth, presented)])
    case Rotate(request, token) =>
      if request !in r.pending then r
      else Racing(Turned(p, r.auth, r.pending[request], token), r.pending - {request})
    case Drop(request) => r.(pending := r.pending - {request})
  }

  function AfterAll(p: Hasher, r: Racing, moves: seq<Move>): Racing
    decreases |moves|
  {
    if moves == [] then r else AfterAll(p, Next(p, r, moves[0]), moves[1..])
  }

  predicate IsFresh(r: Racing, move: Move) {
    match move
    case Whole(event) => Fresh(r.auth, event)
    case Rotate(_, token) => token !in r.auth.issuedTokens
    case _ => true
  }

  predicate FreshMoves(p: Hasher, r: Racing, moves: seq<Move>)
    decreases |moves|
  {
    moves == [] || (IsFresh(r, moves[0]) && FreshMoves(p, Next(p, r, moves[0]), moves[1..]))
  }

  // ---------------------------------------------------------------------------
  // What a read still knows
  // ---------------------------------------------------------------------------

  /** The token is whose it was and of the family it was; and while it lives, so is what was read of its owner. */
  ghost predicate StillKnows(s: State, rotation: Rotation) {
    && rotation.familyId in s.families && rotation.previous in s.issuedTokens
    && (rotation.previous in s.tokens ==>
         && s.tokens[rotation.previous].familyId == rotation.familyId
         && s.tokens[rotation.previous].userId == rotation.userId)
    && (Live(s, rotation.previous) ==> OwnerIsAsRead(s, rotation))
  }

  predicate OwnerIsAsRead(s: State, rotation: Rotation) {
    && rotation.userId in s.users && s.users[rotation.userId].isActive
    && s.users[rotation.userId].passwordChangeRequired == rotation.passwordChangeRequired
  }

  ghost predicate ReadsKnow(r: Racing) {
    Recorded(r.auth) && forall request <- r.pending :: StillKnows(r.auth, r.pending[request])
  }

  /** Whoever takes an account away or changes its flag revokes its tokens in the same statement. */
  lemma LiveTokensKeepTheirOwners(p: Hasher, s: State, event: Event, rotation: Rotation)
    requires Live(s, rotation.previous) && Live(Apply(p, s, event).state, rotation.previous)
    requires s.tokens[rotation.previous].userId == rotation.userId && OwnerIsAsRead(s, rotation)
    requires Mints(event) ==> rotation.previous != event.token
    ensures OwnerIsAsRead(Apply(p, s, event).state, rotation)
  {
    match event {
      case Login(_, _, _, _, _) => hide ApplyRefresh, ApplyChangePassword, ApplyResetPassword, ApplySetTemporaryPassword;
      case Refresh(_, _) => hide ApplyLogin, ApplyChangePassword, ApplyResetPassword, ApplySetTemporaryPassword;
      case ChangePassword(_, _, _, _, _, _) => hide ApplyLogin, ApplyRefresh, ApplyResetPassword, ApplySetTemporaryPassword;
      case ResetPassword(_, _) => hide ApplyLogin, ApplyRefresh, ApplyChangePassword, ApplySetTemporaryPassword;
      case _ => hide ApplyLogin, ApplyRefresh, ApplyChangePassword, ApplyResetPassword;
    }
  }

  lemma EventLeavesReadsKnown(p: Hasher, s: State, event: Event, rotation: Rotation)
    requires Recorded(s) && Fresh(s, event) && StillKnows(s, rotation)
    ensures StillKnows(Apply(p, s, event).state, rotation)
  {
    hide Apply, OwnerIsAsRead;
    HistoryIsKept(p, s, event);
    TokensOnlyDie(p, s, event, rotation.previous);
    if Live(Apply(p, s, event).state, rotation.previous) {
      LiveTokensKeepTheirOwners(p, s, event, rotation);
    }
  }

  lemma TurningLeavesReadsKnown(p: Hasher, s: State, turned: Rotation, token: Token, rotation: Rotation)
    requires Recorded(s) && token !in s.issuedTokens && StillKnows(s, turned) && StillKnows(s, rotation)
    ensures Recorded(Turned(p, s, turned, token)) && StillKnows(Turned(p, s, turned, token), rotation)
  {
  }

  lemma MoveLeavesReadsKnown(p: Hasher, r: Racing, move: Move)
    requires ReadsKnow(r) && IsFresh(r, move)
    ensures ReadsKnow(Next(p, r, move))
  {
    hide Apply, Turned, StillKnows, Recorded;
    match move
    case Whole(event) =>
      HistoryIsKept(p, r.auth, event);
      forall request <- r.pending
        ensures StillKnows(Apply(p, r.auth, event).state, r.pending[request])
      {
        EventLeavesReadsKnown(p, r.auth, event, r.pending[request]);
      }
    case Read(request, presented) =>
      if MayRotate(r.auth, presented) {
        FreshReadsKnow(r.auth, presented);
      }
    case Rotate(request, token) =>
      if request in r.pending {
        TurningLeavesReadsKnown(p, r.auth, r.pending[request], token, r.pending[request]);
        forall other <- r.pending
          ensures StillKnows(Turned(p, r.auth, r.pending[request], token), r.pending[other])
        {
          TurningLeavesReadsKnown(p, r.auth, r.pending[request], token, r.pending[other]);
        }
      }
    case Drop(_) =>
  }

  lemma FreshReadsKnow(s: State, presented: Token)
    requires Recorded(s) && MayRotate(s, presented)
    ensures StillKnows(s, RotationOf(s, presented))
  {
  }

  // ---------------------------------------------------------------------------
  // Exactly when the families are kept
  // ---------------------------------------------------------------------------

  /** If this move rotates, the token it read is still there and unrevoked. */
  predicate FindsItsToken(r: Racing, move: Move) {
    move.Rotate? && move.request in r.pending ==> Live(r.auth, r.pending[move.request].previous)
  }

  predicate RotationsFindTheirTokens(p: Hasher, r: Racing, moves: seq<Move>)
    decreases |moves|
  {
    moves == [] || (FindsItsToken(r, moves[0]) && RotationsFindTheirTokens(p, Next(p, r, moves[0]), moves[1..]))
  }

  /** In every state passed through families have one live token at most, and burned ones stay burned. */
  ghost predicate FamiliesAlwaysKept(p: Hasher, r: Racing, moves: seq<Move>)
    decreases |moves|
  {
    moves == [] || (KeepsFamilies(r.auth, Next(p, r, moves[0]).auth) && FamiliesAlwaysKept(p, Next(p, r, moves[0]), moves[1..]))
  }

  lemma WholeCallsKeepFamilies(p: Hasher, s: State, event: Event)
    requires OneLivePerFamily(s) && Recorded(s) && Fresh(s, event)
    ensures KeepsFamilies(s, Apply(p, s, event).state)
  {
    hide Apply, OneLivePerFamily, Burned;
    EventKeepsOneLive(p, s, event);
    forall family | Burned(s, family)
      ensures Burned(Apply(p, s, event).state, family)
    {
      EventKeepsBurned(p, s, event, family);
    }
  }

  lemma MoveKeepsFamiliesIffItFindsItsToken(p: Hasher, r: Racing, move: Move)
    requires ReadsKnow(r) && OneLivePerFamily(r.auth) && IsFresh(r, move)
    ensures KeepsFamilies(r.auth, Next(p, r, move).auth) <==> FindsItsToken(r, move)
  {
    hide Apply, OneLivePerFamily, Burned, Rotated;
    match move
    case Whole(event) => WholeCallsKeepFamilies(p, r.auth, event);
    case Rotate(request, token) =>
      if request in r.pending {
        var read := r.pending[request];
        RotationKeepsFamiliesIffTokenLives(p, r.auth, read.previous, read.userId, read.familyId, token);
      }
    case _ =>
  }

  lemma {:induction false} FamiliesKeptIffRotationsFindTheirTokens(p: Hasher, r: Racing, moves: seq<Move>)
    requires ReadsKnow(r) && OneLivePerFamily(r.auth) && FreshMoves(p, r, moves)
    ensures FamiliesAlwaysKept(p, r, moves) <==> RotationsFindTheirTokens(p, r, moves)
    decreases |moves|
  {
    hide Next, ReadsKnow, OneLivePerFamily, FindsItsToken, Burned, IsFresh;
    if moves != [] {
      MoveKeepsFamiliesIffItFindsItsToken(p, r, moves[0]);
      MoveLeavesReadsKnown(p, r, moves[0]);
      if FindsItsToken(r, moves[0]) {
        FamiliesKeptIffRotationsFindTheirTokens(p, Next(p, r, moves[0]), moves[1..]);
      }
    }
  }

  lemma FromTheStartFamiliesKeptIffRotationsFindTheirTokens(p: Hasher, s: State, moves: seq<Move>)
    requires Initial(s) && FreshMoves(p, Racing(s, map[]), moves)
    ensures FamiliesAlwaysKept(p, Racing(s, map[]), moves) <==> RotationsFindTheirTokens(p, Racing(s, map[]), moves)
  {
    hide FreshMoves, FamiliesAlwaysKept, RotationsFindTheirTokens;
    FamiliesKeptIffRotationsFindTheirTokens(p, Racing(s, map[]), moves);
  }

  // ---------------------------------------------------------------------------
  // Races that are none
  // ---------------------------------------------------------------------------

  /** If this move rotates, its token has not expired since it was read. */
  predicate IsPrompt(r: Racing, move: Move) {
    move.Rotate? && move.request in r.pending && r.pending[move.request].previous in r.auth.tokens ==>
      r.auth.tokens[r.pending[move.request].previous].expiresAt > r.auth.now
  }

  predicate AllPrompt(p: Hasher, r: Racing, moves: seq<Move>)
    decreases |moves|
  {
    moves == [] || (IsPrompt(r, moves[0]) && AllPrompt(p, Next(p, r, moves[0]), moves[1..]))
  }

  /** The same calls, each refresh as a whole at the moment of its rotation. */
  function SerialMove(r: Racing, move: Move): seq<Event> {
    match move
    case Whole(event) => [event]
    case Rotate(request, token) => if request in r.pending then [Refresh(r.pending[request].previous, token)] else []
    case _ => []
  }

  function Serial(p: Hasher, r: Racing, moves: seq<Move>): seq<Event>
    decreases |moves|
  {
    if moves == [] then [] else SerialMove(r, moves[0]) + Serial(p, Next(p, r, moves[0]), moves[1..])
  }

  /** A prompt rotation that finds its token does, and answers, what a whole refresh would just then. */
  lemma PromptRotationIsARefresh(p: Hasher, s: State, rotation: Rotation, token: Token)
    requires StillKnows(s, rotation) && Live(s, rotation.previous) && s.tokens[rotation.previous].expiresAt > s.now
    ensures Apply(p, s, Refresh(rotation.previous, token))
         == Outcome(Turned(p, s, rotation, token),
                    Minted(Session(rotation.userId, rotation.passwordChangeRequired, token)))
  {
    hide ApplyLogin, ApplyChangePassword, ApplyResetPassword, ApplySetTemporaryPassword;
  }

  lemma OneMoreCall(p: Hasher, s: State, event: Event, rest: seq<Event>)
    ensures Run(p, s, [event] + rest) == Run(p, Apply(p, s, event).state, rest)
    ensures Fresh(s, event) && FreshRun(p, Apply(p, s, event).state, rest) ==> FreshRun(p, s, [event] + rest)
  {
    hide Apply;
    assert ([event] + rest)[1..] == rest;
  }

  /**
   A run whose rotations all find their tokens, unexpired, leads where the same whole calls lead: it has
   everything proved of those, the end of sessions at a credential change and the flag included.
   */
  lemma {:induction false} PromptRacesAreSerial(p: Hasher, r: Racing, moves: seq<Move>)
    requires ReadsKnow(r) && FreshMoves(p, r, moves)
    requires RotationsFindTheirTokens(p, r, moves) && AllPrompt(p, r, moves)
    ensures AfterAll(p, r, moves).auth == Run(p, r.auth, Serial(p, r, moves))
    ensures FreshRun(p, r.auth, Serial(p, r, moves))
    decreases |moves|
  {
    hide Apply, ReadsKnow, Turned, StillKnows, Run, FreshRun, Live;
    if moves == [] {
      NoCalls(p, r.auth);
    } else {
      var move, next := moves[0], Next(p, r, moves[0]);
      var rest := Serial(p, next, moves[1..]);
      MoveLeavesReadsKnown(p, r, move);
      PromptRacesAreSerial(p, next, moves[1..]);
      match move {
        case Whole(event) => OneMoreCall(p, r.auth, event, rest);
        case Rotate(request, token) =>
          if request in r.pending {
            FoundTokenIsKnown(r, move);
            PromptRotationIsARefresh(p, r.auth, r.pending[request], token);
            OneMoreCall(p, r.auth, Refresh(r.pending[request].previous, token), rest);
          } else {
            assert [] + rest == rest;
          }
        case _ => assert [] + rest == rest;
      }
    }
  }

  lemma NoCalls(p: Hasher, s: State)
    ensures Run(p, s, []) == s && FreshRun(p, s, [])
  {
  }

  lemma FoundTokenIsKnown(r: Racing, move: Move)
    requires ReadsKnow(r) && move.Rotate? && move.request in r.pending && FindsItsToken(r, move) && IsPrompt(r, move)
    ensures var read := r.pending[move.request];
            StillKnows(r.auth, read) && Live(r.auth, read.previous) && r.auth.tokens[read.previous].expiresAt > r.auth.now
  {
    hide StillKnows;
  }

  // ---------------------------------------------------------------------------
  // Races that are
  // ---------------------------------------------------------------------------

  predicate CanSignIn(p: Hasher, s: State, user: UserId, password: Password) {
    && user in s.users && p.verify(password, s.users[user].passwordHash) && s.users[user].isActive
    && (p.requireVerifiedEmail ==> s.users[user].emailVerified) && p.refreshTtl > 0
  }

  /** Signing in, and the new token read by some refreshes. */
  lemma SignedInAndRead(p: Hasher, s: State, user: UserId, password: Password, family: FamilyId, token: Token)
    returns (moves: seq<Move>, t: State)
    requires Initial(s) && CanSignIn(p, s, user, password)
    ensures moves == [Whole(Login(Some(user), password, None, family, token)), Read(1, token), Read(2, token)]
    ensures t == Issued(p, s, user, family, token) && MayRotate(t, token)
    ensures var r := Racing(s, map[]);
            && FreshMoves(p, r, moves)
            && AfterAll(p, r, moves) == Racing(t, map[1 := RotationOf(t, token), 2 := RotationOf(t, token)])
  {
    hide ApplyRefresh, ApplyChangePassword, ApplyResetPassword, ApplySetTemporaryPassword;
    var login := Login(Some(user), password, None, family, token);
    moves := [Whole(login), Read(1, token), Read(2, token)];
    t := Issued(p, s, user, family, token);
    var r0, r1 := Racing(s, map[]), Racing(t, map[]);
    assert Apply(p, s, login).state == t;
    var r2 := r1.(pending := map[1 := RotationOf(t, token)]);
    var r3 := r1.(pending := map[1 := RotationOf(t, token), 2 := RotationOf(t, token)]);
    assert Next(p, r0, moves[0]) == r1 && Next(p, r1, moves[1]) == r2 && Next(p, r2, moves[2]) == r3;
    ThreeMoves(p, r0, r1, r2, r3, moves);
  }

  lemma ThreeMoves(p: Hasher, r0: Racing, r1: Racing, r2: Racing, r3: Racing, moves: seq<Move>)
    requires |moves| == 3
    requires Next(p, r0, moves[0]) == r1 && Next(p, r1, moves[1]) == r2 && Next(p, r2, moves[2]) == r3
    requires IsFresh(r0, moves[0]) && IsFresh(r1, moves[1]) && IsFresh(r2, moves[2])
    ensures AfterAll(p, r0, moves) == r3 && FreshMoves(p, r0, moves)
  {
    hide Next, IsFresh;
    assert moves[1..][1..] == [moves[2]] && moves[1..][1..][1..] == [];
    assert AfterAll(p, r2, [moves[2]]) == r3 && FreshMoves(p, r2, [moves[2]]);
    assert AfterAll(p, r1, moves[1..]) == r3 && FreshMoves(p, r1, moves[1..]);
  }

  lemma {:induction false} MovesCompose(p: Hasher, r: Racing, first: seq<Move>, second: seq<Move>)
    ensures AfterAll(p, r, first + second) == AfterAll(p, AfterAll(p, r, first), second)
    ensures FreshMoves(p, r, first) && FreshMoves(p, AfterAll(p, r, first), second) ==> FreshMoves(p, r, first + second)
    decreases |first|
  {
    hide Next, IsFresh;
    if first == [] {
      assert first + second == second;
    } else {
      assert (first + second)[1..] == first[1..] + second;
      MovesCompose(p, Next(p, r, first[0]), first[1..], second);
    }
  }

  lemma TwoMoves(p: Hasher, r0: Racing, moves: seq<Move>)
    requires |moves| == 2 && IsFresh(r0, moves[0]) && IsFresh(Next(p, r0, moves[0]), moves[1])
    ensures AfterAll(p, r0, moves) == Next(p, Next(p, r0, moves[0]), moves[1]) && FreshMoves(p, r0, moves)
  {
    hide Next, IsFresh;
    assert moves[1..] == [moves[1]] && moves[1..][1..] == [];
    var r1 := Next(p, r0, moves[0]);
    assert AfterAll(p, r1, [moves[1]]) == Next(p, r1, moves[1]) && FreshMoves(p, r1, [moves[1]]);
  }

  /** From empty tables: sign in, read the token twice, rotate it twice. The family has two live tokens. */
  lemma ReadingTwiceForksTheFamily(p: Hasher, s: State, user: UserId, password: Password, family: FamilyId,
                                   token: Token, a: Token, b: Token)
    returns (moves: seq<Move>)
    requires Initial(s) && CanSignIn(p, s, user, password) && a != token && b != token && a != b
    ensures var r := Racing(s, map[]);
            FreshMoves(p, r, moves) && !OneLivePerFamily(AfterAll(p, r, moves).auth)
  {
    hide Issued, MayRotate, OneLivePerFamily, FreshMoves, AfterAll;
    var opening, t := SignedInAndRead(p, s, user, password, family, token);
    var rotating := [Rotate(1, a), Rotate(2, b)];
    moves := opening + rotating;
    NothingElseIsIssued(p, s, t, user, family, token);
    TurningIssues(p, t, RotationOf(t, token), a);
    TwoMoves(p, Racing(t, map[1 := RotationOf(t, token), 2 := RotationOf(t, token)]), rotating);
    MovesCompose(p, Racing(s, map[]), opening, rotating);
    ConcurrentRefreshesForkTheFamily(p, t, token, a, b);
  }

  lemma TurningIssues(p: Hasher, s: State, rotation: Rotation, token: Token)
    ensures Turned(p, s, rotation, token).issuedTokens == s.issuedTokens + {token}
  {
  }

  lemma NothingElseIsIssued(p: Hasher, s: State, t: State, user: UserId, family: FamilyId, token: Token)
    requires Initial(s) && t == Issued(p, s, user, family, token)
    ensures t.issuedTokens == {token} && t.tokens.Keys == {token} && Live(t, token) && t.users == s.users
    ensures t.tokens[token].userId == user && t.tokens[token].familyId == family
  {
  }

  /**
   From empty tables: sign in, read the token, let an operator set a temporary password, rotate. The
   revocation has burned the family, and the rotation gives it a token that yields a session.
   */
  lemma LateRotationRevivesABurnedFamily(p: Hasher, s: State, user: UserId, password: Password, family: FamilyId,
                                         token: Token, hash: PasswordHash, a: Token, b: Token)
    returns (moves: seq<Move>)
    requires Initial(s) && CanSignIn(p, s, user, password) && a != token
    ensures |moves| > 0
    ensures var r := Racing(s, map[]);
            && FreshMoves(p, r, moves)
            && Burned(AfterAll(p, r, moves[..|moves| - 1]).auth, family)
            && Apply(p, AfterAll(p, r, moves).auth, Refresh(a, b)).answer.Minted?
  {
    hide ApplyLogin, ApplyChangePassword, ApplyResetPassword, FreshMoves, AfterAll;
    var opening, t := SignedInAndRead(p, s, user, password, family, token);
    var r3 := Racing(t, map[1 := RotationOf(t, token), 2 := RotationOf(t, token)]);
    var replacing := [Whole(SetTemporaryPassword(user, hash)), Rotate(1, a)];
    moves := opening + replacing;
    NothingElseIsIssued(p, s, t, user, family, token);
    TwoMoves(p, r3, replacing);
    OneMove(p, r3, replacing[0]);
    MovesCompose(p, Racing(s, map[]), opening, replacing);
    MovesCompose(p, Racing(s, map[]), opening, [replacing[0]]);
    assert moves[..|moves| - 1] == opening + [replacing[0]];
    LateRotationOutlivesRevocation(p, t, token, hash, a);
  }

  lemma OneMove(p: Hasher, r: Racing, move: Move)
    ensures AfterAll(p, r, [move]) == Next(p, r, move)
  {
    hide Next;
    assert [move][1..] == [];
  }
}

/**
 `AuthService` as the code runs it: repository statements one after the other, each method tied to
 the event it is in `Auth`.
 */
module AuthServices {
  import opened Common
  import opened Auth

  class AuthService {
    const p: Hasher

    var now: int
    var users: map<UserId, User>
    var tokens: map<Token, RefreshToken>
    var links: map<Link, ResetLink>

    ghost var issuedTokens: set<Token>
    ghost var families: set<FamilyId>
    ghost var issuedLinks: set<Link>

    constructor (p: Hasher)
      ensures this.p == p && Initial(Snapshot())
    {
      this.p := p;
      now, users, tokens, links := 0, map[], map[], map[];
      issuedTokens, families, issuedLinks := {}, {}, {};
    }

    ghost function Snapshot(): State
      reads this
    {
      State(now, users, tokens, links, issuedTokens, families, issuedLinks)
    }

    // -------------------------------------------------------------------------
    // Repository statements
    // -------------------------------------------------------------------------

    method Issue(user: UserId, family: FamilyId, token: Token)
      modifies this`tokens, this`issuedTokens, this`families
      ensures Snapshot() == Issued(p, old(Snapshot()), user, family, token)
    {
      tokens := tokens[token := RefreshToken(user, family, false, now + p.refreshTtl)];
      issuedTokens, families := issuedTokens + {token}, families + {family};
    }

    method RevokeById(token: Token)
      modifies this`tokens
      ensures tokens == RevokedOne(old(tokens), token)
    {
      if token in tokens && !tokens[token].revoked {
        tokens := tokens[token := tokens[token].(revoked := true)];
      }
    }

    method RevokeFamily(family: FamilyId)
      modifies this`tokens
      ensures tokens == RevokedFamily(old(tokens), family)
    {
      tokens := RevokedFamily(tokens, family);
    }

    method RevokeAllForUser(user: UserId)
      modifies this`tokens
      ensures tokens == RevokedUser(old(tokens), user)
    {
      tokens := RevokedUser(tokens, user);
    }

    method InvalidateAll(user: UserId)
      modifies this`links
      ensures links == InvalidatedLinks(old(links), user)
    {
      links := InvalidatedLinks(links, user);
    }

    method Consume(link: Link) returns (owner: Option<UserId>)
      modifies this`links
      ensures owner == if IsRedeemable(old(Snapshot()), link) then Some(old(links)[link].userId) else None
      ensures links == if owner.Some? then old(links)[link := old(links)[link].(consumed := true)] else old(links)
    {
      if link !in links || links[link].consumed || links[link].expiresAt <= now {
        return None;
      }
      owner := Some(links[link].userId);
      links := links[link := links[link].(consumed := true)];
    }

    method UpdatePasswordHash(user: UserId, hash: PasswordHash)
      modifies this`users
      ensures users == if user in old(users)
                       then old(users)[user := old(users)[user].(passwordHash := hash, passwordChangeRequired := false)]
                       else old(users)
    {
      if user in users {
        users := users[user := users[user].(passwordHash := hash, passwordChangeRequired := false)];
      }
    }

    // -------------------------------------------------------------------------
    // Service calls
    // -------------------------------------------------------------------------

    /** `issueSession`: rotates when there is a token to rotate. */
    method IssueSession(id: UserId, user: User, family: FamilyId, rotates: Option<Token>, token: Token)
      returns (session: Session)
      modifies this`tokens, this`issuedTokens, this`families
      ensures session == Session(id, user.passwordChangeRequired, token)
      ensures Snapshot() == match rotates
                            case Some(previous) => Rotated(p, old(Snapshot()), previous, id, family, token)
                            case None => Issued(p, old(Snapshot()), id, family, token)
    {
      if rotates.Some? {
        RevokeById(rotates.value);
      }
      Issue(id, family, token);
      return Session(id, user.passwordChangeRequired, token);
    }

    method SignIn(found: Option<UserId>, password: Password, upgraded: Option<PasswordHash>, family: FamilyId, token: Token)
      returns (answer: Answer)
      modifies this
      ensures Outcome(Snapshot(), answer) == Apply(p, old(Snapshot()), Login(found, password, upgraded, family, token))
    {
      hide ApplyRefresh, ApplyChangePassword, ApplyResetPassword;
      if found.None? || found.value !in users {
        return Refused(Unauthenticated);
      }
      var id := found.value;
      var user := users[id];
      if !p.verify(password, user.passwordHash) {
        return Refused(Unauthenticated);
      }
      if !user.isActive {
        return Refused(Forbidden);
      }
      if p.requireVerifiedEmail && !user.emailVerified {
        return Refused(Forbidden);
      }
      if p.needsRehash(user.passwordHash) {
        if upgraded.Some? {
          users := users[id := users[id].(passwordHash := upgraded.value)];
        }
      }
      var session := IssueSession(id, user, family, None, token);
      return Minted(session);
    }

    method RefreshWith(presented: Token, token: Token) returns (answer: Answer)
      modifies this
      ensures Outcome(Snapshot(), answer) == Apply(p, old(Snapshot()), Refresh(presented, token))
    {
      hide ApplyLogin, ApplyChangePassword, ApplyResetPassword;
      if presented !in tokens {
        return Refused(Unauthenticated);
      }
      var stored := tokens[presented];
      if stored.revoked {
        RevokeFamily(stored.familyId);
        return Refused(Unauthenticated);
      }
      if stored.expiresAt <= now {
        RevokeById(presented);
        return Refused(Unauthenticated);
      }
      if stored.userId !in users {
        RevokeFamily(stored.familyId);
        return Refused(Unauthenticated);
      }
      var user := users[stored.userId];
      if !user.isActive {
        RevokeAllForUser(stored.userId);
        return Refused(Forbidden);
      }
      var session := IssueSession(stored.userId, user, stored.familyId, Some(presented), token);
      return Minted(session);
    }

    method SignOut(presented: Token)
      modifies this
      ensures Snapshot() == Apply(p, old(Snapshot()), Logout(presented)).state
    {
      if presented in tokens {
        RevokeById(presented);
      }
    }

    method RequestPasswordReset(found: Option<UserId>, link: Link)
      modifies this
      ensures Snapshot() == Apply(p, old(Snapshot()), RequestReset(found, link)).state
    {
      hide ApplyLogin, ApplyRefresh, ApplyChangePassword, ApplyResetPassword;
      if found.None? || found.value !in users || !p.mailEnabled {
        return;
      }
      InvalidateAll(found.value);
      links := links[link := ResetLink(found.value, false, now + p.resetTtl)];
      issuedLinks := issuedLinks + {link};
    }

    method Reset(link: Link, newHash: Option<PasswordHash>) returns (answer: Answer)
      modifies this
      ensures Outcome(Snapshot(), answer) == Apply(p, old(Snapshot()), ResetPassword(link, newHash))
    {
      hide ApplyLogin, ApplyRefresh, ApplyChangePassword;
      var owner := Consume(link);
      if owner.None? {
        return Refused(InvalidInput);
      }
      if newHash.None? {
        return Refused(DependencyFailure);
      }
      UpdatePasswordHash(owner.value, newHash.value);
      RevokeAllForUser(owner.value);
      InvalidateAll(owner.value);
      return Done;
    }

    method Change(id: UserId, current: Password, next: Password, newHash: Option<PasswordHash>, family: FamilyId, token: Token)
      returns (answer: Answer)
      modifies this
      ensures Outcome(Snapshot(), answer)
           == Apply(p, old(Snapshot()), ChangePassword(id, current, next, newHash, family, token))
    {
      hide ApplyLogin, ApplyRefresh, ApplyResetPassword;
      if id !in users {
        return Refused(Unauthenticated);
      }
      var user := users[id];
      if !p.verify(current, user.passwordHash) {
        return Refused(Unauthenticated);
      }
      if !user.isActive {
        return Refused(Forbidden);
      }
      if p.verify(next, user.passwordHash) {
        return Refused(InvalidInput);
      }
      if newHash.None? {
        return Refused(DependencyFailure);
      }
      UpdatePasswordHash(id, newHash.value);
      RevokeAllForUser(id);
      InvalidateAll(id);
      var session := IssueSession(id, users[id], family, None, token);
      return Minted(session);
    }

    /** `setTemporaryPassword`: four effects of one statement. */
    method ReplacePassword(id: UserId, hash: PasswordHash)
      modifies this
      ensures Snapshot() == Apply(p, old(Snapshot()), SetTemporaryPassword(id, hash)).state
    {
      hide ApplyLogin, ApplyRefresh, ApplyResetPassword, ApplyChangePassword;
      if id in users {
        users := users[id := users[id].(passwordHash := hash, passwordChangeRequired := true)];
        RevokeAllForUser(id);
        InvalidateAll(id);
      }
    }

    method Activate(id: UserId, active: bool)
      modifies this
      ensures Snapshot() == Apply(p, old(Snapshot()), SetActive(id, active)).state
    {
      hide ApplyLogin, ApplyRefresh, ApplyResetPassword, ApplyChangePassword;
      if id in users {
        users := users[id := users[id].(isActive := active)];
        if !active {
          RevokeAllForUser(id);
        }
      }
    }
  }
}

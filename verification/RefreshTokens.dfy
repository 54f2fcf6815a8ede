/**
 Accounts and refresh tokens: login with lockout, rotation on refresh, replay detection,
 logout and password change (the rotation scheme described in section 10.4 of RFC 6749).

 A row's index is its id. Token secrets are fresh and their hashes injective, so a token is
 presented by the index of its row; an index out of range stands for any other string.
 */
module RefreshTokens {
  import opened Wrappers

  datatype User = User(email: nat, password: nat, active: bool, failed: nat, lockedUntil: Option<int>)

  datatype Token = Token(
    user: nat, family: nat, parent: Option<nat>, expiresAt: int, used: bool, revoked: bool, replacedBy: Option<nat>)

  datatype Config = Config(lifetime: int, lockout: int, maxFailed: int)

  datatype Accounts = Accounts(users: seq<User>, tokens: seq<Token>)

  // ------------------------------------------------------------------ operations

  function FindUser(users: seq<User>, email: nat): Option<nat> {
    if users == [] then None
    else
      var found := FindUser(users[..|users| - 1], email);
      if found.Some? then found
      else if users[|users| - 1].email == email then Some(|users| - 1) else None
  }

  lemma {:induction false} FindUserInRange(users: seq<User>, email: nat)
    ensures FindUser(users, email).Some? ==>
              FindUser(users, email).value < |users| && users[FindUser(users, email).value].email == email
  {
    if users != [] { FindUserInRange(users[..|users| - 1], email); }
  }

  /** A new token starts a family of its own unless it continues one. */
  function NewToken(c: Config, tokens: seq<Token>, user: nat, parent: Option<nat>, now: int): Token {
    var family := if parent.Some? && parent.value < |tokens| then tokens[parent.value].family else |tokens|;
    Token(user, family, parent, now + c.lifetime, false, false, None)
  }

  predicate Locked(u: User, now: int) {
    u.lockedUntil.Some? && u.lockedUntil.value > now
  }

  /** A failed attempt counts from one again after a lock has run out. */
  function FailedLogin(c: Config, u: User, now: int): User {
    var count := (if u.lockedUntil.Some? then 0 else u.failed) + 1;
    u.(failed := count, lockedUntil := if count >= c.maxFailed then Some(now + c.lockout) else None)
  }

  /**
   The transaction of a login. The password was checked before it against the row read then:
   `seen` is the password hash of that row, if there was one, and `verified` the answer.
   */
  function LoggingIn(c: Config, a: Accounts, email: nat, seen: Option<nat>, verified: bool, now: int): (Accounts, Result<nat>) {
    FindUserInRange(a.users, email);
    match FindUser(a.users, email)
    case None => (a, Err(Unauthorized))
    case Some(id) =>
      var user := a.users[id];
      if seen == Some(user.password) && user.active && verified && !Locked(user, now) then
        (Accounts(a.users[id := user.(failed := 0, lockedUntil := None)],
                  a.tokens + [NewToken(c, a.tokens, id, None, now)]), Ok(|a.tokens|))
      else if user.active && !Locked(user, now) then
        (a.(users := a.users[id := FailedLogin(c, user, now)]), Err(Unauthorized))
      else (a, Err(Unauthorized))
  }

  function RevokedFamily(tokens: seq<Token>, family: nat): (r: seq<Token>)
    ensures |r| == |tokens|
    ensures forall i | 0 <= i < |tokens| ::
              r[i] == if tokens[i].family == family then tokens[i].(revoked := true) else tokens[i]
  {
    seq(|tokens|, i requires 0 <= i < |tokens| =>
      if tokens[i].family == family then tokens[i].(revoked := true) else tokens[i])
  }

  function RevokedUser(tokens: seq<Token>, user: nat): (r: seq<Token>)
    ensures |r| == |tokens|
    ensures forall i | 0 <= i < |tokens| ::
              r[i] == if tokens[i].user == user then tokens[i].(revoked := true) else tokens[i]
  {
    seq(|tokens|, i requires 0 <= i < |tokens| =>
      if tokens[i].user == user then tokens[i].(revoked := true) else tokens[i])
  }

  predicate Usable(a: Accounts, id: nat, now: int)
    requires id < |a.tokens|
  {
    var row := a.tokens[id];
    !row.revoked && row.expiresAt > now && row.user < |a.users| && a.users[row.user].active
  }

  function Refreshing(c: Config, a: Accounts, id: nat, now: int): (Accounts, Result<nat>) {
    if id >= |a.tokens| then (a, Err(Unauthorized))
    else
      var row := a.tokens[id];
      if row.used then (a.(tokens := RevokedFamily(a.tokens, row.family)), Err(Unauthorized))
      else if Usable(a, id, now) then
        var next := NewToken(c, a.tokens, row.user, Some(id), now);
        (a.(tokens := a.tokens[id := row.(used := true, revoked := true, replacedBy := Some(|a.tokens|))] + [next]),
         Ok(|a.tokens|))
      else (a, Err(Unauthorized))
  }

  function LoggingOut(a: Accounts, id: nat): Accounts {
    if id >= |a.tokens| then a
    else a.(tokens := a.tokens[id := a.tokens[id].(revoked := true)])
  }

  function LoggingOutAll(a: Accounts, user: nat): Accounts {
    a.(tokens := RevokedUser(a.tokens, user))
  }

  /** `seen` is the hash the old password was verified against, before the transaction. */
  function ChangingPassword(a: Accounts, user: nat, seen: nat, verified: bool, hash: nat): (Accounts, Option<Error>) {
    if user >= |a.users| || !verified then (a, Some(Unauthorized))
    else if a.users[user].password != seen then (a, Some(TaskConflict))
    else (Accounts(a.users[user := a.users[user].(password := hash)], RevokedUser(a.tokens, user)), None)
  }

  datatype Step =
    | Login(email: nat, seen: Option<nat>, verified: bool, now: int)
    | Refresh(id: nat, now: int)
    | Logout(id: nat)
    | LogoutAll(user: nat)
    | ChangePassword(user: nat, checked: nat, verified: bool, hash: nat)
    | Register(account: User)
    | SetActive(user: nat, active: bool)

  /** The new state, and the token issued, if any. */
  function Next(c: Config, a: Accounts, step: Step): (Accounts, Option<nat>) {
    match step
    case Login(email, seen, verified, now) =>
      var (a', r) := LoggingIn(c, a, email, seen, verified, now); (a', if r.Ok? then Some(r.value) else None)
    case Refresh(id, now) => var (a', r) := Refreshing(c, a, id, now); (a', if r.Ok? then Some(r.value) else None)
    case Logout(id) => (LoggingOut(a, id), None)
    case LogoutAll(user) => (LoggingOutAll(a, user), None)
    case ChangePassword(user, checked, verified, hash) => (ChangingPassword(a, user, checked, verified, hash).0, None)
    case Register(account) => (a.(users := a.users + [account]), None)
    case SetActive(user, active) =>
      if user < |a.users| then (a.(users := a.users[user := a.users[user].(active := active)]), None) else (a, None)
  }

  function After(c: Config, a: Accounts, steps: seq<Step>): Accounts
    decreases |steps|
  {
    if steps == [] then a else After(c, Next(c, a, steps[0]).0, steps[1..])
  }

  // ------------------------------------------------------ what each operation decides

  /** `id` is the first account with this address. */
  predicate AccountOf(users: seq<User>, email: nat, id: nat) {
    id < |users| && users[id].email == email && forall i | 0 <= i < id :: users[i].email != email
  }

  lemma {:induction false} FindUserExactly(users: seq<User>, email: nat)
    ensures match FindUser(users, email)
            case Some(id) => AccountOf(users, email, id)
            case None => forall i | 0 <= i < |users| :: users[i].email != email
  {
    if users != [] {
      FindUserExactly(users[..|users| - 1], email);
      assert forall i | 0 <= i < |users| - 1 :: users[i] == users[..|users| - 1][i];
    }
  }

  /** A password that was verified against the current hash of an active, unlocked account. */
  predicate MayLogIn(u: User, seen: Option<nat>, verified: bool, now: int) {
    verified && seen == Some(u.password) && u.active && (u.lockedUntil.None? || u.lockedUntil.value <= now)
  }

  /** The token begins a family of its own, unused, for its lifetime. */
  predicate BeginsFamily(c: Config, t: Token, id: nat, user: nat, now: int) {
    t.user == user && t.family == id && t.parent.None? && !t.used && !t.revoked && t.replacedBy.None? && t.expiresAt == now + c.lifetime
  }

  /**
   A login issues a token exactly for the account of the address when its password was
   verified against the hash it still has, and it is active and not locked; the token begins a
   family, and the failures are forgotten. Otherwise no token row changes: an active, unlocked
   account counts one more failure, from one again after a lock, and is locked when they reach
   the maximum; any other account is left alone.
   */
  lemma LoginIssuesExactly(c: Config, a: Accounts, email: nat, seen: Option<nat>, verified: bool, now: int, id: nat)
    requires AccountOf(a.users, email, id)
    ensures var (a', r) := LoggingIn(c, a, email, seen, verified, now);
            var user := a.users[id];
            var open := user.active && (user.lockedUntil.None? || user.lockedUntil.value <= now);
            && (r.Ok? <==> MayLogIn(user, seen, verified, now))
            && |a'.users| == |a.users| && (forall i | 0 <= i < |a.users| && i != id :: a'.users[i] == a.users[i])
            && (r.Ok? ==>
                  && r.value == |a.tokens| && |a'.tokens| == |a.tokens| + 1 && a'.tokens[..|a.tokens|] == a.tokens
                  && BeginsFamily(c, a'.tokens[|a.tokens|], |a.tokens|, id, now)
                  && a'.users[id] == user.(failed := 0, lockedUntil := None))
            && (r.Err? ==> a'.tokens == a.tokens)
            && (r.Err? && !open ==> a'.users[id] == user)
            && (r.Err? && open ==>
                  var count := if user.lockedUntil.Some? then 1 else user.failed + 1;
                  a'.users[id] == user.(failed := count, lockedUntil := if count >= c.maxFailed then Some(now + c.lockout) else None))
  {
    FindUserExactly(a.users, email);
  }

  lemma UnknownAccount(c: Config, a: Accounts, email: nat, seen: Option<nat>, verified: bool, now: int)
    requires forall i | 0 <= i < |a.users| :: a.users[i].email != email
    ensures LoggingIn(c, a, email, seen, verified, now) == (a, Err(Unauthorized))
  {
    FindUserExactly(a.users, email);
  }

  /** Account `id` is locked until some time. */
  predicate LockedUntil(a: Accounts, id: nat, until: int) {
    id < |a.users| && a.users[id].lockedUntil == Some(until)
  }

  /** Before that time only logins can touch the lock, and they do not. */
  lemma LockNext(c: Config, a: Accounts, step: Step, id: nat, until: int)
    requires LockedUntil(a, id, until) && (step.Login? ==> step.now < until)
    ensures LockedUntil(Next(c, a, step).0, id, until)
    ensures step.Login? && AccountOf(a.users, step.email, id) ==> Next(c, a, step).1.None?
  {
    if step.Login? {
      FindUserExactly(a.users, step.email);
    }
  }

  /** A locked account yields no token to any login before its time, whatever happens meanwhile. */
  lemma {:induction false} LockHolds(c: Config, a: Accounts, steps: seq<Step>, id: nat, until: int, email: nat, seen: Option<nat>, verified: bool, now: int)
    requires LockedUntil(a, id, until) && forall i | 0 <= i < |steps| :: steps[i].Login? ==> steps[i].now < until
    requires now < until && AccountOf(After(c, a, steps).users, email, id)
    ensures Next(c, After(c, a, steps), Login(email, seen, verified, now)).1.None?
    decreases |steps|
  {
    if steps == [] {
      LockNext(c, a, Login(email, seen, verified, now), id, until);
    } else {
      LockNext(c, a, steps[0], id, until);
      LockHolds(c, Next(c, a, steps[0]).0, steps[1..], id, until, email, seen, verified, now);
    }
  }

  /** `k` failed logins in a row. */
  function FailedLogins(c: Config, a: Accounts, email: nat, k: nat, now: int): Accounts {
    if k == 0 then a else LoggingIn(c, FailedLogins(c, a, email, k - 1, now), email, None, false, now).0
  }

  /** An active account without failures is locked by exactly as many failed logins in a row as the maximum. */
  lemma {:induction false} FailuresLock(c: Config, a: Accounts, email: nat, id: nat, k: nat, now: int)
    requires c.maxFailed > 0 && c.lockout > 0 && AccountOf(a.users, email, id)
    requires a.users[id].active && a.users[id].failed == 0 && a.users[id].lockedUntil.None?
    ensures var b := FailedLogins(c, a, email, k, now);
            && AccountOf(b.users, email, id) && b.tokens == a.tokens
            && b.users[id].active && b.users[id].failed == (if k < c.maxFailed then k else c.maxFailed)
            && b.users[id].lockedUntil == (if k < c.maxFailed then None else Some(now + c.lockout))
  {
    if k > 0 {
      FailuresLock(c, a, email, id, k - 1, now);
      LoginIssuesExactly(c, FailedLogins(c, a, email, k - 1, now), email, None, false, now, id);
    }
  }

  /**
   A refresh issues a token exactly for a known token that is unused, unrevoked, unexpired and
   of an active account. It rotates: the old token is used, revoked and replaced by the new
   one, which continues the family for its own lifetime. A used token revokes its whole
   family; anything else changes nothing.
   */
  lemma RefreshIssuesExactly(c: Config, a: Accounts, id: nat, now: int)
    ensures var (a', r) := Refreshing(c, a, id, now);
            && (r.Ok? <==>
                  && id < |a.tokens| && !a.tokens[id].used && !a.tokens[id].revoked && a.tokens[id].expiresAt > now
                  && a.tokens[id].user < |a.users| && a.users[a.tokens[id].user].active)
            && a'.users == a.users
            && (r.Ok? ==>
                  var n := |a.tokens|;
                  && r.value == n && |a'.tokens| == n + 1 && (forall i | 0 <= i < n && i != id :: a'.tokens[i] == a.tokens[i])
                  && a'.tokens[id] == a.tokens[id].(used := true, revoked := true, replacedBy := Some(n))
                  && a'.tokens[n] == Token(a.tokens[id].user, a.tokens[id].family, Some(id), now + c.lifetime, false, false, None))
            && (r.Err? && id < |a.tokens| && a.tokens[id].used ==>
                  |a'.tokens| == |a.tokens| && forall i | 0 <= i < |a.tokens| ::
                    a'.tokens[i] == if a.tokens[i].family == a.tokens[id].family then a.tokens[i].(revoked := true) else a.tokens[i])
            && (r.Err? && !(id < |a.tokens| && a.tokens[id].used) ==> a' == a)
  {
  }

  /** A password change succeeds exactly for a verified old password that no other change overtook; it revokes every token of the user. */
  lemma PasswordChangesExactly(a: Accounts, user: nat, seen: nat, verified: bool, hash: nat)
    ensures var (a', error) := ChangingPassword(a, user, seen, verified, hash);
            && (error.None? <==> user < |a.users| && verified && a.users[user].password == seen)
            && (error.Some? ==> a' == a && (error == Some(TaskConflict) <==> user < |a.users| && verified))
            && (error.None? ==>
                  && a'.users == a.users[user := a.users[user].(password := hash)] && |a'.tokens| == |a.tokens|
                  && forall i | 0 <= i < |a.tokens| ::
                       a'.tokens[i] == if a.tokens[i].user == user then a.tokens[i].(revoked := true) else a.tokens[i])
  {
  }

  // -------------------------------------------------------------------- families

  /** A token's place in its family: the first has no parent, every other replaced its parent. */
  ghost predicate LinkedBack(t: seq<Token>, i: nat)
    requires i < |t|
  {
    match t[i].parent
    case None => t[i].family == i
    case Some(p) => p < i && t[p].family == t[i].family && t[p].user == t[i].user && t[p].replacedBy == Some(i)
  }

  /** A token is used exactly when it was replaced, by the next token of its family. */
  ghost predicate LinkedForward(t: seq<Token>, i: nat)
    requires i < |t|
  {
    && (t[i].used <==> t[i].replacedBy.Some?)
    && (t[i].used ==>
         var k := t[i].replacedBy.value;
         && t[i].revoked && i < k < |t| && t[k].parent == Some(i) && t[k].family == t[i].family
         && forall m | i < m < k :: t[m].family != t[i].family)
  }

  ghost predicate NewestOnly(t: seq<Token>, i: nat, j: nat)
    requires i < j < |t|
  {
    t[i].family == t[j].family ==> t[i].used
  }

  ghost predicate Families(t: seq<Token>) {
    && (forall i {:trigger LinkedBack(t, i)} | 0 <= i < |t| :: LinkedBack(t, i))
    && (forall i {:trigger LinkedForward(t, i)} | 0 <= i < |t| :: LinkedForward(t, i))
    && (forall i, j {:trigger NewestOnly(t, i, j)} | 0 <= i < j < |t| :: NewestOnly(t, i, j))
    && (forall i | 0 <= i < |t| :: t[i].family <= i)
  }

  /** Rows that differ only in being revoked, and only towards revoked. */
  ghost predicate MoreRevoked(t: seq<Token>, t': seq<Token>) {
    |t'| == |t| && forall i {:trigger t'[i]} | 0 <= i < |t| :: t'[i] == t[i] || t'[i] == t[i].(revoked := true)
  }

  lemma RevokingKeepsFamilies(t: seq<Token>, t': seq<Token>)
    requires Families(t) && MoreRevoked(t, t')
    ensures Families(t')
  {
    forall i | 0 <= i < |t'| ensures LinkedBack(t', i) { assert LinkedBack(t, i); }
    forall i | 0 <= i < |t'| ensures LinkedForward(t', i) { assert LinkedForward(t, i); }
    forall i, j | 0 <= i < j < |t'| ensures NewestOnly(t', i, j) { assert NewestOnly(t, i, j); }
  }

  lemma NewFamily(t: seq<Token>, next: Token)
    requires Families(t) && next.parent.None? && next.family == |t| && !next.used && next.replacedBy.None?
    ensures Families(t + [next])
  {
    var t' := t + [next];
    forall i | 0 <= i < |t'| ensures LinkedBack(t', i) { if i < |t| { assert LinkedBack(t, i); } }
    forall i | 0 <= i < |t'| ensures LinkedForward(t', i) { if i < |t| { assert LinkedForward(t, i); } }
    forall i, j | 0 <= i < j < |t'| ensures NewestOnly(t', i, j) { if j < |t| { assert NewestOnly(t, i, j); } }
  }

  /** Rotation: the newest token of a family is replaced by one new token. */
  lemma Rotation(t: seq<Token>, id: nat, next: Token)
    requires Families(t) && id < |t| && !t[id].used
    requires next.parent == Some(id) && next.family == t[id].family && next.user == t[id].user
    requires !next.used && next.replacedBy.None?
    ensures Families(t[id := t[id].(used := true, revoked := true, replacedBy := Some(|t|))] + [next])
  {
    var t' := t[id := t[id].(used := true, revoked := true, replacedBy := Some(|t|))] + [next];
    forall m | id < m < |t| ensures t[m].family != t[id].family { assert NewestOnly(t, id, m); }
    forall i | 0 <= i < |t'| ensures LinkedBack(t', i) {
      if i < |t| {
        assert LinkedBack(t, i);
        if t[i].parent.Some? { assert LinkedForward(t, t[i].parent.value); }
      }
    }
    forall i | 0 <= i < |t'| ensures LinkedForward(t', i) {
      if i < |t| { assert LinkedForward(t, i); }
    }
    forall i, j | 0 <= i < j < |t'| ensures NewestOnly(t', i, j) {
      if j < |t| {
        assert NewestOnly(t, i, j);
      } else if i < id {
        assert NewestOnly(t, i, id);
      }
    }
  }

  lemma NextKeepsFamilies(c: Config, a: Accounts, step: Step)
    requires Families(a.tokens)
    ensures Families(Next(c, a, step).0.tokens)
  {
    match step
    case Login(email, _, _, now) =>
      FindUserInRange(a.users, email);
      if FindUser(a.users, email).Some? {
        NewFamily(a.tokens, NewToken(c, a.tokens, FindUser(a.users, email).value, None, now));
      }
    case Refresh(id, now) =>
      if id < |a.tokens| {
        if a.tokens[id].used {
          RevokingKeepsFamilies(a.tokens, RevokedFamily(a.tokens, a.tokens[id].family));
        } else {
          Rotation(a.tokens, id, NewToken(c, a.tokens, a.tokens[id].user, Some(id), now));
        }
      }
    case Logout(id) =>
      if id < |a.tokens| { RevokingKeepsFamilies(a.tokens, LoggingOut(a, id).tokens); }
    case LogoutAll(user) => RevokingKeepsFamilies(a.tokens, RevokedUser(a.tokens, user));
    case ChangePassword(user, _, _, _) => RevokingKeepsFamilies(a.tokens, RevokedUser(a.tokens, user));
    case Register(_) =>
    case SetActive(_, _) =>
  }

  lemma {:induction false} RunKeepsFamilies(c: Config, a: Accounts, steps: seq<Step>)
    requires Families(a.tokens)
    ensures Families(After(c, a, steps).tokens)
    decreases |steps|
  {
    if steps != [] {
      NextKeepsFamilies(c, a, steps[0]);
      RunKeepsFamilies(c, Next(c, a, steps[0]).0, steps[1..]);
    }
  }

  /**
   In every reachable state a family is one chain, in which only the newest token may be
   unused: two tokens of a family that are both unused, or both unrevoked, are the same.
   */
  lemma OneLiveToken(c: Config, users: seq<User>, steps: seq<Step>, i: nat, j: nat)
    requires var t := After(c, Accounts(users, []), steps).tokens;
             i < |t| && j < |t| && t[i].family == t[j].family
    ensures var t := After(c, Accounts(users, []), steps).tokens;
            && (!t[i].used && !t[j].used ==> i == j)
            && (!t[i].revoked && !t[j].revoked ==> i == j)
  {
    RunKeepsFamilies(c, Accounts(users, []), steps);
    var t := After(c, Accounts(users, []), steps).tokens;
    assert LinkedForward(t, i) && LinkedForward(t, j);
    if i < j { assert NewestOnly(t, i, j); }
    if j < i { assert NewestOnly(t, j, i); }
  }

  /** A token's ancestors, oldest first, down to itself. */
  function Path(t: seq<Token>, i: nat): seq<nat>
    requires i < |t|
    decreases i
  {
    if t[i].parent.Some? && t[i].parent.value < i then Path(t, t[i].parent.value) + [i] else [i]
  }

  /** A family is one chain: from its first token each step leads to the replacement, and no member is off the chain. */
  lemma {:induction false} FamilyIsOneChain(t: seq<Token>, i: nat, m: nat)
    requires Families(t) && i < |t|
    ensures var path := Path(t, i);
            && path[0] == t[i].family && path[|path| - 1] == i
            && (forall k {:trigger path[k]} | 0 <= k < |path| :: path[k] <= i && t[path[k]].family == t[i].family)
            && (forall k {:trigger path[k]} | 0 <= k < |path| - 1 :: t[path[k]].replacedBy == Some(path[k + 1]))
    ensures m <= i && t[m].family == t[i].family ==> m in Path(t, i)
    decreases i
  {
    assert LinkedBack(t, i);
    if t[i].parent.Some? {
      var p := t[i].parent.value;
      FamilyIsOneChain(t, p, m);
      assert LinkedForward(t, p);
    }
  }

  // ---------------------------------------------------------------- finality of death

  /** No token of the family can be refreshed any more. */
  ghost predicate FamilyDead(t: seq<Token>, family: nat) {
    family < |t| && forall i {:trigger t[i]} | 0 <= i < |t| && t[i].family == family :: t[i].revoked
  }

  lemma DeadYieldsNothing(c: Config, a: Accounts, family: nat, id: nat, now: int)
    requires FamilyDead(a.tokens, family) && id < |a.tokens| && a.tokens[id].family == family
    ensures Next(c, a, Refresh(id, now)).1.None?
  {
  }

  lemma NextKeepsDead(c: Config, a: Accounts, step: Step, family: nat)
    requires FamilyDead(a.tokens, family)
    ensures FamilyDead(Next(c, a, step).0.tokens, family)
  {
    match step
    case Login(email, _, _, _) => FindUserInRange(a.users, email);
    case Refresh(_, _) =>
    case Logout(_) =>
    case LogoutAll(_) =>
    case ChangePassword(_, _, _, _) =>
    case Register(_) =>
    case SetActive(_, _) =>
  }

  lemma {:induction false} RunKeepsDead(c: Config, a: Accounts, steps: seq<Step>, family: nat)
    requires FamilyDead(a.tokens, family)
    ensures FamilyDead(After(c, a, steps).tokens, family)
    decreases |steps|
  {
    if steps != [] {
      NextKeepsDead(c, a, steps[0], family);
      RunKeepsDead(c, Next(c, a, steps[0]).0, steps[1..], family);
    }
  }

  /** Once a used token is presented again, no token of its family ever yields a new pair. */
  lemma ReplayKillsFamily(c: Config, a: Accounts, id: nat, now: int, steps: seq<Step>, other: nat, later: int)
    requires Families(a.tokens) && id < |a.tokens| && a.tokens[id].used
    requires var b := After(c, Next(c, a, Refresh(id, now)).0, steps);
             other < |b.tokens| && b.tokens[other].family == a.tokens[id].family
    ensures Next(c, a, Refresh(id, now)).1.None?
    ensures Next(c, After(c, Next(c, a, Refresh(id, now)).0, steps), Refresh(other, later)).1.None?
  {
    var family := a.tokens[id].family;
    var a' := Next(c, a, Refresh(id, now)).0;
    assert FamilyDead(a'.tokens, family);
    RunKeepsDead(c, a', steps, family);
    DeadYieldsNothing(c, After(c, a', steps), family, other, later);
  }

  /** Logging out ends a session exactly when the newest token is presented, or it had ended before. */
  lemma LogoutEndsExactly(a: Accounts, id: nat)
    requires Families(a.tokens) && id < |a.tokens|
    ensures FamilyDead(LoggingOut(a, id).tokens, a.tokens[id].family) <==>
            !a.tokens[id].used || FamilyDead(a.tokens, a.tokens[id].family)
  {
    var t, t' := a.tokens, LoggingOut(a, id).tokens;
    var family := t[id].family;
    assert LinkedForward(t, id);
    if !t[id].used {
      forall i | id < i < |t| ensures t[i].family != family {
        assert NewestOnly(t, id, i);
      }
      forall i | 0 <= i < |t'| && t'[i].family == family ensures t'[i].revoked {
        assert LinkedForward(t, i);
        if i < id { assert NewestOnly(t, i, id); }
      }
    } else {
      assert t' == t;
    }
  }

  lemma RunOne(c: Config, a: Accounts, step: Step, rest: seq<Step>)
    ensures After(c, a, [step] + rest) == After(c, Next(c, a, step).0, rest)
  {
    assert ([step] + rest)[1..] == rest;
  }

  /** After a login and a refresh, logging out with the first token leaves the second one able to refresh. */
  lemma RotatedLogoutKeepsSession(c: Config, user: User)
    requires c.lifetime > 0 && user.active && user.lockedUntil.None?
    ensures var start := Accounts([user], []);
            var a := After(c, start, [Login(user.email, Some(user.password), true, 0), Refresh(0, 0), Logout(0)]);
            |a.tokens| == 2 && a.tokens[0].family == a.tokens[1].family && Next(c, a, Refresh(1, 0)).1 == Some(2)
  {
    var start := Accounts([user], []);
    var login, refresh, logout := Login(user.email, Some(user.password), true, 0), Refresh(0, 0), Logout(0);
    assert [user][..0] == [] && FindUser([user], user.email) == Some(0);
    assert [login, refresh, logout] == [login] + [refresh, logout] && [refresh, logout] == [refresh] + [logout];
    assert [logout][1..] == [];
    var a1 := Next(c, start, login).0;
    assert |a1.tokens| == 1 && a1.users[0].active;
    var a2 := Next(c, a1, refresh).0;
    assert |a2.tokens| == 2 && a2.tokens[0].used && !a2.tokens[1].revoked;
    var a3 := Next(c, a2, logout).0;
    assert After(c, a2, [logout]) == a3;
    RunOne(c, a1, refresh, [logout]);
    RunOne(c, start, login, [refresh, logout]);
    assert a3.tokens[1] == a2.tokens[1];
  }

  lemma {:induction false} RevokedStaysDead(c: Config, a: Accounts, steps: seq<Step>, id: nat)
    requires id < |a.tokens| && a.tokens[id].revoked
    ensures var b := After(c, a, steps); id < |b.tokens| && b.tokens[id].revoked && (a.tokens[id].used ==> b.tokens[id].used)
    decreases |steps|
  {
    if steps != [] {
      RevokedNext(c, a, steps[0], id);
      RevokedStaysDead(c, Next(c, a, steps[0]).0, steps[1..], id);
    }
  }

  lemma RevokedNext(c: Config, a: Accounts, step: Step, id: nat)
    requires id < |a.tokens| && a.tokens[id].revoked
    ensures var b := Next(c, a, step).0; id < |b.tokens| && b.tokens[id].revoked && (a.tokens[id].used ==> b.tokens[id].used)
  {
    match step
    case Login(email, _, _, _) => FindUserInRange(a.users, email);
    case Refresh(_, _) =>
    case Logout(_) =>
    case LogoutAll(_) =>
    case ChangePassword(_, _, _, _) =>
    case Register(_) =>
    case SetActive(_, _) =>
  }

  /**
   After logging out everywhere or changing the password, no token issued to the user before
   ever yields a new pair.
   */
  lemma EarlierTokensAreDead(c: Config, a: Accounts, step: Step, steps: seq<Step>, id: nat, now: int)
    requires id < |a.tokens|
    requires (step.LogoutAll? || (step.ChangePassword? && ChangingPassword(a, step.user, step.checked, step.verified, step.hash).1.None?))
    requires a.tokens[id].user == step.user
    ensures Next(c, After(c, Next(c, a, step).0, steps), Refresh(id, now)).1.None?
  {
    var a' := Next(c, a, step).0;
    assert a'.tokens[id].revoked;
    RevokedStaysDead(c, a', steps, id);
  }

  /** A token yields at most one new pair. */
  lemma YieldsOnce(c: Config, a: Accounts, id: nat, now: int, steps: seq<Step>, later: int)
    requires Next(c, a, Refresh(id, now)).1.Some?
    ensures Next(c, After(c, Next(c, a, Refresh(id, now)).0, steps), Refresh(id, later)).1.None?
  {
    RevokedStaysDead(c, Next(c, a, Refresh(id, now)).0, steps, id);
  }

  // ---------------------------------------------------------------------- as written

  class AuthService {
    const config: Config
    var users: seq<User>
    var tokens: seq<Token>

    constructor (c: Config)
      ensures config == c && users == [] && tokens == []
    {
      config := c;
      users := [];
      tokens := [];
    }

    function State(): Accounts
      reads this
    {
      Accounts(users, tokens)
    }

    method NewRefresh(user: nat, parent: Option<nat>, now: int) returns (id: nat)
      modifies this`tokens
      ensures id == |old(tokens)|
      ensures tokens == old(tokens) + [NewToken(config, old(tokens), user, parent, now)]
    {
      id := |tokens|;
      var family := if parent.Some? && parent.value < |tokens| then tokens[parent.value].family else id;
      tokens := tokens + [Token(user, family, parent, now + config.lifetime, false, false, None)];
    }

    method LogIn(email: nat, seen: Option<nat>, verified: bool, now: int) returns (r: Result<nat>)
      modifies this
      ensures (State(), r) == LoggingIn(config, old(State()), email, seen, verified, now)
    {
      FindUserInRange(users, email);
      var current := FindUser(users, email);
      var locked := current.Some? && Locked(users[current.value], now);
      var valid := current.Some? && seen == Some(users[current.value].password) && users[current.value].active && verified && !locked;
      if valid {
        var id := current.value;
        users := users[id := users[id].(failed := 0, lockedUntil := None)];
        var refresh := NewRefresh(id, None, now);
        return Ok(refresh);
      }
      if current.Some? && users[current.value].active && !locked {
        var user := users[current.value];
        var count := (if user.lockedUntil.Some? then 0 else user.failed) + 1;
        var until := if count >= config.maxFailed then Some(now + config.lockout) else None;
        users := users[current.value := user.(failed := count, lockedUntil := until)];
      }
      return Err(Unauthorized);
    }

    method Refresh(id: nat, now: int) returns (r: Result<nat>)
      modifies this`tokens
      ensures (State(), r) == Refreshing(config, old(State()), id, now)
    {
      if id < |tokens| {
        var row := tokens[id];
        if row.used {
          tokens := RevokedFamily(tokens, row.family);
        } else if !row.revoked && row.expiresAt > now && row.user < |users| && users[row.user].active {
          var next := NewRefresh(row.user, Some(id), now);
          ghost var rotated := row.(used := true, revoked := true, replacedBy := Some(next));
          assert tokens[id := rotated] == old(tokens)[id := rotated] + [tokens[next]];
          tokens := tokens[id := row.(used := true, revoked := true, replacedBy := Some(next))];
          return Ok(next);
        }
      }
      return Err(Unauthorized);
    }

    /** One row at most changes, and only towards revoked; any other string changes nothing. */
    method LogOut(id: nat)
      modifies this`tokens
      ensures State() == LoggingOut(old(State()), id)
      ensures MoreRevoked(old(tokens), tokens)
      ensures forall i | 0 <= i < |tokens| :: tokens[i].revoked <==> old(tokens)[i].revoked || i == id
    {
      if id < |tokens| {
        tokens := tokens[id := tokens[id].(revoked := true)];
      }
    }

    /** Exactly the user's rows become revoked; nothing else of them changes. */
    method LogOutAll(user: nat)
      modifies this`tokens
      ensures State() == LoggingOutAll(old(State()), user)
      ensures MoreRevoked(old(tokens), tokens)
      ensures forall i | 0 <= i < |tokens| :: tokens[i].revoked <==> old(tokens)[i].revoked || tokens[i].user == user
    {
      tokens := RevokedUser(tokens, user);
    }

    method ChangePassword(user: nat, seen: nat, verified: bool, hash: nat) returns (error: Option<Error>)
      modifies this
      ensures (State(), error) == ChangingPassword(old(State()), user, seen, verified, hash)
    {
      if user >= |users| || !verified {
        return Some(Unauthorized);
      }
      if users[user].password != seen {
        return Some(TaskConflict);
      }
      users := users[user := users[user].(password := hash)];
      tokens := RevokedUser(tokens, user);
      return None;
    }
  }
}

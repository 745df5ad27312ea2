/** The persisted state the account operations read and write: the users
    and the verification-token table, the finders the service calls, the
    writes it makes, and the invariant those writes keep. */
module Accounts {
  import opened Outcomes
  import opened Text
  import opened VerificationTokens

  /** A stored user. `id` is the user's position in the store; the tokens
      are in the order they were saved, oldest first. */
  datatype User = User(
    id: nat,
    username: string,
    email: string,
    password: string,
    firstName: string,
    lastName: string,
    emailVerified: bool,
    verificationTokens: seq<Token>)

  /** The users and the verification-token table keyed by token string. */
  datatype Db = Db(users: seq<User>, tokens: map<string, Token>)

  /** The two columns the service looks users up by. */
  datatype Key = Username | Email

  function KeyOf(u: User, key: Key): string
  {
    match key
    case Username => u.username
    case Email => u.email
  }

  /** `findByUsernameIgnoreCase` / `findByEmailIgnoreCase`: the first user
      whose column equals `value` ignoring case, if any. */
  function FindBy(users: seq<User>, key: Key, value: string): (r: Option<nat>)
    ensures r.Some? ==> r.value < |users| && EqualsIgnoreCase(KeyOf(users[r.value], key), value)
    ensures r.Some? ==> forall j | 0 <= j < r.value :: !EqualsIgnoreCase(KeyOf(users[j], key), value)
    ensures r.None? ==> forall j | 0 <= j < |users| :: !EqualsIgnoreCase(KeyOf(users[j], key), value)
  {
    if users == [] then None
    else if EqualsIgnoreCase(KeyOf(users[0], key), value) then Some(0)
    else match FindBy(users[1..], key, value)
      case None => None
      case Some(k) => Some(k + 1)
  }

  // ---- The invariant -----------------------------------------------------

  predicate IdsArePositions(users: seq<User>)
  {
    forall i | 0 <= i < |users| :: users[i].id == i
  }

  /** No two users share a username or an email, ignoring case. */
  predicate KeysUnique(users: seq<User>)
  {
    forall i, j | 0 <= i < j < |users| ::
      !EqualsIgnoreCase(users[i].username, users[j].username) &&
      !EqualsIgnoreCase(users[i].email, users[j].email)
  }

  /** Every row of the table is filed under its own token string, belongs
      to exactly one existing user, and is in that user's list. */
  predicate TableRowsOwned(db: Db)
  {
    forall k | k in db.tokens ::
      && db.tokens[k].token == k
      && db.tokens[k].owner < |db.users|
      && db.tokens[k] in db.users[db.tokens[k].owner].verificationTokens
  }

  /** Every token in a user's list is owned by that user and is the row the
      table holds for its string. */
  predicate ListedTokensStored(db: Db)
  {
    forall i, n | 0 <= i < |db.users| && 0 <= n < |db.users[i].verificationTokens| ::
      && db.users[i].verificationTokens[n].owner == i
      && db.users[i].verificationTokens[n].token in db.tokens
      && db.tokens[db.users[i].verificationTokens[n].token] == db.users[i].verificationTokens[n]
  }

  /** A token string appears at most once in a user's list. */
  predicate ListsDistinct(users: seq<User>)
  {
    forall i, a, b | 0 <= i < |users| && 0 <= a < b < |users[i].verificationTokens| ::
      users[i].verificationTokens[a].token != users[i].verificationTokens[b].token
  }

  /** Verification deletes all of a user's tokens, and no token is ever
      created for a verified user. */
  predicate VerifiedHoldNoTokens(users: seq<User>)
  {
    forall i | 0 <= i < |users| :: users[i].emailVerified ==> users[i].verificationTokens == []
  }

  predicate Inv(db: Db)
  {
    && IdsArePositions(db.users)
    && KeysUnique(db.users)
    && TableRowsOwned(db)
    && ListedTokensStored(db)
    && ListsDistinct(db.users)
    && VerifiedHoldNoTokens(db.users)
  }

  lemma EmptyStoreIsValid()
    ensures Inv(Db([], map[]))
  {
  }

  /** Under the invariant a lookup finds the one user whose column it was
      given: usernames and emails identify users ignoring case. */
  lemma FindByIsUnique(db: Db, i: nat, key: Key, value: string)
    requires Inv(db) && i < |db.users|
    requires EqualsIgnoreCase(KeyOf(db.users[i], key), value)
    ensures FindBy(db.users, key, value) == Some(i)
  {
  }

  // ---- Store writes --------------------------------------------------------

  /** `localUserDAO.save` of a new user, cascading to its one token. */
  function SaveNewUser(db: Db, u: User): (r: Db)
    requires |u.verificationTokens| == 1
    ensures |r.users| == |db.users| + 1 && r.users[|db.users|] == u
    ensures forall j | 0 <= j < |db.users| :: r.users[j] == db.users[j]
    ensures r.tokens.Keys == db.tokens.Keys + {u.verificationTokens[0].token}
    ensures r.tokens[u.verificationTokens[0].token] == u.verificationTokens[0]
    ensures forall k | k in db.tokens && k != u.verificationTokens[0].token :: r.tokens[k] == db.tokens[k]
  {
    var t := u.verificationTokens[0];
    Db(db.users + [u], db.tokens[t.token := t])
  }

  /** `verificationTokenDAO.save` of a new token for user `i`; the user's
      list, read back, gains it at the end. */
  function AttachToken(db: Db, i: nat, t: Token): (r: Db)
    requires i < |db.users|
    ensures |r.users| == |db.users|
    ensures r.users[i] == db.users[i].(verificationTokens := db.users[i].verificationTokens + [t])
    ensures forall j | 0 <= j < |db.users| && j != i :: r.users[j] == db.users[j]
    ensures r.tokens.Keys == db.tokens.Keys + {t.token} && r.tokens[t.token] == t
    ensures forall k | k in db.tokens && k != t.token :: r.tokens[k] == db.tokens[k]
  {
    var u := db.users[i];
    Db(db.users[i := u.(verificationTokens := u.verificationTokens + [t])], db.tokens[t.token := t])
  }

  /** `setEmailVerified(true)`, `save`, then `deleteByUser`: the user is
      verified and every row it owns leaves the table. */
  function MarkVerified(db: Db, i: nat): (r: Db)
    requires i < |db.users|
    ensures |r.users| == |db.users|
    ensures r.users[i] == db.users[i].(emailVerified := true, verificationTokens := [])
    ensures forall j | 0 <= j < |db.users| && j != i :: r.users[j] == db.users[j]
    ensures forall k | k in r.tokens :: k in db.tokens && r.tokens[k] == db.tokens[k] && r.tokens[k].owner != i
    ensures forall k | k in db.tokens && db.tokens[k].owner != i :: k in r.tokens
  {
    var u := db.users[i];
    Db(db.users[i := u.(emailVerified := true, verificationTokens := [])],
       map k | k in db.tokens && db.tokens[k].owner != i :: db.tokens[k])
  }

  /** `setPassword`, then `save`. */
  function SetPassword(db: Db, i: nat, hash: string): (r: Db)
    requires i < |db.users|
    ensures |r.users| == |db.users| && r.tokens == db.tokens
    ensures r.users[i] == db.users[i].(password := hash)
    ensures forall j | 0 <= j < |db.users| && j != i :: r.users[j] == db.users[j]
  {
    db.(users := db.users[i := db.users[i].(password := hash)])
  }

  // ---- The writes keep the invariant ---------------------------------------

  /** Saving a new, unverified user whose username and email are both free
      (ignoring case) and whose one token is new to the table. */
  lemma SaveNewUserKeepsInv(db: Db, u: User)
    requires Inv(db)
    requires u.id == |db.users| && !u.emailVerified
    requires FindBy(db.users, Username, u.username).None?
    requires FindBy(db.users, Email, u.email).None?
    requires |u.verificationTokens| == 1
    requires u.verificationTokens[0].owner == u.id
    requires u.verificationTokens[0].token !in db.tokens
    ensures Inv(SaveNewUser(db, u))
  {
    NewKeysKeepUnique(db.users, u);
    SaveNewUserKeepsTable(db, u);
  }

  lemma NewKeysKeepUnique(users: seq<User>, u: User)
    requires KeysUnique(users)
    requires FindBy(users, Username, u.username).None?
    requires FindBy(users, Email, u.email).None?
    ensures KeysUnique(users + [u])
  {
    var users' := users + [u];
    forall i, j | 0 <= i < j < |users'|
      ensures !EqualsIgnoreCase(users'[i].username, users'[j].username)
      ensures !EqualsIgnoreCase(users'[i].email, users'[j].email)
    {
      if j == |users| {
        assert !EqualsIgnoreCase(KeyOf(users[i], Username), u.username);
        assert !EqualsIgnoreCase(KeyOf(users[i], Email), u.email);
      } else {
        assert users'[i] == users[i] && users'[j] == users[j];
      }
    }
  }

  lemma SaveNewUserKeepsTable(db: Db, u: User)
    requires Inv(db)
    requires u.id == |db.users| && !u.emailVerified
    requires |u.verificationTokens| == 1
    requires u.verificationTokens[0].owner == u.id
    requires u.verificationTokens[0].token !in db.tokens
    ensures var db' := SaveNewUser(db, u);
      IdsArePositions(db'.users) && TableRowsOwned(db') && ListedTokensStored(db') &&
      ListsDistinct(db'.users) && VerifiedHoldNoTokens(db'.users)
  {
    var db' := SaveNewUser(db, u);
    var t := u.verificationTokens[0];
    forall k | k in db'.tokens
      ensures db'.tokens[k].token == k && db'.tokens[k].owner < |db'.users|
      ensures db'.tokens[k] in db'.users[db'.tokens[k].owner].verificationTokens
    {
      if k != t.token {
        assert db'.tokens[k] == db.tokens[k];
        assert db'.users[db.tokens[k].owner] == db.users[db.tokens[k].owner];
      }
    }
  }

  /** Saving a new token for an unverified user, the token owned by that
      user and new to the table. */
  lemma AttachTokenKeepsInv(db: Db, i: nat, t: Token)
    requires Inv(db) && i < |db.users| && !db.users[i].emailVerified
    requires t.owner == i && t.token !in db.tokens
    ensures Inv(AttachToken(db, i, t))
  {
    var db' := AttachToken(db, i, t);
    var old_ := db.users[i].verificationTokens;
    assert db'.users[i].verificationTokens == old_ + [t];
    assert TableRowsOwned(db') by {
      forall k | k in db'.tokens
        ensures db'.tokens[k].token == k && db'.tokens[k].owner < |db'.users|
        ensures db'.tokens[k] in db'.users[db'.tokens[k].owner].verificationTokens
      {
        if k != t.token {
          var o := db.tokens[k].owner;
          assert db.tokens[k] in db.users[o].verificationTokens;
          if o == i {
            assert db.tokens[k] in old_ + [t];
          }
        }
      }
    }
    assert ListedTokensStored(db') by {
      forall j, m | 0 <= j < |db'.users| && 0 <= m < |db'.users[j].verificationTokens|
        ensures db'.users[j].verificationTokens[m].owner == j
        ensures db'.users[j].verificationTokens[m].token in db'.tokens
        ensures db'.tokens[db'.users[j].verificationTokens[m].token] == db'.users[j].verificationTokens[m]
      {
        if j == i && m < |old_| {
          assert db'.users[j].verificationTokens[m] == old_[m];
          assert old_[m].token in db.tokens;
        }
      }
    }
    assert ListsDistinct(db'.users) by {
      forall j, a, b | 0 <= j < |db'.users| && 0 <= a < b < |db'.users[j].verificationTokens|
        ensures db'.users[j].verificationTokens[a].token != db'.users[j].verificationTokens[b].token
      {
        if j == i && b == |old_| {
          assert old_[a].token in db.tokens;
        }
      }
    }
  }

  /** Marking user `i` verified and deleting its tokens. */
  lemma MarkVerifiedKeepsInv(db: Db, i: nat)
    requires Inv(db) && i < |db.users|
    ensures Inv(MarkVerified(db, i))
  {
    var db' := MarkVerified(db, i);
    assert TableRowsOwned(db') by {
      forall k | k in db'.tokens
        ensures db'.tokens[k].token == k && db'.tokens[k].owner < |db'.users|
        ensures db'.tokens[k] in db'.users[db'.tokens[k].owner].verificationTokens
      {
        assert db'.tokens[k] == db.tokens[k] && db.tokens[k].owner != i;
      }
    }
    assert ListedTokensStored(db') by {
      forall j, m | 0 <= j < |db'.users| && 0 <= m < |db'.users[j].verificationTokens|
        ensures db'.users[j].verificationTokens[m].owner == j
        ensures db'.users[j].verificationTokens[m].token in db'.tokens
        ensures db'.tokens[db'.users[j].verificationTokens[m].token] == db'.users[j].verificationTokens[m]
      {
        assert j != i;
        assert db'.users[j] == db.users[j];
      }
    }
  }

  lemma SetPasswordKeepsInv(db: Db, i: nat, hash: string)
    requires Inv(db) && i < |db.users|
    ensures Inv(SetPassword(db, i, hash))
  {
    var db' := SetPassword(db, i, hash);
    assert forall j | 0 <= j < |db.users| :: db'.users[j].verificationTokens == db.users[j].verificationTokens;
  }

  // ---- Consequences ----------------------------------------------------------

  /** A user's id, username and email. */
  predicate SameIdentity(a: User, b: User)
  {
    a.id == b.id && a.username == b.username && a.email == b.email
  }

  /** No write turns a verified user back into an unverified one, and none
      changes a stored user's identity. */
  lemma EmailVerifiedNeverReverts(db: Db, i: nat, j: nat, t: Token, hash: string, u: User)
    requires i < |db.users| && j < |db.users| && |u.verificationTokens| == 1
    ensures db.users[j].emailVerified ==>
              && SaveNewUser(db, u).users[j].emailVerified
              && AttachToken(db, i, t).users[j].emailVerified
              && MarkVerified(db, i).users[j].emailVerified
              && SetPassword(db, i, hash).users[j].emailVerified
    ensures SameIdentity(SaveNewUser(db, u).users[j], db.users[j])
    ensures SameIdentity(AttachToken(db, i, t).users[j], db.users[j])
    ensures SameIdentity(MarkVerified(db, i).users[j], db.users[j])
    ensures SameIdentity(SetPassword(db, i, hash).users[j], db.users[j])
  {
  }

  /** A token can be consumed when it is in the table and its owner is not
      yet verified. */
  predicate Consumable(db: Db, token: string)
    requires TableRowsOwned(db)
  {
    token in db.tokens && !db.users[db.tokens[token].owner].emailVerified
  }

  /** Under the invariant, a token is consumable exactly when it is in the
      table: the owner of a stored token is never verified. */
  lemma ConsumableIffStored(db: Db, token: string)
    requires Inv(db)
    ensures Consumable(db, token) <==> token in db.tokens
  {
    if token in db.tokens {
      var o := db.tokens[token].owner;
      assert db.tokens[token] in db.users[o].verificationTokens;
    }
  }

  /** Consuming one of a user's tokens invalidates them all: after the user
      is marked verified, none of the tokens it held a moment before is
      consumable, the consumed one included. */
  lemma ConsumeInvalidatesAllTokensOfOwner(db: Db, token: string, other: string)
    requires Inv(db) && Consumable(db, token)
    requires other in db.tokens && db.tokens[other].owner == db.tokens[token].owner
    ensures TableRowsOwned(MarkVerified(db, db.tokens[token].owner))
    ensures !Consumable(MarkVerified(db, db.tokens[token].owner), other)
  {
    MarkVerifiedKeepsInv(db, db.tokens[token].owner);
  }
}

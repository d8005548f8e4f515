/** The user table: lookups by login and e-mail, which the database keeps unique. */
module Accounts {

  import opened Entities

  /** No two users share a login or an e-mail address. */
  ghost predicate UniqueAccounts(users: seq<User>)
  {
    forall i, j :: 0 <= i < j < |users| ==>
      users[i].login != users[j].login && users[i].email != users[j].email
  }

  /** The id of the user with this login (the repository's findByLogin). */
  function FindByLogin(users: seq<User>, login: string): (r: Option<nat>)
    ensures r.Some? ==> r.value < |users| && users[r.value].login == login
    ensures r.None? <==> forall i :: 0 <= i < |users| ==> users[i].login != login
  {
    if users == [] then None
    else if users[0].login == login then Some(0)
    else match FindByLogin(users[1..], login)
      case None => None
      case Some(k) => Some(k + 1)
  }

  /** Some user already has this e-mail address (findByEmail finds a row). */
  predicate EmailTaken(users: seq<User>, email: string)
  {
    exists i :: 0 <= i < |users| && users[i].email == email
  }

  /** With unique logins, the login names the user. */
  lemma FindByLoginUnique(users: seq<User>, login: string, k: nat)
    requires UniqueAccounts(users) && k < |users| && users[k].login == login
    ensures FindByLogin(users, login) == Some(k)
  {
    var r := FindByLogin(users, login);
    assert r.Some?;
    assert !(r.value < k) && !(k < r.value);
  }

  /** A registration that passed both checks keeps logins and e-mails unique. */
  lemma RegisterKeepsUnique(users: seq<User>, x: User)
    requires UniqueAccounts(users)
    requires FindByLogin(users, x.login).None? && !EmailTaken(users, x.email)
    ensures UniqueAccounts(users + [x])
  {
    var us := users + [x];
    forall i, j | 0 <= i < j < |us|
      ensures us[i].login != us[j].login && us[i].email != us[j].email
    {
      assert us[i] == users[i];
      if j < |users| {
        assert us[j] == users[j];
      }
    }
  }

  /** A password change keeps logins and e-mails unique. */
  lemma NewPasswordKeepsUnique(users: seq<User>, k: nat, password: string)
    requires UniqueAccounts(users) && k < |users|
    ensures UniqueAccounts(users[k := users[k].(password := password)])
  {
  }
}

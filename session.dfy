/** The mock session store: a growing credential list, the current identity and
    role, and an abstract slot standing for the copy kept in browser storage. */
module Session {
  import opened ListOps

  datatype Role = Author | Reviewer | Admin

  /** A stored credential, password included. */
  datatype Account = Account(id: int, name: string, email: string, password: string, role: Role)

  /** The identity kept in the session: an account with its password stripped. */
  datatype User = User(id: int, name: string, email: string, role: Role)

  const SeedAccounts: seq<Account> := [
    Account(1, "Admin User", "admin@example.com", "admin123", Admin),
    Account(2, "Author User", "author@example.com", "author123", Author),
    Account(3, "Reviewer User", "reviewer@example.com", "reviewer123", Reviewer)
  ]

  function Strip(a: Account): User
  {
    User(a.id, a.name, a.email, a.role)
  }

  /** The role that goes with an identity; no identity, no role. */
  function RoleOf(u: Option<User>): Option<Role>
  {
    if u.Some? then Some(u.value.role) else None
  }

  /** The exact-match test of `login`; a `null` role matches no account. */
  predicate Matches(a: Account, email: string, password: string, role: Option<Role>)
  {
    a.email == email && a.password == password && role == Some(a.role)
  }

  /** The account `login` finds: the first one matching all three of email,
      password and role, if there is one. */
  function FindAccount(users: seq<Account>, email: string, password: string, role: Option<Role>)
    : (r: Option<Account>)
    ensures r.Some? <==> exists i :: 0 <= i < |users| && Matches(users[i], email, password, role)
    ensures r.Some? ==> exists i :: 0 <= i < |users| && users[i] == r.value &&
                          Matches(r.value, email, password, role) &&
                          forall j :: 0 <= j < i ==> !Matches(users[j], email, password, role)
    ensures role.None? ==> r.None?
  {
    Find(users, (a: Account) => Matches(a, email, password, role))
  }

  /** The duplicate test of `register`. */
  function EmailTaken(users: seq<Account>, email: string): (b: bool)
    ensures b <==> exists i :: 0 <= i < |users| && users[i].email == email
  {
    Any(users, (a: Account) => a.email == email)
  }

  /** The account `register` appends: id is the old length + 1, role fixed to author. */
  function NewAuthor(users: seq<Account>, name: string, email: string, password: string): Account
  {
    Account(|users| + 1, name, email, password, Author)
  }

  ghost predicate EmailsDistinct(users: seq<Account>)
  {
    forall i, j :: 0 <= i < j < |users| ==> users[i].email != users[j].email
  }

  ghost predicate AccountIdsArePositions(users: seq<Account>)
  {
    forall i :: 0 <= i < |users| ==> users[i].id == i + 1
  }

  lemma SeedAccountsWellFormed()
    ensures EmailsDistinct(SeedAccounts) && AccountIdsArePositions(SeedAccounts)
  {
  }

  /** With distinct emails, an account matching the triple is the one `login` finds. */
  lemma MatchIsFound(users: seq<Account>, i: int, email: string, password: string, role: Option<Role>)
    requires EmailsDistinct(users)
    requires 0 <= i < |users| && Matches(users[i], email, password, role)
    ensures FindAccount(users, email, password, role) == Some(users[i])
  {
  }

  /** Registering a fresh email keeps emails distinct; ids stay at their positions. */
  lemma RegisterKeepsAccountsWellFormed(users: seq<Account>, name: string, email: string, password: string)
    requires EmailsDistinct(users)
    requires !EmailTaken(users, email)
    ensures EmailsDistinct(users + [NewAuthor(users, name, email, password)])
    ensures AccountIdsArePositions(users) ==>
              AccountIdsArePositions(users + [NewAuthor(users, name, email, password)])
  {
  }

  /** After a successful `register(n, e, p)`, `login(e, p, 'author')` succeeds and
      yields the new account, whose id is the old length + 1. */
  lemma {:induction false} LoginAfterRegister(users: seq<Account>, name: string, email: string, password: string)
    requires EmailsDistinct(users)
    requires !EmailTaken(users, email)
    ensures FindAccount(users + [NewAuthor(users, name, email, password)], email, password, Some(Author))
            == Some(NewAuthor(users, name, email, password))
    ensures NewAuthor(users, name, email, password).id == |users| + 1
  {
    var users' := users + [NewAuthor(users, name, email, password)];
    RegisterKeepsAccountsWellFormed(users, name, email, password);
    MatchIsFound(users', |users|, email, password, Some(Author));
  }

  class SessionStore {
    var users: seq<Account>
    var user: Option<User>
    var role: Option<Role>
    /** The identity copy kept in browser storage (its serialisation is not modelled). */
    var persisted: Option<User>

    ghost predicate Valid()
      reads this
    {
      EmailsDistinct(users) && AccountIdsArePositions(users) &&
      role == RoleOf(user) && persisted == user
    }

    /** `isAuthenticated`: an identity is present. */
    predicate IsAuthenticated()
      reads this
    {
      user.Some?
    }

    /** Start-up: the seeded credentials, and the identity restored from storage, if any. */
    constructor (stored: Option<User>)
      ensures Valid()
      ensures users == SeedAccounts
      ensures user == stored && role == RoleOf(stored) && persisted == stored
    {
      users := SeedAccounts;
      user := stored;
      role := RoleOf(stored);
      persisted := stored;
      SeedAccountsWellFormed();
    }

    /** `login`: succeeds exactly when some account matches email, password and role;
        then the first match, without its password, becomes the identity and is persisted.
        A failed login changes nothing, so a logged-in identity stays. */
    method Login(email: string, password: string, r: Option<Role>) returns (ok: bool)
      requires Valid()
      modifies this
      ensures Valid()
      ensures users == old(users)
      ensures ok <==> exists i :: 0 <= i < |users| && Matches(users[i], email, password, r)
      ensures ok ==> user == Some(Strip(FindAccount(users, email, password, r).value))
      ensures ok ==> role == Some(user.value.role) && persisted == user
      ensures !ok ==> user == old(user) && role == old(role) && persisted == old(persisted)
    {
      var found := FindAccount(users, email, password, r);
      if found.Some? {
        user := Some(Strip(found.value));
        role := Some(found.value.role);
        persisted := user;
        ok := true;
      } else {
        ok := false;
      }
    }

    /** `register`: refuses an email already present; otherwise appends a new author.
        Nobody is logged in by it. */
    method Register(name: string, email: string, password: string) returns (ok: bool)
      requires Valid()
      modifies this
      ensures Valid()
      ensures ok <==> !exists i :: 0 <= i < |old(users)| && old(users)[i].email == email
      ensures ok ==> users == old(users) + [NewAuthor(old(users), name, email, password)]
      ensures !ok ==> users == old(users)
      ensures user == old(user) && role == old(role) && persisted == old(persisted)
    {
      if EmailTaken(users, email) {
        ok := false;
      } else {
        RegisterKeepsAccountsWellFormed(users, name, email, password);
        users := users + [NewAuthor(users, name, email, password)];
        ok := true;
      }
    }

    /** `logout`: clears identity, role and the persisted copy. */
    method Logout()
      requires Valid()
      modifies this
      ensures Valid()
      ensures users == old(users)
      ensures user.None? && role.None? && persisted.None?
      ensures !IsAuthenticated()
    {
      user := None;
      role := None;
      persisted := None;
    }
  }
}

/**
 * The mock authentication store: a dictionary of accounts keyed by lower-cased username,
 * seeded with five users, and the user currently logged in. Login looks the lower-cased
 * username up and compares the stored password; registration refuses a taken username and
 * the admin role, then stores the new account and logs it in.
 */
module Auth {
  import opened Wrappers
  import opened Types

  /** One stored account: the password as stored (compared verbatim) and the user it opens. */
  datatype Account = Account(passwordHash: string, user: User)

  datatype AuthError = InvalidCredentials | UsernameTaken | AdminRegistration

  /** The message each refusal carries. */
  function Message(e: AuthError): string
  {
    match e
    case InvalidCredentials => "Usuário ou senha inválidos."
    case UsernameTaken => "Este nome de usuário já existe."
    case AdminRegistration => "Não é permitido registrar-se como Administrador."
  }

  function ToLowerChar(c: char): (d: char)
    ensures 'A' <= c <= 'Z' ==> d as int == c as int + 32
    ensures !('A' <= c <= 'Z') ==> d == c
  {
    if 'A' <= c <= 'Z' then (c as int + 32) as char else c
  }

  /** Lower-casing, letter by letter (ASCII letters only). */
  function ToLower(s: string): (r: string)
    ensures |r| == |s|
    ensures forall i :: 0 <= i < |s| ==> r[i] == ToLowerChar(s[i])
  {
    if s == [] then [] else [ToLowerChar(s[0])] + ToLower(s[1..])
  }

  predicate IsLower(s: string)
  {
    forall i :: 0 <= i < |s| ==> !('A' <= s[i] <= 'Z')
  }

  /** Lower-casing yields lower case, and lower-casing twice is lower-casing once. */
  lemma ToLowerIsLower(s: string)
    ensures IsLower(ToLower(s))
    ensures ToLower(ToLower(s)) == ToLower(s)
  {
  }

  /** A string already in lower case is its own lower-case form. */
  lemma LowerIsFixed(s: string)
    requires IsLower(s)
    ensures ToLower(s) == s
  {
  }

  /** Usernames differing only in letter case are the same account. */
  lemma CaseInsensitiveKey(a: string, b: string)
    requires |a| == |b|
    requires forall i :: 0 <= i < |a| ==> ToLowerChar(a[i]) == ToLowerChar(b[i])
    ensures ToLower(a) == ToLower(b)
  {
  }

  /** The seeded administrator, the only account with the admin role. */
  const AdminAccount: Account := Account("admin123", User("user-1", "admin", "Administrador", Admin))

  /** The five seeded accounts, in the order they are declared. */
  const SeedAccounts: seq<Account> := [
    AdminAccount,
    Account("gerente123", User("user-2", "gerente", "Gerente", Gerente)),
    Account("ana123", User("user-3", "ana.costa", "Ana Costa", Corretor)),
    Account("bruno123", User("user-4", "bruno.lima", "Bruno Lima", Corretor)),
    Account("financeiro123", User("user-5", "financeiro", "Financeiro", Financeiro))
  ]

  /** A dictionary of accounts keyed by their usernames. */
  function Index(accounts: seq<Account>): (users: map<string, Account>)
    ensures forall k :: k in users <==> exists i :: 0 <= i < |accounts| && accounts[i].user.username == k
    decreases |accounts|
  {
    if accounts == [] then map[]
    else
      var init, last := accounts[..|accounts| - 1], accounts[|accounts| - 1];
      assert forall i :: 0 <= i < |init| ==> init[i] == accounts[i];
      Index(init)[last.user.username := last]
  }

  /** The seeded dictionary: the seeded accounts under their usernames. */
  const SeedUsers: map<string, Account> := Index(SeedAccounts)

  /**
   * The store's invariant: every key is in lower case and is its account's username, and the
   * only administrator is the seeded one.
   */
  ghost predicate WellKeyed(users: map<string, Account>)
  {
    && (forall k :: k in users ==> IsLower(k) && users[k].user.username == k)
    && (forall k :: k in users && users[k].user.role == Admin ==> k == "admin" && users[k] == AdminAccount)
  }

  /** Accounts fit to be stored: lower-case usernames, and no administrator but the seeded one. */
  ghost predicate FitAccounts(accounts: seq<Account>)
  {
    forall i :: 0 <= i < |accounts| ==>
      && IsLower(accounts[i].user.username)
      && (accounts[i].user.role == Admin ==> accounts[i] == AdminAccount)
  }

  /** Indexing fit accounts by username gives a well-keyed dictionary. */
  lemma {:induction false} IndexIsWellKeyed(accounts: seq<Account>)
    requires FitAccounts(accounts)
    ensures WellKeyed(Index(accounts))
    decreases |accounts|
  {
    if accounts != [] {
      var init := accounts[..|accounts| - 1];
      assert FitAccounts(init) by {
        assert forall i :: 0 <= i < |init| ==> init[i] == accounts[i];
      }
      IndexIsWellKeyed(init);
    }
  }

  /** An account whose username no later account repeats is found under that username. */
  lemma {:induction false} IndexFinds(accounts: seq<Account>, i: nat)
    requires i < |accounts|
    requires forall j :: i < j < |accounts| ==> accounts[j].user.username != accounts[i].user.username
    ensures accounts[i].user.username in Index(accounts)
    ensures Index(accounts)[accounts[i].user.username] == accounts[i]
    decreases |accounts|
  {
    if i < |accounts| - 1 {
      var init := accounts[..|accounts| - 1];
      IndexFinds(init, i);
    }
  }

  /** The seeded accounts are fit to be stored. */
  lemma SeedAccountsAreFit()
    ensures FitAccounts(SeedAccounts)
  {
    assert IsLower("admin") && IsLower("gerente") && IsLower("ana.costa");
    assert IsLower("bruno.lima") && IsLower("financeiro");
  }

  /** The seeded dictionary keeps the store's invariant. */
  lemma SeedIsWellKeyed()
    ensures WellKeyed(SeedUsers)
  {
    SeedAccountsAreFit();
    IndexIsWellKeyed(SeedAccounts);
  }

  /** `login`: the lower-cased username's account, when it exists and its password matches. */
  function LoginResult(users: map<string, Account>, username: string, password: string): (r: Result<User, AuthError>)
    ensures r.Ok? <==> ToLower(username) in users && users[ToLower(username)].passwordHash == password
    ensures r.Ok? ==> r.value == users[ToLower(username)].user
    ensures r.Err? ==> r.error == InvalidCredentials
  {
    var key := ToLower(username);
    if key in users && users[key].passwordHash == password then Ok(users[key].user) else Err(InvalidCredentials)
  }

  /** The user a successful registration creates; `stamp` stands for the clock reading in its id. */
  function NewUser(name: string, username: string, role: UserRole, stamp: string): User
  {
    User("user-" + stamp, ToLower(username), name, role)
  }

  /**
   * `register`: a taken username is refused first, then the admin role; otherwise the new
   * user, under the lower-cased username.
   */
  function RegisterResult(users: map<string, Account>, name: string, username: string, role: UserRole, stamp: string)
    : (r: Result<User, AuthError>)
    ensures r.Err? && r.error == UsernameTaken <==> ToLower(username) in users
    ensures r.Err? && r.error == AdminRegistration <==> ToLower(username) !in users && role == Admin
    ensures r.Ok? <==> ToLower(username) !in users && role != Admin
    ensures r.Ok? ==> r.value.username == ToLower(username) && r.value.name == name && r.value.role == role
  {
    if ToLower(username) in users then Err(UsernameTaken)
    else if role == Admin then Err(AdminRegistration)
    else Ok(NewUser(name, username, role, stamp))
  }

  /** A registration keeps the store's invariant. */
  lemma RegisterKeepsWellKeyed(users: map<string, Account>, name: string, username: string, password: string,
                               role: UserRole, stamp: string)
    requires WellKeyed(users)
    requires RegisterResult(users, name, username, role, stamp).Ok?
    ensures WellKeyed(users[ToLower(username) := Account(password, RegisterResult(users, name, username, role, stamp).value)])
  {
    ToLowerIsLower(username);
  }

  /**
   * The lower-case names every plain JavaScript object answers to through its prototype. The
   * account dictionary is such an object, so looking one of these up finds something even
   * though no account has that name.
   */
  const InheritedKeys: set<string> := {"constructor", "__proto__"}

  /**
   * `register` as written: the "already taken" test is a truthiness test on the dictionary
   * lookup, which also succeeds for the inherited names.
   */
  function RegisterResultAsWritten(users: map<string, Account>, name: string, username: string, role: UserRole,
                                   stamp: string): (r: Result<User, AuthError>)
    ensures ToLower(username) in InheritedKeys ==> r == Err(UsernameTaken)
    ensures ToLower(username) !in InheritedKeys ==> r == RegisterResult(users, name, username, role, stamp)
  {
    if ToLower(username) in users || ToLower(username) in InheritedKeys then Err(UsernameTaken)
    else if role == Admin then Err(AdminRegistration)
    else Ok(NewUser(name, username, role, stamp))
  }

  /**
   * The username "constructor" belongs to no account, yet registering it is refused as taken;
   * the intended rule (only existing accounts make a name taken) accepts it.
   */
  lemma InheritedNameIsRefused()
    ensures RegisterResultAsWritten(SeedUsers, "Carla", "constructor", Corretor, "1") == Err(UsernameTaken)
    ensures RegisterResult(SeedUsers, "Carla", "constructor", Corretor, "1").Ok?
  {
    LowerIsFixed("constructor");
    NoSeededConstructor();
  }

  lemma NoSeededConstructor()
    ensures "constructor" !in SeedUsers
  {
    forall i | 0 <= i < |SeedAccounts| ensures SeedAccounts[i].user.username != "constructor" {
    }
  }

  /** After registering, the same username (in any letter case) and password log the new user in. */
  lemma RegisterThenLogin(users: map<string, Account>, name: string, username: string, password: string,
                          role: UserRole, stamp: string, typed: string)
    requires RegisterResult(users, name, username, role, stamp).Ok?
    requires ToLower(typed) == ToLower(username)
    ensures var u := RegisterResult(users, name, username, role, stamp).value;
            LoginResult(users[ToLower(username) := Account(password, u)], typed, password) == Ok(u)
  {
  }

  /** A registered username can never be registered again, whatever its letter case. */
  lemma RegisterThenRegisterAgain(users: map<string, Account>, name: string, username: string, password: string,
                                  role: UserRole, stamp: string, name': string, typed: string, role': UserRole,
                                  stamp': string)
    requires RegisterResult(users, name, username, role, stamp).Ok?
    requires ToLower(typed) == ToLower(username)
    ensures var u := RegisterResult(users, name, username, role, stamp).value;
            RegisterResult(users[ToLower(username) := Account(password, u)], name', typed, role', stamp') == Err(UsernameTaken)
  {
  }

  /** No two seeded accounts share a username. */
  lemma SeedUsernamesDistinct()
    ensures forall i, j :: 0 <= i < j < |SeedAccounts| ==> SeedAccounts[i].user.username != SeedAccounts[j].user.username
  {
  }

  /** Each seeded account is found under its username. */
  lemma SeedLookup(i: nat)
    requires i < |SeedAccounts|
    ensures SeedAccounts[i].user.username in SeedUsers
    ensures SeedUsers[SeedAccounts[i].user.username] == SeedAccounts[i]
  {
    SeedUsernamesDistinct();
    IndexFinds(SeedAccounts, i);
  }

  /** The seeded administrator logs in with its password. */
  lemma AdminLogsIn()
    ensures LoginResult(SeedUsers, "admin", "admin123") == Ok(AdminAccount.user)
  {
    LowerIsFixed("admin");
    SeedLookup(0);
  }

  lemma MixedCaseName()
    ensures ToLower("Ana.Costa") == "ana.costa"
  {
    var t := ToLower("Ana.Costa");
    assert t[0] == 'a' && t[4] == 'c';
  }

  /** The username is matched whatever its letter case. */
  lemma MixedCaseLogsIn()
    ensures LoginResult(SeedUsers, "Ana.Costa", "ana123") == Ok(SeedAccounts[2].user)
  {
    MixedCaseName();
    SeedLookup(2);
  }

  /** The logged-in user's state and the account dictionary. */
  class AuthStore {
    var users: map<string, Account>
    var current: Option<User>

    /** The dictionary is well keyed and whoever is logged in has an account in it. */
    ghost predicate Valid()
      reads this
    {
      && WellKeyed(users)
      && (current.Some? ==> exists k :: k in users && users[k].user == current.value)
    }

    /** A fresh session: the seeded accounts, nobody logged in. */
    constructor()
      ensures Valid()
      ensures users == SeedUsers && current == None
    {
      users := SeedUsers;
      current := None;
      SeedIsWellKeyed();
    }

    /** `login`: on success the account's user is logged in; on failure nothing changes. */
    method Login(username: string, password: string) returns (r: Result<User, AuthError>)
      requires Valid()
      modifies this
      ensures Valid()
      ensures r == LoginResult(old(users), username, password)
      ensures users == old(users)
      ensures current == if r.Ok? then Some(r.value) else old(current)
    {
      var key := ToLower(username);
      if key in users && users[key].passwordHash == password {
        current := Some(users[key].user);
        r := Ok(users[key].user);
      } else {
        r := Err(InvalidCredentials);
      }
    }

    /**
     * `register`: on success the account is stored under the lower-cased username and its
     * user is logged in; a refusal changes nothing.
     */
    method Register(name: string, username: string, password: string, role: UserRole, stamp: string)
      returns (r: Result<User, AuthError>)
      requires Valid()
      modifies this
      ensures Valid()
      ensures r == RegisterResult(old(users), name, username, role, stamp)
      ensures users == if r.Ok? then old(users)[ToLower(username) := Account(password, r.value)] else old(users)
      ensures current == if r.Ok? then Some(r.value) else old(current)
    {
      var key := ToLower(username);
      if key in users {
        return Err(UsernameTaken);
      }
      if role == Admin {
        return Err(AdminRegistration);
      }
      var newUser := User("user-" + stamp, key, name, role);
      RegisterKeepsWellKeyed(users, name, username, password, role, stamp);
      users := users[key := Account(password, newUser)];
      current := Some(newUser);
      r := Ok(newUser);
      assert users[key].user == current.value;
    }

    /** `logout`: nobody is logged in; the accounts stay. */
    method Logout()
      requires Valid()
      modifies this
      ensures Valid()
      ensures current == None && users == old(users)
    {
      current := None;
    }
  }
}

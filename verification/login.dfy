/**
 The sign-in and sign-up form. Usernames are compared case-insensitively,
 passwords exactly.
 */
module Login {
  import opened ArrayOps
  import opened Types
  import opened Store
  import App
  import Admin

  /** `toLowerCase` on one character, for the ASCII letters. */
  function LowerChar(c: char): char
  {
    if 'A' <= c <= 'Z' then (c as int - 'A' as int + 'a' as int) as char else c
  }

  function Lower(s: string): (r: string)
    ensures |r| == |s|
    ensures forall i :: 0 <= i < |s| ==> r[i] == LowerChar(s[i])
  {
    seq(|s|, i requires 0 <= i < |s| => LowerChar(s[i]))
  }

  /** Some user already has this username, ignoring case. */
  predicate Taken(users: seq<User>, username: string)
  {
    exists i :: 0 <= i < |users| && SameName(users[i], username)
  }

  predicate SameName(u: User, username: string)
  {
    Lower(u.username) == Lower(username)
  }

  /** No two users share a username, ignoring case. */
  predicate UniqueUsernames(users: seq<User>)
  {
    forall i, j :: 0 <= i < j < |users| ==> Lower(users[i].username) != Lower(users[j].username)
  }

  /** The login lookup: the first user with that username (ignoring case)
      whose stored password is exactly the one typed. */
  function FindLogin(users: seq<User>, username: string, password: string): (r: Option<User>)
    ensures r.Some? <==> exists i :: 0 <= i < |users| && SameName(users[i], username) && users[i].password == Some(password)
    ensures r.Some? ==> r.value in users && SameName(r.value, username) && r.value.password == Some(password)
  {
    Find(users, (u: User) => SameName(u, username) && u.password == Some(password))
  }

  /** Signing in: on a match the found record becomes the session snapshot;
      otherwise nothing happens. The users list is never modified. */
  function SignIn(s: State, username: string, password: string): (s': State)
    ensures s'.users == s.users && s'.tickets == s.tickets && s'.requests == s.requests
    ensures s'.matches == s.matches && s'.settings == s.settings
    ensures FindLogin(s.users, username, password).None? ==> s'.current == s.current
    ensures FindLogin(s.users, username, password).Some? ==> s'.current == FindLogin(s.users, username, password)
  {
    match FindLogin(s.users, username, password)
    case None => s
    case Some(u) => App.LogIn(s, u)
  }

  /** The self-registration form. */
  datatype SignUpForm = SignUpForm(name: string, username: string, password: string)

  /** Signing up: refused, with nothing changed, when the username is taken
      ignoring case; otherwise a CLIENT with balance 0 and no bookie is
      appended and logged in. */
  function SignUp(s: State, form: SignUpForm, id: string, now: int): (s': State)
    ensures Taken(s.users, form.username) ==> s' == s
    ensures !Taken(s.users, form.username) ==>
              && |s'.users| == |s.users| + 1 && s'.users[..|s.users|] == s.users
              && var u := s'.users[|s.users|];
                 && u.id == id && u.name == form.name && u.username == form.username
                 && u.password == Some(form.password) && u.createdAt == now
                 && u.role == Client && u.balance == 0.0
                 && u.parentId == None && u.totalDepositsByBookie == None && u.pixKey == None
                 && s'.current == Some(u)
    ensures s'.tickets == s.tickets && s'.requests == s.requests
    ensures s'.matches == s.matches && s'.settings == s.settings
  {
    if Taken(s.users, form.username) then s
    else
      var u := User(id, form.name, form.username, Some(form.password), Client, 0.0, None, now, None, None);
      App.LogIn(s.(users := s.users + [u]), u)
  }

  /** Sign-up keeps usernames unique ignoring case. */
  lemma SignUpKeepsUsernamesUnique(s: State, form: SignUpForm, id: string, now: int)
    requires UniqueUsernames(s.users)
    ensures UniqueUsernames(SignUp(s, form, id, now).users)
  {
    var s' := SignUp(s, form, id, now);
    if !Taken(s.users, form.username) {
      forall i, j | 0 <= i < j < |s'.users|
        ensures Lower(s'.users[i].username) != Lower(s'.users[j].username)
      {
        if j == |s.users| {
          assert s'.users[i] == s.users[i];
          assert !SameName(s.users[i], form.username);
        } else {
          assert s'.users[i] == s.users[i] && s'.users[j] == s.users[j];
        }
      }
    }
  }

  /** A user who just signed up can sign in again with the same username
      (in any case) and password, and finds that very record. */
  lemma SignUpThenSignIn(s: State, form: SignUpForm, id: string, now: int, typed: string)
    requires !Taken(s.users, form.username)
    requires Lower(typed) == Lower(form.username)
    ensures var s' := SignUp(s, form, id, now);
            FindLogin(s'.users, typed, form.password) == Some(s'.users[|s.users|])
  {
    var s' := SignUp(s, form, id, now);
    var n := |s.users|;
    var p := (u: User) => SameName(u, typed) && u.password == Some(form.password);
    forall j | 0 <= j < n
      ensures !p(s'.users[j])
    {
      assert s'.users[j] == s.users[j];
      assert !SameName(s.users[j], form.username);
    }
    FindFirst(s'.users, p, n);
  }

  /** Registration by the administrator does not check usernames, so it can
      break the uniqueness sign-up keeps. */
  lemma AdminRegisterMayDuplicate(s: State, form: Admin.RegistrationForm, id: string, now: int)
    requires Taken(s.users, form.username)
    ensures !UniqueUsernames(Admin.RegisterUser(s, form, id, now).users)
  {
    var s' := Admin.RegisterUser(s, form, id, now);
    var i :| 0 <= i < |s.users| && SameName(s.users[i], form.username);
    assert s'.users[i] == s.users[i];
  }

  /** On first start the built-in administrator signs in as "admin" with
      password "admin", typed in any case. */
  lemma DefaultAdminSignsIn(now: int, typed: string)
    requires Lower(typed) == "admin"
    ensures SignIn(InitialState(now), typed, "admin").current == Some(DefaultAdmin(now))
  {
    var users := InitialState(now).users;
    var p := (u: User) => SameName(u, typed) && u.password == Some("admin");
    assert Lower("admin") == "admin";
    FindFirst(users, p, 0);
  }
}

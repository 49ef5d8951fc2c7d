/** The identity lookup (services/authService.ts): a list of user profiles
    stored under one global key, searched by case-insensitive username.
    The simulated network delay is left out; the clock is a parameter. */
module Auth {
  import opened Wrappers
  import opened Types
  import opened Text

  const UsernameTaken: string := "Username already exists"

  /** `a.toLowerCase() === b.toLowerCase()`. */
  predicate SameName(a: string, b: string) {
    ToLower(a) == ToLower(b)
  }

  /** Some stored user already answers to `name`. */
  predicate NameTaken(users: seq<UserProfile>, name: string) {
    exists i :: 0 <= i < |users| && SameName(users[i].username, name)
  }

  /** No two stored usernames differ only in letter case. */
  predicate NamesDistinct(users: seq<UserProfile>) {
    forall i, j :: 0 <= i < j < |users| ==> !SameName(users[i].username, users[j].username)
  }

  /** `users.find(u => u.username.toLowerCase() === name.toLowerCase())`. */
  function FindUser(users: seq<UserProfile>, name: string): (r: Option<UserProfile>)
    ensures r.None? <==> !NameTaken(users, name)
    ensures r.Some? ==> r.value in users && SameName(r.value.username, name)
  {
    if users == [] then None
    else if SameName(users[0].username, name) then Some(users[0])
    else
      var r := FindUser(users[1..], name);
      assert forall j :: 1 <= j < |users| ==> users[j] == users[1..][j - 1];
      r
  }

  /** The lookup returns the FIRST matching user. */
  lemma {:induction false} FindUserFirst(users: seq<UserProfile>, name: string, i: nat)
    requires i < |users| && SameName(users[i].username, name)
    requires forall j :: 0 <= j < i ==> !SameName(users[j].username, name)
    ensures FindUser(users, name) == Some(users[i])
  {
    if i > 0 {
      assert forall j :: 0 <= j < i - 1 ==> users[1..][j] == users[j + 1];
      FindUserFirst(users[1..], name, i - 1);
    }
  }

  /** The profile `signup` creates: `user_<now>`, the name as typed, and the
      join time. */
  function NewUser(username: string, now: nat): UserProfile {
    UserProfile("user_" + DecimalString(now), username, now)
  }

  /** The outcome of `signup`: its result and the stored list afterwards. */
  datatype SignupOutcome = SignupOutcome(result: Result<UserProfile, string>, users: seq<UserProfile>)

  /** `signup` on a list of users. */
  function Register(users: seq<UserProfile>, username: string, now: nat): (o: SignupOutcome)
    ensures o.result.Failure? <==> NameTaken(users, username)
    ensures o.result.Failure? ==> o.result.error == UsernameTaken && o.users == users
    ensures o.result.Success? ==> o.users == users + [o.result.value]
    ensures o.result.Success? ==> o.result.value.username == username
  {
    if FindUser(users, username).Some? then SignupOutcome(Failure(UsernameTaken), users)
    else
      var u := NewUser(username, now);
      SignupOutcome(Success(u), users + [u])
  }

  /** Signing up keeps usernames distinct up to letter case. */
  lemma RegisterKeepsNamesDistinct(users: seq<UserProfile>, username: string, now: nat)
    ensures NamesDistinct(users) ==> NamesDistinct(Register(users, username, now).users)
  {
    var o := Register(users, username, now);
    if NamesDistinct(users) && o.result.Success? {
      forall i, j | 0 <= i < j < |o.users|
        ensures !SameName(o.users[i].username, o.users[j].username)
      {
        if j == |users| {
          assert o.users[i] == users[i];
          assert !SameName(users[i].username, username);
        }
      }
    }
  }

  /** Once `signup(u)` succeeds, `login(v)` finds the new user for every `v`
      that equals `u` up to letter case. */
  lemma LoginAfterSignup(users: seq<UserProfile>, u: string, v: string, now: nat)
    requires Register(users, u, now).result.Success?
    requires SameName(u, v)
    ensures FindUser(Register(users, u, now).users, v) == Some(Register(users, u, now).result.value)
  {
    var o := Register(users, u, now);
    forall j | 0 <= j < |users|
      ensures !SameName(o.users[j].username, v)
    {
      assert o.users[j] == users[j];
    }
    FindUserFirst(o.users, v, |users|);
  }

  /** `signup("Alice")` then `signup("alice")`: the second fails, and the
      list keeps the one new user. */
  lemma SecondSignupDifferingInCaseFails(users: seq<UserProfile>, t1: nat, t2: nat)
    requires !NameTaken(users, "Alice")
    ensures var first := Register(users, "Alice", t1);
      var second := Register(first.users, "alice", t2);
      && first.result.Success?
      && second.result == Failure(UsernameTaken)
      && second.users == users + [NewUser("Alice", t1)]
  {
    var first := Register(users, "Alice", t1);
    assert ToLower("Alice") == "alice";
    assert ToLower("alice") == "alice";
    assert first.users[|users|] == NewUser("Alice", t1);
    assert SameName(first.users[|users|].username, "alice");
  }

  /** The stored user list (the slot under `confi_users`). */
  class AuthService {
    var users: seq<UserProfile>

    constructor ()
      ensures users == []
    {
      users := [];
    }

    method Login(username: string) returns (user: Option<UserProfile>)
      ensures user == FindUser(users, username)
      ensures user.None? <==> !NameTaken(users, username)
    {
      user := FindUser(users, username);
    }

    method Signup(username: string, now: nat) returns (result: Result<UserProfile, string>)
      modifies this
      ensures result == Register(old(users), username, now).result
      ensures users == Register(old(users), username, now).users
      ensures NamesDistinct(old(users)) ==> NamesDistinct(users)
    {
      if FindUser(users, username).Some? {
        return Failure(UsernameTaken);
      }
      var newUser := NewUser(username, now);
      RegisterKeepsNamesDistinct(users, username, now);
      users := users + [newUser];
      return Success(newUser);
    }
  }
}

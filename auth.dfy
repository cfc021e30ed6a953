/**
 * The demo login store (`src/stores/authStore.ts`): three demo accounts whose
 * usernames and PINs come from the environment or fall back to defaults,
 * `login` by exact username and PIN, `logout` and `updateUser` over the two
 * fields `user` and `isAuthenticated`.
 */
module Auth {
  import opened Wrappers

  datatype Role = Admin | Staff | Kitchen

  /** The role string the store writes into a signed-in user. */
  function RoleName(r: Role): string {
    match r
    case Admin => "admin"
    case Staff => "staff"
    case Kitchen => "kitchen"
  }

  /** The six environment variables the demo accounts read; `None` is an unset variable. */
  datatype Env = Env(adminUsername: Option<string>, adminPin: Option<string>,
                     staffUsername: Option<string>, staffPin: Option<string>,
                     kitchenUsername: Option<string>, kitchenPin: Option<string>)

  const Unset := Env(None, None, None, None, None, None)

  /** `value || fallback`: an unset or empty variable gives the fallback. */
  function OrDefault(v: Option<string>, fallback: string): (r: string)
    ensures r == fallback || (v == Some(r) && r != "")
    ensures r != "" || fallback == ""
  {
    if v.Some? && v.value != "" then v.value else fallback
  }

  datatype DemoUser = DemoUser(username: string, pin: string, role: Role)

  /** The demo accounts in the order `login` searches them: admin, staff, kitchen. */
  function DemoUsers(env: Env): (r: seq<DemoUser>)
    ensures |r| == 3 && r[0].role == Admin && r[1].role == Staff && r[2].role == Kitchen
    ensures forall i :: 0 <= i < |r| ==> r[i].username != "" && r[i].pin != ""
  {
    [DemoUser(OrDefault(env.adminUsername, "admin"), OrDefault(env.adminPin, "1234"), Admin),
     DemoUser(OrDefault(env.staffUsername, "staff"), OrDefault(env.staffPin, "1234"), Staff),
     DemoUser(OrDefault(env.kitchenUsername, "kitchen"), OrDefault(env.kitchenPin, "1234"), Kitchen)]
  }

  predicate Fits(u: DemoUser, username: string, pin: string) {
    u.username == username && u.pin == pin
  }

  /** `demoUsers.find(...)`: the first account whose username and PIN both equal the given ones. */
  function Find(users: seq<DemoUser>, username: string, pin: string): (r: Option<DemoUser>)
    ensures r.None? <==> forall i :: 0 <= i < |users| ==> !Fits(users[i], username, pin)
    ensures r.Some? ==> exists i :: 0 <= i < |users| && users[i] == r.value && Fits(users[i], username, pin) &&
                                    forall j :: 0 <= j < i ==> !Fits(users[j], username, pin)
  {
    if users == [] then None
    else if Fits(users[0], username, pin) then Some(users[0])
    else
      var r := Find(users[1..], username, pin);
      assert r.Some? ==> exists i :: 0 <= i < |users| && users[i] == r.value && Fits(users[i], username, pin) &&
                                     forall j :: 0 <= j < i ==> !Fits(users[j], username, pin) by {
        if r.Some? {
          var k :| 0 <= k < |users[1..]| && users[1..][k] == r.value && Fits(users[1..][k], username, pin) &&
                   forall j :: 0 <= j < k ==> !Fits(users[1..][j], username, pin);
          assert users[k + 1] == r.value;
          assert forall j :: 1 <= j < k + 1 ==> users[j] == users[1..][j - 1];
        }
      }
      assert r.None? ==> forall i :: 0 <= i < |users| ==> !Fits(users[i], username, pin) by {
        if r.None? {
          assert forall i :: 1 <= i < |users| ==> users[i] == users[1..][i - 1];
        }
      }
      r
  }

  /**
   * A user as the application holds it. `role` is what is held at run time:
   * `None` stands for a user object without one, such as a stored value read
   * back without checking.
   */
  datatype User = User(id: string, username: string, role: Option<string>, pin: Option<string>,
                       createdAt: string, updatedAt: string)

  datatype AuthState = AuthState(user: Option<User>, isAuthenticated: bool)

  /** The user `login` signs in for a matching account, both timestamps the login time. */
  function SignedIn(d: DemoUser, now: string): User {
    User("user-" + d.username, d.username, Some(RoleName(d.role)), Some(d.pin), now, now)
  }

  /** `login(username, pin)`: the new state and the returned flag. */
  function AfterLogin(s: AuthState, env: Env, username: string, pin: string, now: string): (r: (AuthState, bool))
    ensures r.1 <==> exists i :: 0 <= i < |DemoUsers(env)| && Fits(DemoUsers(env)[i], username, pin)
    ensures !r.1 ==> r.0 == s
    ensures r.1 ==> r.0.isAuthenticated && r.0.user.Some? &&
                    r.0.user.value.username == username && r.0.user.value.pin == Some(pin) &&
                    r.0.user.value.id == "user-" + username
  {
    var d := Find(DemoUsers(env), username, pin);
    if d.Some? then (AuthState(Some(SignedIn(d.value, now)), true), true)
    else (s, false)
  }

  /** `logout()`. */
  function AfterLogout(s: AuthState): (r: AuthState)
    ensures r.user.None? && !r.isAuthenticated
  {
    AuthState(None, false)
  }

  /** `updateUser(user)`: only `user` changes. */
  function AfterUpdateUser(s: AuthState, u: User): (r: AuthState)
    ensures r.user == Some(u) && r.isAuthenticated == s.isAuthenticated
  {
    s.(user := Some(u))
  }

  /**
   * The role a successful login signs in with is that of the first account
   * in the search order that fits; an earlier account with the same username
   * and PIN shadows a later one.
   */
  lemma FirstMatchWins(s: AuthState, env: Env, username: string, pin: string, now: string, i: nat)
    requires i < 3 && Fits(DemoUsers(env)[i], username, pin)
    requires forall j :: 0 <= j < i ==> !Fits(DemoUsers(env)[j], username, pin)
    ensures var (s2, ok) := AfterLogin(s, env, username, pin, now);
            ok && s2.user == Some(SignedIn(DemoUsers(env)[i], now)) &&
            s2.user.value.role == Some(RoleName(DemoUsers(env)[i].role))
  {
    var users := DemoUsers(env);
    var d := Find(users, username, pin);
    var k :| 0 <= k < |users| && users[k] == d.value && Fits(users[k], username, pin) &&
             forall j :: 0 <= j < k ==> !Fits(users[j], username, pin);
    if k < i {
      assert false;
    } else if k > i {
      assert false;
    }
  }

  /** A variable that is unset or empty, so that its default applies. */
  predicate Blank(v: Option<string>) {
    v.None? || v == Some("")
  }

  /** With every variable unset or empty the accounts are admin, staff and kitchen, each with PIN 1234. */
  lemma DefaultUsers(env: Env)
    requires Blank(env.adminUsername) && Blank(env.adminPin) && Blank(env.staffUsername)
    requires Blank(env.staffPin) && Blank(env.kitchenUsername) && Blank(env.kitchenPin)
    ensures DemoUsers(env) == [DemoUser("admin", "1234", Admin), DemoUser("staff", "1234", Staff),
                               DemoUser("kitchen", "1234", Kitchen)]
  {
  }

  /**
   * With the variables unset or empty, `admin`, `staff` and `kitchen` each
   * sign in with PIN 1234 and get their own role.
   */
  lemma DefaultAccounts(s: AuthState, env: Env, now: string)
    requires Blank(env.adminUsername) && Blank(env.adminPin) && Blank(env.staffUsername)
    requires Blank(env.staffPin) && Blank(env.kitchenUsername) && Blank(env.kitchenPin)
    ensures var (s2, ok) := AfterLogin(s, env, "admin", "1234", now);
            ok && s2.user.value.role == Some("admin") && s2.user.value.id == "user-admin"
    ensures var (s2, ok) := AfterLogin(s, env, "staff", "1234", now);
            ok && s2.user.value.role == Some("staff") && s2.user.value.id == "user-staff"
    ensures var (s2, ok) := AfterLogin(s, env, "kitchen", "1234", now);
            ok && s2.user.value.role == Some("kitchen") && s2.user.value.id == "user-kitchen"
  {
    DefaultUsers(env);
    assert "admin" != "staff" && "admin" != "kitchen" && "staff" != "kitchen" by {
      assert "admin"[0] != "staff"[0] && "admin"[0] != "kitchen"[0] && "staff"[0] != "kitchen"[0];
    }
    FirstMatchWins(s, env, "admin", "1234", now, 0);
    FirstMatchWins(s, env, "staff", "1234", now, 1);
    FirstMatchWins(s, env, "kitchen", "1234", now, 2);
  }

  /** With the default accounts, a wrong PIN or a username in another case is refused and changes nothing. */
  lemma DefaultsMatchExactly(s: AuthState, env: Env, now: string)
    requires Blank(env.adminUsername) && Blank(env.adminPin) && Blank(env.staffUsername)
    requires Blank(env.staffPin) && Blank(env.kitchenUsername) && Blank(env.kitchenPin)
    ensures AfterLogin(s, env, "admin", "0000", now) == (s, false)
    ensures AfterLogin(s, env, "Admin", "1234", now) == (s, false)
  {
    DefaultUsers(env);
    assert "0000"[0] != "1234"[0];
    assert "Admin"[0] != "admin"[0] && "Admin"[0] != "staff"[0] && "Admin"[0] != "kitchen"[0];
  }

  /**
   * A variable that renames an account takes the default name away from it:
   * with the staff username set to `admin` and every PIN default, `admin`
   * with PIN 1234 still signs in as the admin account, and `staff` no longer
   * signs in at all.
   */
  lemma RenamedAccount(s: AuthState, now: string)
    ensures var env := Unset.(staffUsername := Some("admin"));
            var (s2, ok) := AfterLogin(s, env, "admin", "1234", now);
            ok && s2.user.value.role == Some("admin")
    ensures AfterLogin(s, Unset.(staffUsername := Some("admin")), "staff", "1234", now) == (s, false)
  {
    var env := Unset.(staffUsername := Some("admin"));
    assert DemoUsers(env) == [DemoUser("admin", "1234", Admin), DemoUser("admin", "1234", Staff),
                              DemoUser("kitchen", "1234", Kitchen)];
    FirstMatchWins(s, env, "admin", "1234", now, 0);
    assert "staff"[0] != "admin"[0] && "staff"[0] != "kitchen"[0];
  }

  /** Logging out and then in again signs in afresh; a failed login after logout leaves the user signed out. */
  lemma LogoutThenLogin(s: AuthState, env: Env, username: string, pin: string, now: string)
    ensures var (s2, ok) := AfterLogin(AfterLogout(s), env, username, pin, now);
            s2.isAuthenticated == ok && (s2.user.Some? <==> ok)
  {
  }

  /** The store: the two fields of the zustand state; the environment is fixed when the bundle is built. */
  class AuthStore {
    var user: Option<User>
    var isAuthenticated: bool
    const env: Env

    function Current(): AuthState
      reads this
    {
      AuthState(user, isAuthenticated)
    }

    constructor(env: Env)
      ensures this.env == env && Current() == AuthState(None, false)
    {
      this.env := env;
      user := None;
      isAuthenticated := false;
    }

    method Login(username: string, pin: string, now: string) returns (ok: bool)
      modifies this
      ensures (Current(), ok) == AfterLogin(old(Current()), env, username, pin, now)
    {
      var demoUser := Find(DemoUsers(env), username, pin);
      if demoUser.Some? {
        user, isAuthenticated := Some(SignedIn(demoUser.value, now)), true;
        return true;
      }
      return false;
    }

    method Logout()
      modifies this
      ensures Current() == AfterLogout(old(Current()))
    {
      user, isAuthenticated := None, false;
    }

    method UpdateUser(updatedUser: User)
      modifies this
      ensures Current() == AfterUpdateUser(old(Current()), updatedUser)
    {
      user := Some(updatedUser);
    }
  }
}

/**
 * The route guard (`src/components/auth/ProtectedRoute.tsx`): with no user it
 * redirects to the fallback path; with a non-empty list of allowed roles it
 * compares the user's role against them after trimming and lower-casing both
 * sides, and redirects to `/unauthorized` when none is equal; otherwise it
 * renders the protected page.
 */
module ProtectedRoute {
  import opened Wrappers
  import Text
  import Auth

  /** `normalize(role)`: trimmed and lower-cased, and "" for an absent role. */
  function Normalize(role: Option<string>): (r: string)
    ensures role.None? ==> r == ""
    ensures role.Some? ==> |r| <= |role.value|
  {
    if role.Some? then Text.Lower(Text.Trim(role.value)) else ""
  }

  /** What the guard returns: a `<Navigate replace>` to a path, or the children. */
  datatype Decision = Redirect(to: string) | Render

  function NormalizedAll(roles: seq<string>): (r: seq<string>)
    ensures |r| == |roles|
    ensures forall i :: 0 <= i < |roles| ==> r[i] == Normalize(Some(roles[i]))
  {
    seq(|roles|, i requires 0 <= i < |roles| => Normalize(Some(roles[i])))
  }

  /**
   * The guard for the signed-in `user`, the `allowedRoles` prop and the
   * `fallbackPath` prop (`None` when not given, so that it defaults to `/login`).
   */
  function Route(user: Option<Auth.User>, allowedRoles: Option<seq<string>>, fallbackPath: Option<string>): (r: Decision)
    ensures user.None? ==> r == Redirect(fallbackPath.GetOr("/login"))
    ensures user.Some? ==> (r == Render <==>
              allowedRoles.None? || |allowedRoles.value| == 0 ||
              exists i :: 0 <= i < |allowedRoles.value| &&
                          Normalize(Some(allowedRoles.value[i])) == Normalize(user.value.role))
    ensures user.Some? ==> r == Render || r == Redirect("/unauthorized")
  {
    if user.None? then Redirect(fallbackPath.GetOr("/login"))
    else if allowedRoles.Some? && |allowedRoles.value| > 0 then
      var userRole := Normalize(user.value.role);
      var normalizedAllowedRoles := NormalizedAll(allowedRoles.value);
      if userRole !in normalizedAllowedRoles then Redirect("/unauthorized") else Render
    else Render
  }

  /** Normalizing a normalized role changes nothing, so both sides are compared in one form. */
  lemma NormalizeIdempotent(role: Option<string>)
    ensures Normalize(Some(Normalize(role))) == Normalize(role)
  {
    if role.Some? {
      Text.TrimLowerIdempotent(role.value);
    } else {
      assert Text.Trim("") == "";
    }
  }

  /** A role equal, after normalizing, to some allowed entry is admitted. */
  lemma Admits(u: Auth.User, roles: seq<string>, fallbackPath: Option<string>, i: nat)
    requires i < |roles| && Normalize(Some(roles[i])) == Normalize(u.role)
    ensures Route(Some(u), Some(roles), fallbackPath) == Render
  {
  }

  /** A role that normalizes differently from every allowed entry is refused. */
  lemma Refuses(u: Auth.User, roles: seq<string>, fallbackPath: Option<string>)
    requires |roles| > 0 && forall i :: 0 <= i < |roles| ==> Normalize(Some(roles[i])) != Normalize(u.role)
    ensures Route(Some(u), Some(roles), fallbackPath) == Redirect("/unauthorized")
  {
  }

  /** Role names already in normal form. */
  lemma NormalAdmin()
    ensures Normalize(Some("admin")) == "admin"
  {
    Text.TrimmedIsFixed("admin");
  }

  lemma NormalKitchen()
    ensures Normalize(Some("kitchen")) == "kitchen"
  {
    Text.TrimmedIsFixed("kitchen");
  }

  /** Capitals and surrounding spaces normalize away. */
  lemma NormalPaddedAdmin()
    ensures Normalize(Some("Admin ")) == "admin"
  {
    assert Text.TrimStart("Admin ") == "Admin ";
    assert Text.TrimEnd("Admin ") == "Admin";
  }

  lemma NormalShoutedAdmin()
    ensures Normalize(Some(" ADMIN")) == "admin"
  {
    assert Text.TrimStart(" ADMIN") == "ADMIN";
    Text.TrimmedIsFixed("ADMIN");
  }

  lemma NormalCapitalKitchen()
    ensures Normalize(Some("Kitchen")) == "kitchen"
  {
    Text.TrimmedIsFixed("Kitchen");
  }

  /** A blank entry normalizes to "", the form of an absent role. */
  lemma NormalBlank()
    ensures Normalize(Some(" ")) == ""
  {
    assert Text.TrimStart(" ") == "";
  }

  /** An allowed role written with capitals and surrounding spaces still admits the user. */
  lemma CaseAndSpacesIgnored(u: Auth.User, fallbackPath: Option<string>)
    requires u.role == Some("admin")
    ensures Route(Some(u), Some(["Admin "]), fallbackPath) == Render
    ensures Route(Some(u.(role := Some(" ADMIN"))), Some(["kitchen", "admin"]), fallbackPath) == Render
  {
    NormalAdmin();
    NormalPaddedAdmin();
    NormalShoutedAdmin();
    Admits(u, ["Admin "], fallbackPath, 0);
    Admits(u.(role := Some(" ADMIN")), ["kitchen", "admin"], fallbackPath, 1);
  }

  /** With no role list, or an empty one, every signed-in user sees the page whatever their role. */
  lemma NoRolesRenders(u: Auth.User, fallbackPath: Option<string>)
    ensures Route(Some(u), None, fallbackPath) == Render
    ensures Route(Some(u), Some([]), fallbackPath) == Render
  {
  }

  /**
   * A user without a role normalizes to "": a list of real roles sends them
   * to `/unauthorized`, while a list holding a blank entry lets them in.
   */
  lemma MissingRole(u: Auth.User, fallbackPath: Option<string>)
    requires u.role.None?
    ensures Route(Some(u), Some(["admin"]), fallbackPath) == Redirect("/unauthorized")
    ensures Route(Some(u), Some(["staff", " "]), fallbackPath) == Render
  {
    NormalAdmin();
    NormalBlank();
    Refuses(u, ["admin"], fallbackPath);
    Admits(u, ["staff", " "], fallbackPath, 1);
  }

  /** Signed out, every guarded page redirects to the fallback path, `/login` unless given. */
  lemma SignedOutRedirects(s: Auth.AuthState, roles: Option<seq<string>>, fallbackPath: Option<string>)
    ensures Route(Auth.AfterLogout(s).user, roles, fallbackPath) == Redirect(fallbackPath.GetOr("/login"))
    ensures Route(Auth.AfterLogout(s).user, roles, None) == Redirect("/login")
  {
  }

  /** A kitchen user is refused an admin-only page and admitted to a page for "Kitchen". */
  lemma KitchenRole(u: Auth.User)
    requires u.role == Some("kitchen")
    ensures Route(Some(u), Some(["admin"]), None) == Redirect("/unauthorized")
    ensures Route(Some(u), Some(["Kitchen"]), None) == Render
  {
    NormalAdmin();
    NormalKitchen();
    NormalCapitalKitchen();
    assert "kitchen"[0] != "admin"[0];
    Refuses(u, ["admin"], None);
    Admits(u, ["Kitchen"], None, 0);
  }

  /**
   * Signed in with the default kitchen account, an admin-only page redirects
   * to `/unauthorized` and a page for "Kitchen" renders.
   */
  lemma KitchenAccount(s: Auth.AuthState, now: string)
    ensures var (s2, ok) := Auth.AfterLogin(s, Auth.Unset, "kitchen", "1234", now);
            ok && Route(s2.user, Some(["admin"]), None) == Redirect("/unauthorized") &&
            Route(s2.user, Some(["Kitchen"]), None) == Render
  {
    Auth.DefaultAccounts(s, Auth.Unset, now);
    var (s2, ok) := Auth.AfterLogin(s, Auth.Unset, "kitchen", "1234", now);
    KitchenRole(s2.user.value);
  }
}

/**
 * The ProtectedRoute component of src/routes/ProtectedRoute.tsx: a hydrated
 * flag flipped by an effect, and a render decision over the hydrated flag,
 * the token, the current path, the route's roles and the user.
 */
module ProtectedRoute {
  import opened Wrappers
  import opened Paths
  import opened AuthStore

  /** What the guard renders: a loading screen, its child routes, a redirect or the denial message. */
  datatype View = Loading | Outlet | RedirectTo(path: string, replace: bool) | AccessDenied(role: string)

  /** The if-chain of ProtectedRoute.tsx:20-47; `roles` is None when the prop is absent. */
  function Decide(hydrated: bool, token: Option<string>, path: string, roles: Option<seq<string>>, user: Option<User>): (v: View)
    ensures v == Loading <==> !hydrated
    ensures v.RedirectTo? <==> hydrated && !Truthy(token) && path != LoginPath
    ensures v.RedirectTo? ==> v == RedirectTo(LoginPath, true)
    ensures v.AccessDenied? <==>
      hydrated && Truthy(token) && roles.Some? && user.Some? && user.value.role !in roles.value
    ensures v.AccessDenied? ==> v.role == user.value.role
    ensures v == Outlet <==>
      hydrated && (if Truthy(token) then roles.None? || user.None? || user.value.role in roles.value
                   else path == LoginPath)
  {
    if !hydrated then Loading
    else if !Truthy(token) && path == LoginPath then Outlet
    else if !Truthy(token) && path != LoginPath then RedirectTo(LoginPath, true)
    else if roles.Some? && user.Some? && user.value.role !in roles.value then AccessDenied(user.value.role)
    else Outlet
  }

  /** One mounted guard: its `hydrated` state (ProtectedRoute.tsx:11-17). */
  class Guard {
    var hydrated: bool

    constructor ()
      ensures !hydrated
    {
      hydrated := false;
    }

    /** The mount effect: hydrated becomes true at once if the store has already hydrated. */
    method OnMount(hasHydrated: bool)
      modifies this
      ensures hydrated == (old(hydrated) || hasHydrated)
    {
      if hasHydrated {
        hydrated := true;
      }
    }

    /** The onFinishHydration callback. */
    method OnFinishHydration()
      modifies this
      ensures hydrated
    {
      hydrated := true;
    }

    method Render(token: Option<string>, path: string, roles: Option<seq<string>>, user: Option<User>) returns (v: View)
      ensures v == Decide(hydrated, token, path, roles, user)
    {
      v := Decide(hydrated, token, path, roles, user);
    }
  }

  /** Until hydration the guard shows neither its children nor a redirect. */
  lemma LoadingUntilHydrated(token: Option<string>, path: string, roles: Option<seq<string>>, user: Option<User>)
    ensures Decide(false, token, path, roles, user) == Loading
  {
  }

  /** A role outside the list is denied in place, whatever the path: never redirected. */
  lemma DeniedRoleIsNotRedirected(token: Option<string>, path: string, roles: seq<string>, user: User)
    requires Truthy(token) && user.role !in roles
    ensures Decide(true, token, path, Some(roles), Some(user)) == AccessDenied(user.role)
  {
  }

  /** An empty roles list is still present (arrays are truthy), so it denies every known user. */
  lemma EmptyRolesDenyEveryUser(token: Option<string>, path: string, user: User)
    requires Truthy(token)
    ensures Decide(true, token, path, Some([]), Some(user)).AccessDenied?
  {
  }
}

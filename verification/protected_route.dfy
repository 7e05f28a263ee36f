/** `routes/ProtectedRoute`: what a guarded route shows for the current
    sign-in state. */
module ProtectedRoute {
  import opened Wrappers

  /** The auth context: still loading, signed in, the member type and the
      member's `userIsAdmin` flag (`userData` may be absent). */
  datatype Auth = Auth(loading: bool, isLoggedIn: bool, userType: Option<string>, userIsAdmin: Option<bool>)

  datatype Decision = Spinner | RedirectToLogin | RedirectToHome | Admit

  predicate IsAdminUser(auth: Auth) {
    auth.userIsAdmin == Some(true)
  }

  predicate Truthy(v: Option<string>) {
    v.Some? && v.value != ""
  }

  /** The route's decision, checks in the component's order. */
  function Decide(auth: Auth, userTypeRequired: Option<string>): (r: Decision)
    ensures auth.loading ==> r == Spinner
    ensures !auth.loading && !auth.isLoggedIn ==> r == RedirectToLogin
    ensures !auth.loading && auth.isLoggedIn && IsAdminUser(auth) ==> r == Admit
    ensures !auth.loading && auth.isLoggedIn && !IsAdminUser(auth) && userTypeRequired == Some("admin") ==> r == RedirectToHome
    ensures !auth.loading && auth.isLoggedIn && !IsAdminUser(auth) && Truthy(userTypeRequired) ==>
              (r == Admit <==> auth.userType == userTypeRequired && userTypeRequired != Some("admin"))
    ensures !auth.loading && auth.isLoggedIn && !Truthy(userTypeRequired) ==> r == Admit
  {
    if auth.loading then Spinner
    else if !auth.isLoggedIn then RedirectToLogin
    else if userTypeRequired == Some("admin") && !IsAdminUser(auth) then RedirectToHome
    else if IsAdminUser(auth) then Admit
    else if Truthy(userTypeRequired) && auth.userType != userTypeRequired then RedirectToHome
    else Admit
  }

  /** Whoever is admitted is signed in, and an admin-only route admits
      admins only; a member-type route admits admins and that type. */
  lemma AdmittedMeansAllowed(auth: Auth, userTypeRequired: Option<string>)
    requires Decide(auth, userTypeRequired) == Admit
    ensures !auth.loading && auth.isLoggedIn
    ensures userTypeRequired == Some("admin") ==> IsAdminUser(auth)
    ensures Truthy(userTypeRequired) ==> IsAdminUser(auth) || auth.userType == userTypeRequired
  {
  }
}

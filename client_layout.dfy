/**
 * The route guard of the signed-in layout: once the session is known it
 * sends visitors without a user to the login page and signed-in users away
 * from the login and registration pages, and it chooses what to render.
 */
module RouteGuard {
  import opened Wrappers

  const LoginPath := "/login"
  const RegisterPath := "/register"
  const HomePath := "/"

  predicate IsAuthPage(path: string)
  {
    path == LoginPath || path == RegisterPath
  }

  /** What the layout renders. */
  datatype Screen = LoadingScreen | ChildrenOnly | Nothing | SidebarLayout

  /** The `useEffect`: the path pushed to the router, if any. */
  function Redirect(isLoading: bool, hasUser: bool, path: string): (target: Option<string>)
    ensures isLoading ==> target == None
    ensures target == Some(LoginPath) <==> !isLoading && !hasUser && !IsAuthPage(path)
    ensures target == Some(HomePath) <==> !isLoading && hasUser && IsAuthPage(path)
    ensures target.Some? ==> target.value == LoginPath || target.value == HomePath
  {
    if isLoading then None
    else if !hasUser && path != LoginPath && path != RegisterPath then Some(LoginPath)
    else if hasUser && (path == LoginPath || path == RegisterPath) then Some(HomePath)
    else None
  }

  /** The component's return value. */
  function Render(isLoading: bool, hasUser: bool, path: string): (screen: Screen)
    ensures screen == LoadingScreen <==> isLoading
    ensures screen == ChildrenOnly <==> !isLoading && !hasUser && IsAuthPage(path)
    ensures screen == Nothing <==> !isLoading && !hasUser && !IsAuthPage(path)
    ensures screen == SidebarLayout <==> !isLoading && hasUser
  {
    if isLoading then LoadingScreen
    else if !hasUser && (path == LoginPath || path == RegisterPath) then ChildrenOnly
    else if !hasUser then Nothing
    else SidebarLayout
  }

  /** A redirect never targets the current path, and at its target the guard is satisfied. */
  lemma RedirectSettles(hasUser: bool, path: string)
    ensures Redirect(false, hasUser, path).Some? ==>
              && Redirect(false, hasUser, path).value != path
              && Redirect(false, hasUser, Redirect(false, hasUser, path).value) == None
  {
  }

  /** The layout renders nothing exactly when it is about to send the visitor to the login page. */
  lemma BlankOnlyWhileRedirecting(isLoading: bool, hasUser: bool, path: string)
    ensures Render(isLoading, hasUser, path) == Nothing <==> Redirect(isLoading, hasUser, path) == Some(LoginPath)
  {
  }

  /** After the redirect the visitor sees the login page alone, or the signed-in layout. */
  lemma ScreenAfterRedirect(hasUser: bool, path: string)
    requires Redirect(false, hasUser, path).Some?
    ensures var target := Redirect(false, hasUser, path).value;
            Render(false, hasUser, target) == (if hasUser then SidebarLayout else ChildrenOnly)
  {
  }
}

/** The routing shell: the two route guards and the route table they wrap. */
module App {
  import opened Wrappers

  /** The signed-in user as the auth provider reports it; only its presence matters here. */
  datatype User = User(id: string)

  /** What a guard renders. */
  datatype GuardView = Spinner | Redirect(target: string) | RenderChildren

  /** `ProtectedRoute`: the spinner while loading, then /auth without a user. */
  function ProtectedRoute(loading: bool, user: Option<User>): (v: GuardView)
    ensures v.Redirect? ==> v.target == "/auth"
    ensures v == RenderChildren <==> !loading && user.Some?
  {
    if loading then Spinner
    else if user.None? then Redirect("/auth")
    else RenderChildren
  }

  /** `PublicRoute`: the spinner while loading, then /dashboard with a user. */
  function PublicRoute(loading: bool, user: Option<User>): (v: GuardView)
    ensures v.Redirect? ==> v.target == "/dashboard"
    ensures v == RenderChildren <==> !loading && user.None?
  {
    if loading then Spinner
    else if user.Some? then Redirect("/dashboard")
    else RenderChildren
  }

  /** While auth is loading both guards show the spinner, whoever the user is. */
  lemma LoadingShowsSpinner(user: Option<User>)
    ensures ProtectedRoute(true, user) == Spinner && PublicRoute(true, user) == Spinner
  {
  }

  /** Each guard's three outcomes and the states that lead to them. */
  lemma GuardOutcomes(loading: bool, user: Option<User>)
    ensures ProtectedRoute(loading, user) == RenderChildren <==> !loading && user.Some?
    ensures ProtectedRoute(loading, user) == Redirect("/auth") <==> !loading && user.None?
    ensures PublicRoute(loading, user) == RenderChildren <==> !loading && user.None?
    ensures PublicRoute(loading, user) == Redirect("/dashboard") <==> !loading && user.Some?
    ensures ProtectedRoute(loading, user) == Spinner <==> loading
    ensures PublicRoute(loading, user) == Spinner <==> loading
  {
  }

  /** Once loading is over, exactly one of the two guards renders its children. */
  lemma ExactlyOneGuardRenders(user: Option<User>)
    ensures (ProtectedRoute(false, user) == RenderChildren) != (PublicRoute(false, user) == RenderChildren)
  {
  }

  /** The pages of the route table. */
  datatype Page =
    | Landing | Browse | HowItWorks | About | ItemDetail(id: string)
    | Auth | Dashboard | AddItem | Settings | Favorites | Community | NotFound

  /** Which guard wraps a page. */
  datatype Guard = Unguarded | PublicOnly | ProtectedOnly

  function GuardOf(page: Page): Guard
  {
    match page
    case Auth => PublicOnly
    case Dashboard | AddItem | Settings | Favorites | Community => ProtectedOnly
    case _ => Unguarded
  }

  /** `/item/:id`: one non-empty segment after `/item/`. */
  predicate IsItemPath(path: string)
  {
    |path| > 6 && path[..6] == "/item/" && '/' !in path[6..]
  }

  /** None of the guarded exact paths has the `/item/` shape. */
  lemma ProtectedPathsAreNotItemPaths()
    ensures !IsItemPath("/auth") && !IsItemPath("/dashboard") && !IsItemPath("/add-item")
    ensures !IsItemPath("/settings") && !IsItemPath("/favorites") && !IsItemPath("/community")
  {
    assert "/item/"[1] == 'i';
    assert "/dashboard"[..6][1] == 'd';
    assert "/add-item"[..6][1] == 'a';
    assert "/settings"[..6][1] == 's';
    assert "/favorites"[..6][1] == 'f';
    assert "/community"[..6][1] == 'c';
  }

  /** The route table: exact paths, `/item/:id`, and the catch-all. */
  function PageFor(path: string): (page: Page)
    ensures GuardOf(page) == ProtectedOnly <==>
      path in {"/dashboard", "/add-item", "/settings", "/favorites", "/community"}
    ensures GuardOf(page) == PublicOnly <==> path == "/auth"
    ensures page.ItemDetail? <==> IsItemPath(path)
  {
    ProtectedPathsAreNotItemPaths();
    if path == "/" then Landing
    else if path == "/browse" then Browse
    else if path == "/how-it-works" then HowItWorks
    else if path == "/about" then About
    else if IsItemPath(path) then ItemDetail(path[6..])
    else if path == "/auth" then Auth
    else if path == "/dashboard" then Dashboard
    else if path == "/add-item" then AddItem
    else if path == "/settings" then Settings
    else if path == "/favorites" then Favorites
    else if path == "/community" then Community
    else NotFound
  }

  /** What visiting a path shows: its page, or what its guard renders instead. */
  datatype Screen = Show(page: Page) | Loading | GoTo(target: string)

  function Visit(path: string, loading: bool, user: Option<User>): (s: Screen)
    ensures s == Loading <==> loading && GuardOf(PageFor(path)) != Unguarded
    ensures s.GoTo? ==> s.target == "/auth" || s.target == "/dashboard"
    ensures s.Show? ==> s.page == PageFor(path)
    ensures s.Show? <==>
      (GuardOf(PageFor(path)) == Unguarded
       || (!loading && (GuardOf(PageFor(path)) == ProtectedOnly <==> user.Some?)))
  {
    var page := PageFor(path);
    var view := match GuardOf(page)
      case Unguarded => RenderChildren
      case PublicOnly => PublicRoute(loading, user)
      case ProtectedOnly => ProtectedRoute(loading, user);
    match view
    case Spinner => Loading
    case Redirect(target) => GoTo(target)
    case RenderChildren => Show(page)
  }

  /** A guard's redirect lands on a page that shows for the same auth state: no redirect loop. */
  lemma RedirectsSettle(path: string, user: Option<User>)
    ensures Visit(path, false, user).GoTo? ==>
      var target := Visit(path, false, user).target;
      Visit(target, false, user) == Show(PageFor(target))
  {
  }

  /** Pages without a guard show whatever the auth state. */
  lemma UnguardedAlwaysShows(path: string, loading: bool, user: Option<User>)
    requires GuardOf(PageFor(path)) == Unguarded
    ensures Visit(path, loading, user) == Show(PageFor(path))
  {
  }
}

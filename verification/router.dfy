/**
 * The router of src/router/index.ts: the route table's metadata and the
 * global `beforeEach` guard, which sets the document title and calls `next`.
 * Path matching and the signed-in user are inputs; the title written to
 * `document.title` and the `next` calls are returned.
 */
module Router {
  import opened Common

  /** A route record's `meta`; a record without `meta` has no title and no flags. */
  datatype Meta = Meta(title: Option<string>, requiresAuth: bool, emailConfirmation: bool)

  const NoMeta := Meta(None, false, false)

  datatype RouteRecord = RouteRecord(path: string, name: string, meta: Meta)

  /** The `routes` table. */
  const Routes: seq<RouteRecord> := [
    RouteRecord("/", "Início", NoMeta),
    RouteRecord("/players", "Players", Meta(Some("Jogadores"), true, false)),
    RouteRecord("/maps", "Maps", Meta(Some("Mapas"), true, false)),
    RouteRecord("/sweepstakes/new", "NewSweepstake", Meta(Some("Novo Sorteio"), true, false)),
    RouteRecord("/sweepstakes/:id", "Sweepstake", Meta(Some("Sorteio"), false, false)),
    RouteRecord("/sweepstakes", "Sweepstakes", Meta(Some("Sorteios"), true, false)),
    RouteRecord("/about", "About", Meta(Some("Sobre"), false, false)),
    RouteRecord("/login", "Login", Meta(Some("Login"), false, false)),
    RouteRecord("/emailConfirmation", "EmailConfirmation", Meta(Some("Confirmação de E-mail"), false, true)),
    RouteRecord("/profile", "Profile", Meta(Some("Meu Perfil"), false, false))
  ]

  const AuthPaths: set<string> := {"/players", "/maps", "/sweepstakes/new", "/sweepstakes"}

  /** `firebase.auth().currentUser`: none, or a user whose e-mail is verified or not. */
  datatype CurrentUser = NoUser | SignedIn(emailVerified: bool)

  /** The target route `to`: its path, its meta, the meta of its matched records, its `title` param. */
  datatype Navigation = Navigation(path: string, meta: Meta, matched: seq<Meta>, titleParam: Option<string>)

  /** One call of the guard's `next`: with a redirect path, or plain. */
  datatype NextCall = NextTo(target: string) | Next

  datatype Flag = RequiresAuth | EmailConfirmation

  function HasFlag(m: Meta, f: Flag): bool
  {
    match f
    case RequiresAuth => m.requiresAuth
    case EmailConfirmation => m.emailConfirmation
  }

  /** `to.matched.some((page) => page.meta.<flag>)`. */
  function AnyMatched(matched: seq<Meta>, f: Flag): (b: bool)
    ensures b <==> exists i :: 0 <= i < |matched| && HasFlag(matched[i], f)
  {
    if |matched| == 0 then false
    else HasFlag(matched[0], f) || AnyMatched(matched[1..], f)
  }

  /**
   * The title before the `title` param is considered: the application title on
   * the home path or when the route has no (or an empty) meta title, otherwise
   * "<meta title> - <application title>".
   */
  function BaseTitle(nav: Navigation, appTitle: string): (t: string)
    ensures nav.path == "/" || !Truthy(nav.meta.title) ==> t == appTitle
    ensures nav.path != "/" && Truthy(nav.meta.title) ==> t == nav.meta.title.value + " - " + appTitle
  {
    if nav.path == "/" || !Truthy(nav.meta.title) then appTitle
    else nav.meta.title.value + " - " + appTitle
  }

  /** The value written to `document.title`: a non-empty `title` param is prefixed. */
  function DocumentTitle(nav: Navigation, appTitle: string): (t: string)
    ensures !Truthy(nav.titleParam) ==> t == BaseTitle(nav, appTitle)
    ensures Truthy(nav.titleParam) ==> t == nav.titleParam.value + " - " + BaseTitle(nav, appTitle)
    ensures |t| >= |appTitle| && t[|t| - |appTitle|..] == appTitle
  {
    var base := BaseTitle(nav, appTitle);
    if Truthy(nav.titleParam) then nav.titleParam.value + " - " + base else base
  }

  /** The redirect to the login page fires: a route needing authentication and no user. */
  predicate LoginRedirect(nav: Navigation, user: CurrentUser)
    ensures LoginRedirect(nav, user) <==>
      user == NoUser && exists i :: 0 <= i < |nav.matched| && nav.matched[i].requiresAuth
    ensures LoginRedirect(nav, user) ==> !EmailRedirect(nav, user)
  {
    AnyMatched(nav.matched, RequiresAuth) && user.NoUser?
  }

  /** The redirect to e-mail confirmation fires: an unverified user outside that page. */
  predicate EmailRedirect(nav: Navigation, user: CurrentUser)
    ensures EmailRedirect(nav, user) <==>
      user == SignedIn(false) && forall i :: 0 <= i < |nav.matched| ==> !nav.matched[i].emailConfirmation
  {
    user.SignedIn? && !user.emailVerified && !AnyMatched(nav.matched, EmailConfirmation)
  }

  /**
   * The `next` calls of one pass of the guard, as written: each redirect is
   * followed, without a `return`, by the final plain `next()`.
   */
  function NextCalls(nav: Navigation, user: CurrentUser): (calls: seq<NextCall>)
    ensures calls == [Next] || (|calls| == 2 && calls[0].NextTo? && calls[1] == Next)
    ensures NextTo("/login") in calls <==> user.NoUser? && AnyMatched(nav.matched, RequiresAuth)
    ensures NextTo("/emailConfirmation") in calls <==>
      user == SignedIn(false) && !AnyMatched(nav.matched, EmailConfirmation)
  {
    (if LoginRedirect(nav, user) then [NextTo("/login")] else []) +
    (if EmailRedirect(nav, user) then [NextTo("/emailConfirmation")] else []) +
    [Next]
  }

  /** The two redirects never fire in the same pass. */
  lemma RedirectsExclusive(nav: Navigation, user: CurrentUser)
    ensures !(NextTo("/login") in NextCalls(nav, user) && NextTo("/emailConfirmation") in NextCalls(nav, user))
  {
  }

  /**
   * `router.beforeEach`: compute the title step by step, then issue the `next`
   * calls in the order the guard's statements run.
   */
  method BeforeEach(nav: Navigation, user: CurrentUser, appTitle: string)
    returns (documentTitle: string, calls: seq<NextCall>)
    ensures documentTitle == DocumentTitle(nav, appTitle)
    ensures calls == NextCalls(nav, user)
    ensures calls[|calls| - 1] == Next
  {
    documentTitle := if nav.path == "/" || !Truthy(nav.meta.title) then appTitle
                     else nav.meta.title.value + " - " + appTitle;
    if Truthy(nav.titleParam) {
      documentTitle := nav.titleParam.value + " - " + documentTitle;
    }
    var requiresAuth := AnyMatched(nav.matched, RequiresAuth);
    calls := [];
    if requiresAuth && user.NoUser? {
      calls := calls + [NextTo("/login")];
    }
    if user.SignedIn? && !user.emailVerified {
      var emailConfirmation := AnyMatched(nav.matched, EmailConfirmation);
      if !emailConfirmation {
        calls := calls + [NextTo("/emailConfirmation")];
      }
    }
    calls := calls + [Next];
  }

  // ----- The route table -----

  /** The paths of the table's routes that carry a flag, in table order. */
  function FlaggedPaths(routes: seq<RouteRecord>, f: Flag): (paths: seq<string>)
    ensures forall p :: p in paths <==> exists i :: 0 <= i < |routes| && routes[i].path == p && HasFlag(routes[i].meta, f)
  {
    if |routes| == 0 then []
    else (if HasFlag(routes[0].meta, f) then [routes[0].path] else []) + FlaggedPaths(routes[1..], f)
  }

  /** Exactly four routes require authentication, and only one is the e-mail confirmation page. */
  lemma RouteTableFlags()
    ensures FlaggedPaths(Routes, RequiresAuth) == ["/players", "/maps", "/sweepstakes/new", "/sweepstakes"]
    ensures FlaggedPaths(Routes, EmailConfirmation) == ["/emailConfirmation"]
  {
    var auth := ["/players", "/maps", "/sweepstakes/new", "/sweepstakes"];
    var email := ["/emailConfirmation"];
    var k := |Routes|;
    assert FlaggedPaths(Routes[k..], RequiresAuth) == [];
    while k > 0
      invariant 0 <= k <= |Routes|
      invariant FlaggedPaths(Routes[k..], RequiresAuth) == auth[AuthBefore(k)..]
      invariant FlaggedPaths(Routes[k..], EmailConfirmation) == email[if k <= 8 then 0 else 1..]
    {
      k := k - 1;
      assert Routes[k..][1..] == Routes[k + 1..];
    }
    assert Routes[0..] == Routes;
  }

  /** How many authenticated routes stand before position `k` of the table. */
  function AuthBefore(k: nat): nat
  {
    if k <= 1 then 0 else if k == 2 then 1 else if k == 3 then 2 else if k <= 5 then 3 else 4
  }

  /**
   * Navigating to a route of the table (matched alone): a visitor without a
   * user is sent to the login page exactly on the authenticated routes, and an
   * unverified user is sent to e-mail confirmation everywhere but that page.
   */
  lemma TableRedirects(r: RouteRecord, param: Option<string>)
    requires r in Routes
    ensures var nav := Navigation(r.path, r.meta, [r.meta], param);
      (NextTo("/login") in NextCalls(nav, NoUser) <==> r.path in AuthPaths) &&
      (NextTo("/emailConfirmation") in NextCalls(nav, SignedIn(false)) <==> r.path != "/emailConfirmation") &&
      NextCalls(nav, SignedIn(true)) == [Next]
  {
  }

  // ----- One `next` per pass -----

  /** A pass that redirects issues two `next` calls. */
  lemma GuestOnPlayersCallsNextTwice()
    ensures NextCalls(Navigation("/players", Routes[1].meta, [Routes[1].meta], None), NoUser)
      == [NextTo("/login"), Next]
  {
  }

  /** The guard as intended: one `next` call, the redirect if one fires, else a plain `next()`. */
  function NextCallIntended(nav: Navigation, user: CurrentUser): (call: NextCall)
    ensures call == NextCalls(nav, user)[0]
    ensures call == Next <==> !LoginRedirect(nav, user) && !EmailRedirect(nav, user)
  {
    if LoginRedirect(nav, user) then NextTo("/login")
    else if EmailRedirect(nav, user) then NextTo("/emailConfirmation")
    else Next
  }
}

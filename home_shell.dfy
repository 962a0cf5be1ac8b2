/** The signed-in home page (src/features/home/components/home-shell.tsx):
    it shows nothing until the session store has been restored from storage,
    then either sends the visitor to `/login` or shows the tabbed projects and
    tasks, headed by the profile's name, email and initial. */
module HomeShell {
  import opened Wrappers
  import opened CookieJar
  import opened AuthToken
  import opened AuthTypes
  import opened SessionStore
  import Middleware

  datatype Tab = ProjectsTab | TasksTab

  /** What the component renders: nothing (`null`) or the tabbed page. */
  datatype Screen = Blank | Page

  /** The redirect effect: once hydrated, with neither a store token nor a
      cookie token, `router.replace("/login")`. */
  predicate ShouldRedirect(isHydrated: bool, storeToken: Option<string>, cookieToken: Option<string>) {
    isHydrated && !Truthy(storeToken) && !Truthy(cookieToken)
  }

  /** The render: nothing before hydration or without any token. */
  function View(isHydrated: bool, storeToken: Option<string>, cookieToken: Option<string>): (s: Screen)
    ensures s == Page <==> isHydrated && (Truthy(storeToken) || Truthy(cookieToken))
  {
    if !isHydrated then Blank
    else if !Truthy(storeToken) && !Truthy(cookieToken) then Blank
    else Page
  }

  /** The effect and the render agree: after hydration the page redirects
      exactly when it renders nothing, and before hydration it does neither. */
  lemma RedirectIffBlank(isHydrated: bool, storeToken: Option<string>, cookieToken: Option<string>)
    ensures !isHydrated ==> !ShouldRedirect(isHydrated, storeToken, cookieToken) && View(isHydrated, storeToken, cookieToken) == Blank
    ensures isHydrated ==> (ShouldRedirect(isHydrated, storeToken, cookieToken) <==> View(isHydrated, storeToken, cookieToken) == Blank)
  {
  }

  /** `data?.user ?? user`: the fetched profile wins over the stored user. */
  function Profile(data: Option<ProfileResponse>, user: Option<AuthUser>): (p: Option<AuthUser>)
    ensures data.Some? ==> p == Some(data.value.user)
    ensures data.None? ==> p == user
  {
    match data
    case Some(d) => Some(d.user)
    case None => user
  }

  /** `profile?.name ?? "Welcome back!"` */
  function DisplayName(profile: Option<AuthUser>): (r: string)
    ensures profile.Some? ==> r == profile.value.name
    ensures profile.None? ==> r == "Welcome back!"
  {
    match profile
    case Some(u) => u.name
    case None => "Welcome back!"
  }

  /** `profile?.email ?? ""` */
  function DisplayEmail(profile: Option<AuthUser>): (r: string)
    ensures profile.Some? ==> r == profile.value.email
    ensures profile.None? ==> r == ""
  {
    match profile
    case Some(u) => u.email
    case None => ""
  }

  /** `s.charAt(0)`: the first character, or "" for an empty string. */
  function CharAt0(s: string): (r: string)
    ensures |r| <= 1 && r <= s
    ensures r == [] <==> s == []
  {
    if s == [] then "" else s[..1]
  }

  /** `profile?.name?.charAt(0) ?? profile?.email?.charAt(0) ?? "U"`. Only a
      nullish value falls through, and a present profile always has a name,
      so the email is never consulted and an empty name shows no initial. */
  function AvatarInitial(profile: Option<AuthUser>): (r: string)
    ensures profile.None? ==> r == "U"
    ensures profile.Some? ==> r == CharAt0(profile.value.name)
    ensures profile.Some? && profile.value.name == [] ==> r == ""
  {
    match profile
    case Some(u) => CharAt0(u.name)
    case None => "U"
  }

  /** The two header lines: "Loading..." and "" while the profile loads. */
  function HeaderLines(isLoading: bool, profile: Option<AuthUser>): (lines: (string, string))
    ensures isLoading ==> lines == ("Loading...", "")
    ensures !isLoading ==> lines == (DisplayName(profile), DisplayEmail(profile))
  {
    if isLoading then ("Loading...", "") else (DisplayName(profile), DisplayEmail(profile))
  }

  /** The component's own state: the hydration flag, the active tab, and the
      `router.replace` calls it has issued. */
  class Shell {
    var isHydrated: bool
    var activeTab: Tab
    var replaced: seq<string>

    /** `useState(() => persist?.hasHydrated?.() ?? false)` and the "projects" tab. */
    constructor (hasHydrated: Option<bool>)
      ensures isHydrated == hasHydrated.GetOr(false)
      ensures activeTab == ProjectsTab && replaced == []
    {
      isHydrated := hasHydrated.GetOr(false);
      activeTab := ProjectsTab;
      replaced := [];
    }

    /** The finish-hydration callback: the flag becomes true and stays true. */
    method FinishHydration()
      modifies this`isHydrated
      ensures isHydrated
    {
      isHydrated := true;
    }

    /** `onValueChange` of the tabs. */
    method SelectTab(tab: Tab)
      modifies this`activeTab
      ensures activeTab == tab
    {
      activeTab := tab;
    }

    /** The redirect effect, run against the store's token and the cookie. */
    method RunRedirectEffect(store: AuthStore)
      requires store.Valid()
      modifies this`replaced
      ensures replaced == old(replaced) + (if ShouldRedirect(isHydrated, store.accessToken, store.doc.CookieToken()) then ["/login"] else [])
    {
      if !isHydrated {
        return;
      }
      if !Truthy(store.accessToken) {
        var cookieToken := store.doc.GetAuthTokenFromCookie();
        if !Truthy(cookieToken) {
          replaced := replaced + ["/login"];
        }
      }
    }

    /** The render, reading the cookie as the component does. */
    method Render(store: AuthStore) returns (screen: Screen)
      requires store.Valid()
      ensures screen == View(isHydrated, store.accessToken, store.doc.CookieToken())
    {
      if !isHydrated {
        return Blank;
      }
      var cookieToken := store.doc.GetAuthTokenFromCookie();
      if !Truthy(store.accessToken) && !Truthy(cookieToken) {
        return Blank;
      }
      return Page;
    }
  }

  /** The two gates read different cookies: with only a non-empty
      `accessToken` cookie and an empty store, the route gate lets `/`
      through, yet the home page, which reads only `auth-token`, renders
      nothing and sends the visitor to `/login`. */
  lemma GatesDisagree(jar: Jar, v: string)
    requires TokenCookie !in Names(jar) && Lookup(jar, Middleware.AccessTokenCookie) == Some(v) && v != []
    ensures Middleware.Gate("/", jar) == Middleware.Next
    ensures TokenOf(jar) == None
    ensures ShouldRedirect(true, None, TokenOf(jar)) && View(true, None, TokenOf(jar)) == Blank
  {
    Middleware.AccessTokenFallback(jar, v);
  }
}

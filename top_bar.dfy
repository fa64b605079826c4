/** The top bar: the breadcrumb trail on documentation, admin, store and
    per-server pages, a page title elsewhere, and the signed-in user's name
    and avatar initial. */
module TopBar {
  import opened Common

  predicate StartsWith(s: string, prefix: string)
  {
    prefix <= s
  }

  /** The breadcrumb replaces the title on these path prefixes (a plain
      prefix test, so "/docsx" counts too). */
  predicate ShowBreadcrumb(pathname: string)
  {
    StartsWith(pathname, "/docs") || StartsWith(pathname, "/admin")
    || StartsWith(pathname, "/store") || StartsWith(pathname, "/vps/")
  }

  function PageTitle(pathname: string): (r: string)
    ensures r in {"Dashboard", "VPS Management", "Create VPS", "Support", "Settings", "Account",
                  "Terms of Service", "Privacy Policy", "Resource Store", "Admin Panel"}
  {
    if pathname == "/dashboard" then "Dashboard"
    else if pathname == "/vps" then "VPS Management"
    else if pathname == "/vps/create" then "Create VPS"
    else if pathname == "/support" then "Support"
    else if pathname == "/settings" then "Settings"
    else if pathname == "/account" then "Account"
    else if pathname == "/terms" then "Terms of Service"
    else if pathname == "/privacy" then "Privacy Policy"
    else if pathname == "/store" then "Resource Store"
    else if StartsWith(pathname, "/admin") then "Admin Panel"
    else "Dashboard"
  }

  /** The pages with a title of their own. */
  const FixedTitles: map<string, string> := map[
    "/dashboard" := "Dashboard", "/vps" := "VPS Management", "/vps/create" := "Create VPS",
    "/support" := "Support", "/settings" := "Settings", "/account" := "Account",
    "/terms" := "Terms of Service", "/privacy" := "Privacy Policy", "/store" := "Resource Store"]

  /** The title chain read as a table: a listed page has its own title,
      any other page under "/admin" is "Admin Panel", and the rest fall
      back to "Dashboard". */
  lemma PageTitleByTable(pathname: string)
    ensures pathname in FixedTitles ==> PageTitle(pathname) == FixedTitles[pathname]
    ensures pathname !in FixedTitles && StartsWith(pathname, "/admin") ==> PageTitle(pathname) == "Admin Panel"
    ensures pathname !in FixedTitles && !StartsWith(pathname, "/admin") ==> PageTitle(pathname) == "Dashboard"
  {
  }

  datatype Heading = Trail | Title(text: string)

  function HeadingOf(pathname: string): (r: Heading)
    ensures r.Trail? <==> ShowBreadcrumb(pathname)
    ensures r.Title? ==> r.text == PageTitle(pathname)
  {
    if ShowBreadcrumb(pathname) then Trail else Title(PageTitle(pathname))
  }

  /** Three of the titles can never be displayed, because their paths
      always show the breadcrumb; unknown paths are titled "Dashboard". */
  lemma UnreachableTitles(pathname: string)
    ensures HeadingOf(pathname) != Title("Create VPS")
    ensures HeadingOf(pathname) != Title("Resource Store")
    ensures HeadingOf(pathname) != Title("Admin Panel")
  {
  }

  /** "/vps" is titled, while "/vps/" and every page below it show the trail. */
  lemma ServerPages(rest: string)
    ensures HeadingOf("/vps") == Title("VPS Management")
    ensures HeadingOf("/vps/" + rest).Trail?
  {
    assert StartsWith("/vps/" + rest, "/vps/");
  }

  /** The name next to the avatar: the username, else the e-mail, else
      "Guest" (empty text counts as missing). */
  function UserLabel(isLoading: bool, username: Option<string>, email: Option<string>): (r: string)
    ensures r != ""
    ensures !isLoading && username.Some? && username.value != "" ==> r == username.value
  {
    if isLoading then "Loading..."
    else if username.Some? && username.value != "" then username.value
    else if email.Some? && email.value != "" then email.value
    else "Guest"
  }

  /** The avatar letter: the upper-cased first letter of the username,
      else of the e-mail, else "U". */
  function AvatarInitial(isLoading: bool, username: Option<string>, email: Option<string>): (r: string)
    ensures |r| == if isLoading then 0 else 1
  {
    if isLoading then ""
    else if username.Some? && username.value != "" then ToUpper(username.value[..1])
    else if email.Some? && email.value != "" then ToUpper(email.value[..1])
    else "U"
  }

  /** Once loaded, the avatar letter is the first letter of the label,
      upper-cased, except for a guest, whose letter is "U". */
  lemma InitialMatchesLabel(username: Option<string>, email: Option<string>)
    ensures (var shown := UserLabel(false, username, email);
      var initial := AvatarInitial(false, username, email);
      (shown == "Guest" && initial == "U")
      || (shown != "" && initial == ToUpper(shown[..1])))
    ensures |AvatarInitial(false, username, email)| == 1
  {
  }
}

/**
 * The link-visibility rule of src/components/Navbar.tsx: which entries the
 * navigation bar shows, in order, for the `user` slot of the session store.
 */
module Navbar {
  import opened Wrappers
  import opened JsonValue
  import opened SessionModel
  import opened AuthContext
  import opened Api

  datatype NavItem = Link(caption: string, to: string) | LogoutButton

  const Home := Link("Research Tracker", "/")
  const Projects := Link("Projects", "/projects")
  const Milestones := Link("Milestones", "/milestones")
  const Documents := Link("Documents", "/documents")
  const Admin := Link("Admin", "/admin")
  const LoginLink := Link("Login", "/login")
  const Register := Link("Register", "/register")

  /** Shown only while someone is logged in. */
  predicate LoggedInItem(i: NavItem) {
    i in {Projects, Milestones, Documents, Admin, LogoutButton}
  }

  /** Shown only while nobody is logged in. */
  predicate LoggedOutItem(i: NavItem) {
    i in {LoginLink, Register}
  }

  /**
   * The entries shown, in order: the brand link, then the group guarded by
   * `user && (…)` (with Admin inside it guarded by `user.role === "ADMIN"`),
   * then the group guarded by `!user`. The two guards are complementary, so
   * exactly one group appears.
   */
  function VisibleLinks(user: Json): (r: seq<NavItem>)
    ensures Home in r
    ensures Projects in r <==> Truthy(user)
    ensures Milestones in r <==> Truthy(user)
    ensures Documents in r <==> Truthy(user)
    ensures LogoutButton in r <==> Truthy(user)
    ensures Admin in r <==> Truthy(user) && RoleOf(user) == Some("ADMIN")
    ensures LoginLink in r <==> !Truthy(user)
    ensures Register in r <==> !Truthy(user)
    ensures !Truthy(user) ==> r == [Home, LoginLink, Register]
    ensures Truthy(user) ==> |r| >= 5 && r[..4] == [Home, Projects, Milestones, Documents] && r[|r| - 1] == LogoutButton
    ensures forall i, j :: 0 <= i < j < |r| ==> r[i] != r[j]
    ensures forall i :: i in r ==> i == Home || LoggedInItem(i) || LoggedOutItem(i)
  {
    if !Truthy(user) then [Home, LoginLink, Register]
    else if RoleOf(user) == Some("ADMIN") then [Home, Projects, Milestones, Documents, Admin, LogoutButton]
    else [Home, Projects, Milestones, Documents, LogoutButton]
  }

  /** The logged-in and logged-out entries never appear together. */
  lemma LinkSetsExclusive(user: Json, i: NavItem, j: NavItem)
    requires i in VisibleLinks(user) && LoggedInItem(i)
    requires LoggedOutItem(j)
    ensures j !in VisibleLinks(user)
  {
  }

  /**
   * Clicking the Logout button (shown only while someone is logged in) runs the
   * store's `logout`, after which the bar shows the logged-out entries.
   */
  method ClickLogout(p: AuthProvider)
    requires LogoutButton in VisibleLinks(p.user)
    modifies p, p.storage
    ensures p.Snapshot() == LogoutStep(old(p.Snapshot()))
    ensures VisibleLinks(p.user) == [Home, LoginLink, Register]
  {
    p.Logout();
  }

  /**
   * A login with the empty token, which does not decode, does not bring the
   * page down: the re-render skips the decode of a falsy token. The previous
   * `user` stays, so the bar keeps showing the logged-in entries, while
   * requests carry no bearer header and a reload comes up logged out.
   */
  lemma EmptyTokenLoginKeepsUser(p: Page, decode: Decoder, headers: map<string, string>)
    requires decode("").None? && Truthy(p.session.user)
    ensures Apply(p, Login(""), decode) == Live(Page(p.storage[TokenKey := ""], Session(Some(""), p.session.user)))
    ensures Projects in VisibleLinks(Apply(p, Login(""), decode).page.session.user)
    ensures WithBearer(headers, StoredToken(Apply(p, Login(""), decode).page.storage)) == headers
    ensures Boot(p.storage[TokenKey := ""], decode) == Live(Page(p.storage[TokenKey := ""], Session(Some(""), JNull)))
  {
    assert StoredToken(p.storage[TokenKey := ""]) == Some("");
  }
}

/**
 * The application shell: the sidebar menu and the header's page title, the signed-in
 * user's display name and avatar letter, and the collapsible sidebar.
 */
module Layout {
  import opened Wrappers
  import opened Js
  import Text
  import AuthContext

  /** `getUserDisplayName`. */
  function DisplayName(user: Option<AuthContext.User>): (name: string)
    ensures user.None? ==> name == "User"
    ensures user.Some? && StrTruthy(user.value.firstName) && StrTruthy(user.value.lastName) ==>
      name == user.value.firstName.value + " " + user.value.lastName.value
    ensures user.Some? && StrTruthy(user.value.firstName) && !StrTruthy(user.value.lastName) ==>
      name == user.value.firstName.value
    ensures user.Some? && !StrTruthy(user.value.firstName) ==> name == user.value.username
  {
    if user.None? then "User"
    else
      var u := user.value;
      if StrTruthy(u.firstName) && StrTruthy(u.lastName) then u.firstName.value + " " + u.lastName.value
      else if StrTruthy(u.firstName) then u.firstName.value
      else u.username
  }

  /** A last name without a first name is not shown. */
  lemma LastNameAloneIsIgnored(u: AuthContext.User)
    requires !StrTruthy(u.firstName)
    ensures DisplayName(Some(u)) == DisplayName(Some(u.(lastName := None)))
  {
  }

  /** The display name always starts with the first name when there is one. */
  lemma DisplayNameStartsWithFirstName(u: AuthContext.User)
    requires StrTruthy(u.firstName)
    ensures var f := u.firstName.value;
      |DisplayName(Some(u))| >= |f| && DisplayName(Some(u))[..|f|] == f
  {
  }

  /** `s.charAt(0).toUpperCase()`: the first character upper-cased, `""` for `""`. */
  function FirstLetter(s: string): (r: string)
    ensures s == "" ==> r == ""
    ensures s != "" ==> r == [Text.UpperChar(s[0])]
  {
    if s == "" then "" else Text.Upper(s[..1])
  }

  /** The avatar's letter: from the first name when it is truthy, else from the username. */
  function AvatarLetter(user: Option<AuthContext.User>): (r: Option<string>)
    ensures user.None? ==> r.None?
    ensures user.Some? && StrTruthy(user.value.firstName) ==> r == Some(FirstLetter(user.value.firstName.value))
    ensures user.Some? && !StrTruthy(user.value.firstName) ==> r == Some(FirstLetter(user.value.username))
  {
    if user.None? then None
    else if StrTruthy(user.value.firstName) then Some(FirstLetter(user.value.firstName.value))
    else Some(FirstLetter(user.value.username))
  }

  /** The avatar's letter is the first letter of the display name, upper-cased. */
  lemma AvatarMatchesDisplayName(user: Option<AuthContext.User>)
    requires user.Some?
    ensures AvatarLetter(user) == Some(FirstLetter(DisplayName(user)))
  {
    var u := user.value;
    if StrTruthy(u.firstName) {
      var d := DisplayName(user);
      assert d[0] == u.firstName.value[0];
    }
  }

  /** The role line: the user's role, `User` when there is none. */
  function RoleText(user: Option<AuthContext.User>): (r: string)
    ensures r != ""
    ensures user.Some? && user.value.role != "" ==> r == user.value.role
    ensures !(user.Some? && user.value.role != "") ==> r == "User"
  {
    if user.Some? && user.value.role != "" then user.value.role else "User"
  }

  /** The sidebar menu: route keys and their labels, in order. */
  const MENU: seq<(string, string)> := [
    ("/", "Dashboard"), ("/equipment", "Equipment"), ("/quotations", "Quotations"),
    ("/delivery-orders", "Delivery Orders"), ("/invoices", "Invoices"), ("/inventory", "Inventory"),
    ("/analytics", "Analytics"), ("/settings", "Settings"), ("/users", "Users")]

  /** The label of the first menu item whose key is `path`. */
  function FindLabel(menu: seq<(string, string)>, path: string): (r: Option<string>)
    ensures r.None? <==> forall i :: 0 <= i < |menu| ==> menu[i].0 != path
    ensures r.Some? ==> (path, r.value) in menu
  {
    if menu == [] then None
    else if menu[0].0 == path then Some(menu[0].1)
    else FindLabel(menu[1..], path)
  }

  /** The header title: the label of the current path's menu item, else `Dashboard`. */
  function PageTitle(path: string): (t: string)
    ensures (forall i :: 0 <= i < |MENU| ==> MENU[i].0 != path) ==> t == "Dashboard"
  {
    OrStr(FindLabel(MENU, path), "Dashboard")
  }

  /** The first item with a given key is the one found. */
  lemma {:induction false} FindLabelFirst(menu: seq<(string, string)>, i: nat)
    requires i < |menu|
    requires forall j :: 0 <= j < i ==> menu[j].0 != menu[i].0
    ensures FindLabel(menu, menu[i].0) == Some(menu[i].1)
  {
    if i > 0 {
      FindLabelFirst(menu[1..], i - 1);
    }
  }

  /** Every menu item's route shows that item's label as the title. */
  lemma MenuTitles(i: nat)
    requires i < |MENU|
    ensures PageTitle(MENU[i].0) == MENU[i].1
  {
    FindLabelFirst(MENU, i);
  }

  /** The sidebar's collapsed flag. */
  class Sider {
    var collapsed: bool

    constructor ()
      ensures !collapsed
    {
      collapsed := false;
    }

    method Toggle()
      modifies this
      ensures collapsed == !old(collapsed)
    {
      collapsed := !collapsed;
    }

    /** The `lg` breakpoint: a narrow screen collapses the sidebar, a wide one leaves it. */
    method OnBreakpoint(broken: bool)
      modifies this
      ensures broken ==> collapsed
      ensures !broken ==> collapsed == old(collapsed)
    {
      if broken {
        collapsed := true;
      }
    }

    /** The user's name and role, and the version line, are shown only when expanded. */
    predicate ShowsLabels()
      reads this
    {
      !collapsed
    }
  }
}

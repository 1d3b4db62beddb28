/** The navigation menu of `src/components/Sidebar/Sidebar.jsx`: three items
    for everyone, two more for creators, and which one is highlighted. */
module Sidebar {
  import opened Common

  /** The signed-in user's fields the menu reads. */
  datatype User = User(userType: Option<string>, role: Option<string>, id: Option<string>, mongoId: Option<string>)

  datatype MenuItem = MenuItem(path: string, title: string)

  const BaseItems := [MenuItem("/home", "Home"), MenuItem("/search", "Search"), MenuItem("/saved", "Saved")]

  /** The role the menu acts on: `userType`, else `role`, else "", in lower case. */
  function Role(user: Option<User>): (r: string)
    ensures user.None? ==> r == ""
    ensures forall i :: 0 <= i < |r| ==> !('A' <= r[i] <= 'Z')
    ensures user.Some? && !Truthy(user.value.userType) && !Truthy(user.value.role) ==> r == ""
  {
    match user
    case None => ""
    case Some(u) => ToLower(OrElse(FirstTruthy(u.userType, u.role), ""))
  }

  predicate IsCreator(user: Option<User>) {
    Role(user) == "creator"
  }

  /** The profile entry's path; a user without either id links to
      "/creator/undefined". */
  function ProfilePath(u: User): (path: string)
    ensures StartsWith(path, "/creator/")
  {
    StartsWithConcat("/creator/", JsString(FirstTruthy(u.id, u.mongoId)));
    "/creator/" + JsString(FirstTruthy(u.id, u.mongoId))
  }

  /** The items in display order. */
  function Items(user: Option<User>): (items: seq<MenuItem>)
    ensures |items| >= 3 && items[..3] == BaseItems
    ensures |items| == 5 <==> IsCreator(user)
    ensures |items| == 3 <==> !IsCreator(user)
    ensures IsCreator(user) ==> items[3] == MenuItem("/upload", "Create") && items[4] == MenuItem(ProfilePath(user.value), "Profile")
  {
    BaseItems + if IsCreator(user) then [MenuItem("/upload", "Create"), MenuItem(ProfilePath(user.value), "Profile")] else []
  }

  /** An item is highlighted when its path is exactly the current one: a
      longer path below it, such as a sub-page, does not highlight it. */
  predicate IsActive(item: MenuItem, pathname: string)
    ensures |pathname| != |item.path| ==> !IsActive(item, pathname)
  {
    item.path == pathname
  }

  /** The role is read case-insensitively: an upper-case creator gets the
      creator items, whichever field carries the role. */
  lemma RoleIgnoresCase()
    ensures IsCreator(Some(User(Some("CREATOR"), None, Some("7"), None)))
    ensures IsCreator(Some(User(None, Some("Creator"), Some("7"), None)))
  {
    UpperCreatorLowers();
    TitleCreatorLowers();
  }

  lemma UpperCreatorLowers()
    ensures IsCreator(Some(User(Some("CREATOR"), None, Some("7"), None)))
  {
    var a := ToLower("CREATOR");
    assert a[0] == 'c' && a[1] == 'r' && a[2] == 'e' && a[3] == 'a' && a[4] == 't' && a[5] == 'o' && a[6] == 'r';
    assert OrElse(FirstTruthy(Some("CREATOR"), None), "") == "CREATOR";
  }

  lemma TitleCreatorLowers()
    ensures IsCreator(Some(User(None, Some("Creator"), Some("7"), None)))
  {
    var b := ToLower("Creator");
    assert b[0] == 'c' && b[1] == 'r' && b[2] == 'e' && b[3] == 'a' && b[4] == 't' && b[5] == 'o' && b[6] == 'r';
    assert OrElse(FirstTruthy(None, Some("Creator")), "") == "Creator";
  }

  /** A truthy `userType` wins over `role`: a diner whose fallback `role`
      says creator gets no creator items, and neither does a signed-out visitor. */
  lemma UserTypeWins()
    ensures !IsCreator(Some(User(Some("user"), Some("creator"), Some("7"), None)))
    ensures !IsCreator(None)
  {
    assert |ToLower("user")| == 4;
  }

  /** The menu's paths are pairwise different. */
  lemma PathsDistinct(user: Option<User>)
    ensures var items := Items(user);
      forall i, j :: 0 <= i < j < |items| ==> items[i].path != items[j].path
  {
    var items := Items(user);
    if IsCreator(user) {
      var p := ProfilePath(user.value);
      assert p[..9] == "/creator/";
      assert p[1] == 'c';
      assert items[4].path == p;
    }
  }

  /** At most one item is highlighted, whatever the current path. */
  lemma AtMostOneActive(user: Option<User>, pathname: string, i: int, j: int)
    requires 0 <= i < |Items(user)| && 0 <= j < |Items(user)|
    requires IsActive(Items(user)[i], pathname) && IsActive(Items(user)[j], pathname)
    ensures i == j
  {
    PathsDistinct(user);
  }
}

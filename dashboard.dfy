/** The dashboard shell: which sidebar link is highlighted for the current path,
    and what the user card shows when parts of the user are missing. */
module Dashboard {
  import opened Wrappers
  import opened Strings
  import AuthStore

  /** A sidebar link. Only Overview matches its path exactly. */
  datatype SidebarItem = SidebarItem(title: string, href: string, exact: bool)

  const SidebarItems := [
    SidebarItem("Overview", "/dashboard", true),
    SidebarItem("New Order", "/dashboard/new-order", false),
    SidebarItem("Orders", "/dashboard/orders", false),
    SidebarItem("Brand Kit", "/dashboard/brand-kit", false),
    SidebarItem("Billing", "/dashboard/billing", false),
    SidebarItem("Account", "/dashboard/account", false)]

  /** `isActive(href, exact)`: an exact link needs the path itself, any other is
      active on every path that starts with its href. */
  predicate IsActive(pathname: string, href: string, exact: bool): (b: bool)
    ensures b ==> StartsWith(pathname, href)
    ensures b && exact ==> |pathname| == |href|
    ensures exact ==> (b <==> pathname == href)
    ensures !exact && StartsWith(pathname, href) ==> b
  {
    if exact then pathname == href else StartsWith(pathname, href)
  }

  /** Matching exactly implies matching as a prefix. */
  lemma ExactImpliesPrefix(pathname: string, href: string)
    requires IsActive(pathname, href, true)
    ensures IsActive(pathname, href, false)
  {
  }

  /** Overview is exact because every dashboard path starts with its href: as a
      prefix link it would be highlighted on the orders page too. */
  lemma OverviewNeedsExact()
    ensures StartsWith("/dashboard/orders", "/dashboard")
    ensures !IsActive("/dashboard/orders", SidebarItems[0].href, SidebarItems[0].exact)
    ensures IsActive("/dashboard/orders", SidebarItems[2].href, SidebarItems[2].exact)
  {
  }

  /** The sidebar items active on `pathname`, by position: whatever the path,
      at most one link is highlighted. */
  function ActiveItems(pathname: string): (r: set<nat>)
    ensures |r| <= 1
    ensures forall k :: k in r ==> k < |SidebarItems|
  {
    forall k, j | 0 <= k < |SidebarItems| && 0 <= j < |SidebarItems| && k != j
      ensures !(IsActive(pathname, SidebarItems[k].href, SidebarItems[k].exact)
                && IsActive(pathname, SidebarItems[j].href, SidebarItems[j].exact))
    {
      NotBothActive(pathname, k, j);
    }
    AtMostOne(set k | 0 <= k < |SidebarItems| && IsActive(pathname, SidebarItems[k].href, SidebarItems[k].exact));
    set k | 0 <= k < |SidebarItems| && IsActive(pathname, SidebarItems[k].href, SidebarItems[k].exact)
  }

  /** On each sidebar link's own path, that link is the only one highlighted. In
      particular Overview is not highlighted on the orders page. */
  lemma OneActivePerItem(k: nat)
    requires k < |SidebarItems|
    ensures ActiveItems(SidebarItems[k].href) == {k}
  {
    var p := SidebarItems[k].href;
    forall j | 0 <= j < |SidebarItems| && j != k
      ensures !IsActive(p, SidebarItems[j].href, SidebarItems[j].exact)
    {
      NotActive(k, j);
    }
  }

  lemma NotActive(k: nat, j: nat)
    requires k < |SidebarItems| && j < |SidebarItems| && j != k
    ensures !IsActive(SidebarItems[k].href, SidebarItems[j].href, SidebarItems[j].exact)
  {
    var p, h := SidebarItems[k].href, SidebarItems[j].href;
    if j == 0 {
      assert |p| != |h|;
    } else if k == 0 {
      assert |p| < |h|;
    } else {
      var i := if p[11] != h[11] then 11 else 12;
      DiffersAt(p, h, i);
    }
  }

  /** Two strings that differ at an offset both reach are not prefixes of each
      other. */
  lemma DiffersAt(p: string, h: string, i: nat)
    requires i < |p| && i < |h| && p[i] != h[i]
    ensures !StartsWith(p, h)
  {
    if |h| <= |p| {
      assert p[..|h|][i] != h[i];
    }
  }

  /** No path highlights two different links: Overview's exact path is shorter
      than every other href, and any two other hrefs differ within both of
      them, so they cannot both be prefixes of one path. */
  lemma NotBothActive(pathname: string, k: nat, j: nat)
    requires k < |SidebarItems| && j < |SidebarItems| && k != j
    ensures !(IsActive(pathname, SidebarItems[k].href, SidebarItems[k].exact)
              && IsActive(pathname, SidebarItems[j].href, SidebarItems[j].exact))
  {
    var hk, hj := SidebarItems[k].href, SidebarItems[j].href;
    if k == 0 {
      assert |hk| < |hj|;
    } else if j == 0 {
      assert |hj| < |hk|;
    } else {
      var i := if hk[11] != hj[11] then 11 else 12;
      if StartsWith(pathname, hk) && |hj| <= |pathname| {
        assert pathname[..|hk|][i] == pathname[..|hj|][i];
      }
    }
  }

  /** A set whose elements are all equal has at most one element. */
  lemma AtMostOne(r: set<nat>)
    requires forall a, b :: a in r && b in r ==> a == b
    ensures |r| <= 1
  {
    if r != {} {
      var x :| x in r;
      assert r == {x};
    }
  }

  /** The letter in the avatar circle: the name's first character, or `U` when
      there is no user or the name is empty. */
  function AvatarLetter(user: Option<AuthStore.User>): (r: string)
    ensures |r| == 1
    ensures user.Some? && user.value.name != "" ==> r == user.value.name[..1]
    ensures user.None? || user.value.name == "" ==> r == "U"
  {
    if user.Some? && user.value.name != "" then user.value.name[..1] else "U"
  }

  /** `user?.name || 'User'`. */
  function DisplayName(user: Option<AuthStore.User>): (r: string)
    ensures r != ""
    ensures user.Some? && user.value.name != "" ==> r == user.value.name
    ensures user.None? || user.value.name == "" ==> r == "User"
  {
    if user.Some? && user.value.name != "" then user.value.name else "User"
  }

  /** `user?.email || 'user@example.com'`. */
  function DisplayEmail(user: Option<AuthStore.User>): (r: string)
    ensures r != ""
    ensures user.Some? && user.value.email != "" ==> r == user.value.email
    ensures user.None? || user.value.email == "" ==> r == "user@example.com"
  {
    if user.Some? && user.value.email != "" then user.value.email else "user@example.com"
  }

  /** What the avatar circle holds: the picture when the user has a non-empty
      avatar URL, otherwise the letter. */
  datatype Avatar = Picture(src: string, alt: string) | Letter(letter: string)

  function AvatarView(user: Option<AuthStore.User>): (a: Avatar)
    ensures a.Picture? <==> user.Some? && user.value.avatar.Some? && user.value.avatar.value != ""
    ensures a.Picture? ==> a.src == user.value.avatar.value && a.alt == user.value.name
    ensures a.Letter? ==> a.letter == AvatarLetter(user)
  {
    if user.Some? && user.value.avatar.Some? && user.value.avatar.value != ""
    then Picture(user.value.avatar.value, user.value.name)
    else Letter(AvatarLetter(user))
  }

  /** The demo account shows its picture, name and email; a signed-up user,
      having no avatar, shows the first letter of the name. */
  lemma DemoAndNewUserCards(now: string, name: string, email: string, id: string)
    requires name != ""
    ensures AvatarView(Some(AuthStore.DemoUser(now))).Picture?
    ensures DisplayName(Some(AuthStore.DemoUser(now))) == "Demo User"
    ensures AvatarView(Some(AuthStore.MockSignUp(name, email, "", id, now))) == Letter(name[..1])
  {
  }
}

/**
 * The navigation registry of lib/navigation.ts: the dashboard item, one
 * item per entity, and the settings item, with selection by group and the
 * list of groups present.
 */
module Navigation {
  import opened Outcomes
  import opened Seqs
  import Icons

  datatype NavGroup = Core | Entities | Settings | Modules

  datatype NavItem = NavItem(
    href: string, caption: string, icon: string, group: NavGroup, badge: Option<string>, external: Option<bool>)

  const DashboardItem := NavItem("/dashboard", "Dashboard", "LayoutDashboard", Core, None, None)

  const SettingsItem := NavItem("/settings", "Settings", "Settings", Settings, None, None)

  /** The entity entries: URL slug and caption, in registry order. */
  const EntitySlugs: seq<(string, string)> := [
    ("users", "User"), ("listings", "Listing"), ("reviews", "Review"), ("shops", "Shop"),
    ("orders", "Order"), ("payments", "Payment"), ("subscriptions", "Subscription"), ("uploads", "Upload"),
    ("channels", "Channel"), ("notifications", "Notification"), ("conversations", "Conversation"),
    ("messages", "Message"), ("global-search-features", "Global Search Feature"),
    ("safe-transactionses", "Safe Transactions"), ("own-shop-systems", "Own Shop System"),
    ("set-your-own-priceses", "Set Your Own Prices"), ("no-transaction-feeses", "No Transaction Fees"),
    ("messages-and-chat-systems", "Messages And Chat System"), ("classified-ad-markets", "Classified Ad Market"),
    ("member-reviewses", "Member Reviews"), ("privacy-functionses", "Privacy Functions"),
    ("media-clouds", "Media Cloud"), ("user-blocking-systems", "User Blocking System"),
    ("human-operated-fake-checks", "Human Operated Fake Check"),
    ("member-reviews-and-ratingses", "Member Reviews And Ratings"),
    ("full-featured-profileses", "Full Featured Profiles"),
    ("seller-ratings-and-buyer-reviewses", "Seller Ratings And Buyer Reviews"),
    ("user-ranking-lists", "User Ranking List"), ("friends-and-fans-systems", "Friends And Fans System"),
    ("custom-video-clipses", "Custom Video Clips"), ("private-photosetses", "Private Photosets"),
    ("whatsapp-and-skype-chatses", "Whatsapp And Skype Chats"), ("profiles", "Profile"),
    ("media-files", "Media File"), ("comments", "Comment"), ("invoices", "Invoice")
  ]

  /** An entity item: its list page, its caption (the source's `label`), the icon looked up by its slug, the entities group. */
  function EntityItem(slug: string, caption: string): (item: NavItem)
    ensures item.href == "/" + slug && item.caption == caption && item.group == Entities
    ensures item.icon == Icons.GetEntityIcon(slug)
  {
    NavItem("/" + slug, caption, Icons.GetEntityIcon(slug), Entities, None, None)
  }

  function EntityItems(entries: seq<(string, string)>): (r: seq<NavItem>)
    ensures |r| == |entries|
    ensures forall k :: 0 <= k < |entries| ==> r[k] == EntityItem(entries[k].0, entries[k].1)
  {
    seq(|entries|, k requires 0 <= k < |entries| => EntityItem(entries[k].0, entries[k].1))
  }

  /** The registry's layout for a list of entity entries: dashboard, the entities, settings. */
  function Registry(entries: seq<(string, string)>): (r: seq<NavItem>)
    ensures |r| == |entries| + 2
    ensures r[0] == DashboardItem && r[|r| - 1] == SettingsItem
    ensures forall k :: 0 < k < |r| - 1 ==> r[k] == EntityItem(entries[k - 1].0, entries[k - 1].1)
  {
    [DashboardItem] + EntityItems(entries) + [SettingsItem]
  }

  /** `NAV_ITEMS`: it starts with the dashboard and ends with settings. */
  function NavItems(): (r: seq<NavItem>)
    ensures |r| == |EntitySlugs| + 2
    ensures r[0] == DashboardItem && r[|r| - 1] == SettingsItem
  {
    Registry(EntitySlugs)
  }

  function InGroup(group: NavGroup): NavItem -> bool {
    (item: NavItem) => item.group == group
  }

  /** `getNavItemsByGroup(group)`: exactly the items of that group, in registry order. */
  function GetNavItemsByGroup(group: NavGroup): (r: seq<NavItem>)
    ensures forall x :: x in r <==> x in NavItems() && x.group == group
    ensures IsSubsequence(r, NavItems())
  {
    FilterIsSubsequence(InGroup(group), NavItems());
    Filter(InGroup(group), NavItems())
  }

  function Groups(items: seq<NavItem>): (r: seq<NavGroup>)
    ensures |r| == |items|
    ensures forall k :: 0 <= k < |items| ==> r[k] == items[k].group
  {
    seq(|items|, k requires 0 <= k < |items| => items[k].group)
  }

  /** `getNavGroups()`: each group present once, in order of first appearance. */
  function GetNavGroups(): (r: seq<NavGroup>)
    ensures NoDuplicates(r)
    ensures forall g :: g in r <==> g in Groups(NavItems())
  {
    Dedup(Groups(NavItems()))
  }

  /** With at least one entity, the layout's groups are core, entities, settings. */
  lemma RegistryGroups(entries: seq<(string, string)>)
    requires |entries| > 0
    ensures Dedup(Groups(Registry(entries))) == [Core, Entities, Settings]
  {
    var gs := Groups(Registry(entries));
    var t := gs[1..|gs| - 1];
    Reassemble(gs);
    assert forall k :: 0 <= k < |t| ==> t[k] == Entities;
    DedupLayout(t);
  }

  /** Core, then only entities, then settings de-duplicate to those three groups. */
  lemma DedupLayout(t: seq<NavGroup>)
    requires |t| > 0 && forall k :: 0 <= k < |t| ==> t[k] == Entities
    ensures Dedup([Core] + t + [Settings]) == [Core, Entities, Settings]
  {
    DedupRunThenNew(Core, Entities, Settings, t);
  }

  /** A sequence of at least two elements is its first, its middle and its last. */
  lemma Reassemble<T>(s: seq<T>)
    requires |s| >= 2
    ensures s == ([s[0]] + s[1..|s| - 1]) + [s[|s| - 1]]
  {
  }

  /** For this registry the groups are core, entities, settings; "modules" is not present. */
  lemma NavGroupsOfRegistry()
    ensures GetNavGroups() == [Core, Entities, Settings]
  {
    RegistryGroups(EntitySlugs);
  }

  /** Counting each group separately accounts for every item exactly once. */
  lemma {:induction false} GroupsPartition(items: seq<NavItem>)
    ensures |Filter(InGroup(Core), items)| + |Filter(InGroup(Entities), items)|
            + |Filter(InGroup(Settings), items)| + |Filter(InGroup(Modules), items)| == |items|
    decreases |items|
  {
    if |items| > 0 {
      GroupsPartition(items[1..]);
    }
  }

  /** The per-group lists of the registry partition it. */
  lemma RegistryPartition()
    ensures |GetNavItemsByGroup(Core)| + |GetNavItemsByGroup(Entities)|
            + |GetNavItemsByGroup(Settings)| + |GetNavItemsByGroup(Modules)| == |NavItems()|
  {
    GroupsPartition(NavItems());
  }

  /** Whatever the entity entries, every icon of the layout is among the used icons. */
  lemma RegistryIconsAreUsed(entries: seq<(string, string)>)
    ensures forall k :: 0 <= k < |Registry(entries)| ==> Registry(entries)[k].icon in Icons.UsedIcons
  {
  }

  /** Every icon the navigation shows is among the used icons. */
  lemma NavIconsAreUsed()
    ensures forall k :: 0 <= k < |NavItems()| ==> NavItems()[k].icon in Icons.UsedIcons
  {
    RegistryIconsAreUsed(EntitySlugs);
  }
}

/**
 * The icon registry of lib/icons.ts: entity keys to Lucide icon names, the
 * lookup with its "FileText" fallback, and the list of icon names in use.
 */
module Icons {

  /** `ENTITY_ICONS`. */
  const EntityIcons: map<string, string> := map[
    "dashboard" := "LayoutDashboard",
    "user" := "User",
    "listing" := "List",
    "review" := "Star",
    "shop" := "FileText",
    "order" := "ShoppingCart",
    "payment" := "CreditCard",
    "subscription" := "Repeat",
    "upload" := "FileText",
    "channel" := "FileText",
    "notification" := "Bell",
    "conversation" := "MessagesSquare",
    "message" := "Mail",
    "global-search-feature" := "FileText",
    "safe-transactions" := "FileText",
    "own-shop-system" := "FileText",
    "set-your-own-prices" := "FileText",
    "no-transaction-fees" := "FileText",
    "messages-and-chat-system" := "FileText",
    "classified-ad-market" := "FileText",
    "member-reviews" := "FileText",
    "privacy-functions" := "FileText",
    "media-cloud" := "FileText",
    "user-blocking-system" := "FileText",
    "human-operated-fake-check" := "FileText",
    "member-reviews-and-ratings" := "FileText",
    "full-featured-profiles" := "FileText",
    "seller-ratings-and-buyer-reviews" := "FileText",
    "user-ranking-list" := "FileText",
    "friends-and-fans-system" := "FileText",
    "custom-video-clips" := "FileText",
    "private-photosets" := "FileText",
    "whatsapp-and-skype-chats" := "FileText",
    "profile" := "UserCircle",
    "media-file" := "FileText",
    "comment" := "MessageSquare",
    "reaction" := "FileText",
    "pricing-plan" := "FileText",
    "invoice" := "Receipt"
  ]

  const Fallback: string := "FileText"

  /** `USED_ICONS`. */
  const UsedIcons: seq<string> := [
    "Bell", "CreditCard", "FileText", "Home", "LayoutDashboard", "List", "Mail", "MessageSquare",
    "MessagesSquare", "Receipt", "Repeat", "Settings", "ShoppingCart", "Star", "User", "UserCircle"
  ]

  /** Every icon the registry maps to is listed as used. */
  lemma RegistryIconsAreUsed()
    ensures forall k :: k in EntityIcons ==> EntityIcons[k] in UsedIcons
  {
  }

  /**
   * The names a plain JavaScript object answers for without having them as
   * own keys: the properties of `Object.prototype`.
   */
  const InheritedNames: set<string> := {
    "constructor", "hasOwnProperty", "isPrototypeOf", "propertyIsEnumerable", "toLocaleString",
    "toString", "valueOf", "__proto__", "__defineGetter__", "__defineSetter__",
    "__lookupGetter__", "__lookupSetter__"
  }

  /** What an index into `ENTITY_ICONS` yields: an icon name, an inherited member, or nothing. */
  datatype Lookup = IconName(name: string) | InheritedMember(key: string) | Undefined

  /**
   * `ENTITY_ICONS[entityKey] ?? "FileText"` as JavaScript evaluates it: a
   * key the object does not have itself but inherits from
   * `Object.prototype` yields that member (a function or object), which
   * `??` lets through.
   */
  function GetEntityIconAsWritten(entityKey: string): (r: Lookup)
    ensures entityKey in EntityIcons ==> r == IconName(EntityIcons[entityKey])
    ensures entityKey !in EntityIcons && entityKey in InheritedNames ==> r == InheritedMember(entityKey)
    ensures entityKey !in EntityIcons && entityKey !in InheritedNames ==> r == IconName(Fallback)
  {
    var indexed := if entityKey in EntityIcons then IconName(EntityIcons[entityKey])
                   else if entityKey in InheritedNames then InheritedMember(entityKey)
                   else Undefined;
    if indexed.Undefined? then IconName(Fallback) else indexed
  }

  /** "constructor" gets `Object`, not an icon name, so the fallback never applies to it. */
  lemma ConstructorIsNotAnIcon()
    ensures !GetEntityIconAsWritten("constructor").IconName?
  {
  }

  /**
   * `getEntityIcon` as the registry intends it (an own-key lookup): the
   * mapped name for a known key, "FileText" for every other string.
   */
  function GetEntityIcon(entityKey: string): (r: string)
    ensures entityKey in EntityIcons ==> r == EntityIcons[entityKey]
    ensures entityKey !in EntityIcons ==> r == Fallback
    ensures r in UsedIcons
  {
    RegistryIconsAreUsed();
    if entityKey in EntityIcons then EntityIcons[entityKey] else Fallback
  }

  /** The corrected lookup agrees with the as-written one on every key that is not an inherited name. */
  lemma LookupsAgreeOffPrototype(entityKey: string)
    requires entityKey !in InheritedNames || entityKey in EntityIcons
    ensures GetEntityIconAsWritten(entityKey) == IconName(GetEntityIcon(entityKey))
  {
  }

  /** The keys are singular: the plural keys the navigation passes fall back. */
  lemma PluralUsersFallsBack()
    ensures GetEntityIcon("users") == Fallback
  {
  }

  lemma PluralCommentsFallsBack()
    ensures GetEntityIcon("comments") == Fallback
  {
  }

  /** "dashboard" has an icon of its own. */
  lemma DashboardIcon()
    ensures GetEntityIcon("dashboard") == "LayoutDashboard"
  {
    assert "dashboard" in EntityIcons && EntityIcons["dashboard"] == "LayoutDashboard";
  }
}

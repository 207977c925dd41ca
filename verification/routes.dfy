/**
 * The route registry of lib/routes.ts: the fixed routes, and for every
 * entity key the list, detail, create and edit paths, all built from one
 * template.
 */
module Routes {
  import opened Seqs
  import opened Text

  const Home: string := "/"
  const Dashboard: string := "/dashboard"
  const Login: string := "/login"
  const Register: string := "/register"

  /** `ENTITY_ROUTE_KEYS`, in order. */
  const EntityRouteKeys: seq<string> := [
    "users", "listings", "reviews", "shops", "orders", "payments", "subscriptions", "uploads",
    "channels", "notifications", "conversations", "messages", "global-search-features",
    "safe-transactionses", "own-shop-systems", "set-your-own-priceses", "no-transaction-feeses",
    "messages-and-chat-systems", "classified-ad-markets", "member-reviewses", "privacy-functionses",
    "media-clouds", "user-blocking-systems", "human-operated-fake-checks", "member-reviews-and-ratingses",
    "full-featured-profileses", "seller-ratings-and-buyer-reviewses", "user-ranking-lists",
    "friends-and-fans-systems", "custom-video-clipses", "private-photosetses", "whatsapp-and-skype-chatses",
    "profiles", "media-files", "comments", "reactions", "pricing-plans", "invoices"
  ]

  /** The routes of one entity: `list` and `create` are strings, `detail` and `edit` build on an id. */
  datatype EntityRoutes = EntityRoutes(list: string, create: string) {
    /** `detail(id)`: the list path, a slash, the id. */
    function Detail(id: string): (p: string)
      ensures p == list + "/" + id
    {
      list + "/" + id
    }

    /** `edit(id)`: the detail path followed by "/edit". */
    function Edit(id: string): (p: string)
      ensures p == Detail(id) + "/edit"
    {
      list + "/" + id + "/edit"
    }
  }

  /** The entry every key of `ROUTES` has: "/key", "/key/new", "/key/{id}", "/key/{id}/edit". */
  function RoutesFor(key: string): (r: EntityRoutes)
    ensures r.list == "/" + key && r.create == "/" + key + "/new"
  {
    EntityRoutes("/" + key, "/" + key + "/new")
  }

  /** `getEntityRoutes(key)`, for the keys its type admits. */
  function GetEntityRoutes(key: string): (r: EntityRoutes)
    requires key in EntityRouteKeys
    ensures r.list == "/" + key && r.create == "/" + key + "/new"
    ensures forall id :: r.Detail(id) == "/" + key + "/" + id && r.Edit(id) == "/" + key + "/" + id + "/edit"
  {
    RoutesFor(key)
  }

  /** Different ids give different detail paths. */
  lemma DetailInjective(key: string, a: string, b: string)
    requires RoutesFor(key).Detail(a) == RoutesFor(key).Detail(b)
    ensures a == b
  {
    var r := RoutesFor(key);
    assert a == r.Detail(a)[|r.list| + 1..];
  }

  /** Different ids give different edit paths. */
  lemma EditInjective(key: string, a: string, b: string)
    requires RoutesFor(key).Edit(a) == RoutesFor(key).Edit(b)
    ensures a == b
  {
    var r := RoutesFor(key);
    var e := r.Edit(a);
    assert r.Detail(a) == e[..|e| - 5];
    DetailInjective(key, a, b);
  }

  /** The detail page of an entity whose id is "new" is the create page. */
  lemma DetailOfNewIsCreate(key: string)
    ensures RoutesFor(key).Detail("new") == RoutesFor(key).create
  {
  }

  /** A slash-free key and id can be read back from a detail path. */
  lemma DetailDeterminesKeyAndId(k1: string, id1: string, k2: string, id2: string)
    requires '/' !in k1 && '/' !in k2
    requires RoutesFor(k1).Detail(id1) == RoutesFor(k2).Detail(id2)
    ensures k1 == k2 && id1 == id2
  {
    var p := RoutesFor(k1).Detail(id1);
    assert p == "/" + k1 + "/" + id1;
    assert p == "/" + k2 + "/" + id2;
    assert p[1 + |k1|] == '/' && p[1 + |k2|] == '/';
    assert k1 == p[1..1 + |k1|] == k2;
    assert id1 == p[2 + |k1|..] == id2;
  }

  /** The position of an entity key in `ENTITY_ROUTE_KEYS`, -1 for any other string. */
  function KeyPosition(key: string): int {
    match key
      case "users" => 0
      case "listings" => 1
      case "reviews" => 2
      case "shops" => 3
      case "orders" => 4
      case "payments" => 5
      case "subscriptions" => 6
      case "uploads" => 7
      case "channels" => 8
      case "notifications" => 9
      case "conversations" => 10
      case "messages" => 11
      case "global-search-features" => 12
      case "safe-transactionses" => 13
      case "own-shop-systems" => 14
      case "set-your-own-priceses" => 15
      case "no-transaction-feeses" => 16
      case "messages-and-chat-systems" => 17
      case "classified-ad-markets" => 18
      case "member-reviewses" => 19
      case "privacy-functionses" => 20
      case "media-clouds" => 21
      case "user-blocking-systems" => 22
      case "human-operated-fake-checks" => 23
      case "member-reviews-and-ratingses" => 24
      case "full-featured-profileses" => 25
      case "seller-ratings-and-buyer-reviewses" => 26
      case "user-ranking-lists" => 27
      case "friends-and-fans-systems" => 28
      case "custom-video-clipses" => 29
      case "private-photosetses" => 30
      case "whatsapp-and-skype-chatses" => 31
      case "profiles" => 32
      case "media-files" => 33
      case "comments" => 34
      case "reactions" => 35
      case "pricing-plans" => 36
      case "invoices" => 37
      case _ => -1
  }

  lemma KeyPositionsMatch()
    ensures forall i :: 0 <= i < |EntityRouteKeys| ==> KeyPosition(EntityRouteKeys[i]) == i
  {
  }

  /** The keys are pairwise distinct, so their list paths are too. */
  lemma KeysAreDistinct()
    ensures NoDuplicates(EntityRouteKeys)
    ensures forall i, j :: 0 <= i < j < |EntityRouteKeys| ==>
              GetEntityRoutes(EntityRouteKeys[i]).list != GetEntityRoutes(EntityRouteKeys[j]).list
  {
    KeyPositionsMatch();
    NoDuplicatesByPosition(EntityRouteKeys, KeyPosition);
    forall i, j | 0 <= i < j < |EntityRouteKeys|
      ensures GetEntityRoutes(EntityRouteKeys[i]).list != GetEntityRoutes(EntityRouteKeys[j]).list
    {
      ListPathsDiffer(EntityRouteKeys[i], EntityRouteKeys[j]);
    }
  }

  /** Different keys have different list paths. */
  lemma ListPathsDiffer(k1: string, k2: string)
    requires k1 != k2
    ensures RoutesFor(k1).list != RoutesFor(k2).list
  {
    assert ("/" + k1)[1..] == k1;
    assert ("/" + k2)[1..] == k2;
  }
}

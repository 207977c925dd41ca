/**
 * The cross-entity search endpoint of app/api/search/route.ts: query and
 * limit handling, one query per table in a fixed order, and the collection
 * of the non-empty result groups. What a table returns for a query is an
 * input (an oracle from table, pattern and limit to rows or null).
 */
module SearchRoute {
  import opened Outcomes
  import opened Seqs
  import opened Text

  /** A row as the database returns it. */
  datatype Row = Row(fields: seq<(string, string)>)

  /** One group of the response: the entity type label and its rows. */
  datatype Group = Group(typeLabel: string, items: seq<Row>)

  /** The searched tables with the type label of their group, in the order they are queried. */
  const Tables: seq<(string, string)> := [
    ("users", "User"), ("listings", "Listing"), ("reviews", "Review"), ("shops", "Shop"),
    ("orders", "Order"), ("payments", "Payment"), ("subscriptions", "Subscription"), ("uploads", "Upload"),
    ("channels", "Channel"), ("notifications", "Notification"), ("conversations", "Conversation"),
    ("messages", "Message"), ("global_search_features", "GlobalSearchFeature"),
    ("safe_transactionses", "SafeTransactions"), ("own_shop_systems", "OwnShopSystem"),
    ("set_your_own_priceses", "SetYourOwnPrices"), ("no_transaction_feeses", "NoTransactionFees"),
    ("messages_and_chat_systems", "MessagesAndChatSystem"), ("classified_ad_markets", "ClassifiedAdMarket"),
    ("member_reviewses", "MemberReviews"), ("privacy_functionses", "PrivacyFunctions"),
    ("media_clouds", "MediaCloud"), ("user_blocking_systems", "UserBlockingSystem"),
    ("human_operated_fake_checks", "HumanOperatedFakeCheck"),
    ("member_reviews_and_ratingses", "MemberReviewsAndRatings"),
    ("full_featured_profileses", "FullFeaturedProfiles"),
    ("seller_ratings_and_buyer_reviewses", "SellerRatingsAndBuyerReviews"),
    ("user_ranking_lists", "UserRankingList"), ("friends_and_fans_systems", "FriendsAndFansSystem"),
    ("custom_video_clipses", "CustomVideoClips"), ("private_photosetses", "PrivatePhotosets"),
    ("whatsapp_and_skype_chatses", "WhatsappAndSkypeChats"), ("profiles", "Profile"),
    ("media_files", "MediaFile"), ("comments", "Comment"), ("reactions", "Reaction"),
    ("pricing_plans", "PricingPlan"), ("invoices", "Invoice")
  ]

  /** The query a table receives: the `%q%` pattern, and the row limit. */
  datatype TableQuery = TableQuery(table: string, pattern: string, limit: int)

  /** The JSON body: the groups, and the trimmed query (absent when the request is gated). */
  datatype SearchResponse = SearchResponse(results: seq<Group>, query: Option<string>)

  /** The response together with the queries the handler issued, in order. */
  datatype SearchRun = SearchRun(response: SearchResponse, queries: seq<TableQuery>)

  /** `searchParams.get("q")?.trim()`. */
  function TrimmedQuery(q: Option<string>): (r: Option<string>)
    ensures r.Some? <==> q.Some?
    ensures r.Some? ==> r.value == Trim(q.value)
  {
    match q
    case Some(s) => Some(Trim(s))
    case None => None
  }

  /**
   * `!q || q.length < 2`: the requests answered with no results and no query
   * at all. `length` counts UTF-16 code units, so a single emoji passes.
   */
  predicate Gated(q: Option<string>) {
    var t := TrimmedQuery(q);
    t.None? || Utf16Length(t.value) < 2
  }

  /**
   * A query of one character outside the Basic Multilingual Plane (a single
   * emoji, say) is two code units, long enough to be searched.
   */
  lemma AstralCharIsSearched(c: char)
    requires IsAstral(c)
    ensures !Gated(Some([c]))
  {
    assert !IsSpace(c);
    TrimOfTrimmed([c]);
    assert Utf16Length([c]) == 2;
  }

  /** A query of one code unit (a single letter, say) is gated. */
  lemma NarrowCharIsGated(c: char)
    requires !IsAstral(c)
    ensures Gated(Some([c]))
  {
    assert Utf16Length([c]) == 1;
    Utf16LengthOfTrim([c]);
  }

  /** `Math.min(Number(limit ?? "10"), 50)`, for a limit that parses as an integer. */
  function Limit(limit: Option<int>): (r: int)
    ensures r <= 50
    ensures limit.None? ==> r == 10
    ensures limit.Some? && limit.value <= 50 ==> r == limit.value
    ensures limit.Some? && limit.value > 50 ==> r == 50
  {
    var n := limit.GetOr(10);
    if n < 50 then n else 50
  }

  function Pattern(q: string): string {
    "%" + q + "%"
  }

  /** The queries issued for the given tables, in order. */
  function Queries(tables: seq<(string, string)>, pattern: string, limit: int): (r: seq<TableQuery>)
    ensures |r| == |tables|
    ensures forall k :: 0 <= k < |tables| ==> r[k] == TableQuery(tables[k].0, pattern, limit)
    decreases |tables|
  {
    if |tables| == 0 then [] else [TableQuery(tables[0].0, pattern, limit)] + Queries(tables[1..], pattern, limit)
  }

  /** `data && data.length > 0`: the answer holds at least one row. */
  predicate HasRows(data: Option<seq<Row>>) {
    data.Some? && |data.value| > 0
  }

  /**
   * `if (data && data.length > 0) results.push(...)`, table by table: only
   * answers with rows become groups, at most one per table.
   */
  function Collect(tables: seq<(string, string)>, answer: (string, string, int) -> Option<seq<Row>>,
                   pattern: string, limit: int): (r: seq<Group>)
    ensures forall k :: 0 <= k < |r| ==> |r[k].items| > 0
    ensures |r| <= |tables|
    decreases |tables|
  {
    if |tables| == 0 then []
    else
      var data := answer(tables[0].0, pattern, limit);
      if HasRows(data) then [Group(tables[0].1, data.value)] + Collect(tables[1..], answer, pattern, limit)
      else Collect(tables[1..], answer, pattern, limit)
  }

  /** Every table whose answer has rows contributes its group. */
  lemma {:induction false} CollectComplete(tables: seq<(string, string)>, answer: (string, string, int) -> Option<seq<Row>>,
                                           pattern: string, limit: int)
    ensures forall i :: 0 <= i < |tables| && HasRows(answer(tables[i].0, pattern, limit)) ==>
              Group(tables[i].1, answer(tables[i].0, pattern, limit).value) in Collect(tables, answer, pattern, limit)
    decreases |tables|
  {
    if |tables| > 0 {
      CollectComplete(tables[1..], answer, pattern, limit);
      assert forall i :: 1 <= i < |tables| ==> tables[i] == tables[1..][i - 1];
    }
  }

  /** Every group is the answer of some table, under that table's label: the `i`-th one. */
  lemma {:induction false} CollectSound(tables: seq<(string, string)>, answer: (string, string, int) -> Option<seq<Row>>,
                                        pattern: string, limit: int, k: int) returns (i: int)
    requires 0 <= k < |Collect(tables, answer, pattern, limit)|
    ensures 0 <= i < |tables|
    ensures Collect(tables, answer, pattern, limit)[k].typeLabel == tables[i].1
    ensures answer(tables[i].0, pattern, limit) == Some(Collect(tables, answer, pattern, limit)[k].items)
    decreases |tables|
  {
    var rest := Collect(tables[1..], answer, pattern, limit);
    var r := Collect(tables, answer, pattern, limit);
    var j := if HasRows(answer(tables[0].0, pattern, limit)) then k - 1 else k;
    if j >= 0 {
      assert 0 <= j < |rest| && r[k] == rest[j];
      var i' := CollectSound(tables[1..], answer, pattern, limit, j);
      i := i' + 1;
      assert tables[i] == tables[1..][i'];
    } else {
      i := 0;
    }
  }

  /**
   * `GET /api/search` over a list of tables: a gated request gets
   * `{ results: [] }` without any query; otherwise every table is queried in
   * order with the `%q%` pattern and the capped limit, and the non-empty
   * answers become groups, followed by the trimmed query.
   */
  function Search(tables: seq<(string, string)>, q: Option<string>, limit: Option<int>,
                  answer: (string, string, int) -> Option<seq<Row>>): (r: SearchRun)
    ensures Gated(q) ==> r == SearchRun(SearchResponse([], None), [])
    ensures !Gated(q) ==> r.response.query == Some(Trim(q.value))
    ensures !Gated(q) ==> r.queries == Queries(tables, Pattern(Trim(q.value)), Limit(limit))
    ensures !Gated(q) ==> r.response.results == Collect(tables, answer, Pattern(Trim(q.value)), Limit(limit))
    ensures forall k :: 0 <= k < |r.response.results| ==> |r.response.results[k].items| > 0
  {
    if Gated(q) then SearchRun(SearchResponse([], None), [])
    else
      var t := Trim(q.value);
      SearchRun(SearchResponse(Collect(tables, answer, Pattern(t), Limit(limit)), Some(t)),
                Queries(tables, Pattern(t), Limit(limit)))
  }

  /**
   * The route itself: the search over the fixed table list. An accepted
   * query reaches every table of the list, a gated one none.
   */
  function Handle(q: Option<string>, limit: Option<int>, answer: (string, string, int) -> Option<seq<Row>>): (r: SearchRun)
    ensures Gated(q) ==> r.queries == [] && r.response.results == []
    ensures !Gated(q) ==> |r.queries| == |Tables| && r.response.results == Collect(Tables, answer, Pattern(Trim(q.value)), Limit(limit))
  {
    Search(Tables, q, limit, answer)
  }

  function Labels(groups: seq<Group>): (r: seq<string>)
    ensures |r| == |groups|
    ensures forall k :: 0 <= k < |groups| ==> r[k] == groups[k].typeLabel
  {
    seq(|groups|, k requires 0 <= k < |groups| => groups[k].typeLabel)
  }

  function TableLabels(tables: seq<(string, string)>): (r: seq<string>)
    ensures |r| == |tables|
    ensures forall k :: 0 <= k < |tables| ==> r[k] == tables[k].1
  {
    seq(|tables|, k requires 0 <= k < |tables| => tables[k].1)
  }

  /** The groups come in table order: their labels are a subsequence of the tables' labels. */
  lemma {:induction false} CollectInTableOrder(tables: seq<(string, string)>, answer: (string, string, int) -> Option<seq<Row>>,
                                               pattern: string, limit: int)
    ensures IsSubsequence(Labels(Collect(tables, answer, pattern, limit)), TableLabels(tables))
    decreases |tables|
  {
    if |tables| > 0 {
      CollectInTableOrder(tables[1..], answer, pattern, limit);
      var rest := Collect(tables[1..], answer, pattern, limit);
      var r := Collect(tables, answer, pattern, limit);
      assert TableLabels(tables)[1..] == TableLabels(tables[1..]);
      if r == rest {
        SubsequenceOfTail(Labels(rest), TableLabels(tables));
      } else {
        assert Labels(r)[1..] == Labels(rest);
      }
    }
  }

  /** A subsequence of a sequence without duplicates has none either. */
  lemma {:induction false} SubsequenceKeepsDistinct(a: seq<string>, b: seq<string>)
    requires IsSubsequence(a, b) && NoDuplicates(b)
    ensures NoDuplicates(a)
    decreases |b|
  {
    if |a| > 0 && |b| > 0 {
      if a[0] == b[0] && IsSubsequence(a[1..], b[1..]) {
        SubsequenceKeepsDistinct(a[1..], b[1..]);
        SubsequenceMembers(a[1..], b[1..]);
        forall i, j | 0 <= i < j < |a|
          ensures a[i] != a[j]
        {
          assert a[j] == a[1..][j - 1];
          if i > 0 {
            assert a[i] == a[1..][i - 1];
          } else {
            assert a[j] in b[1..];
          }
        }
      } else {
        SubsequenceKeepsDistinct(a, b[1..]);
      }
    }
  }

  /** Every element of a subsequence is an element of the sequence. */
  lemma {:induction false} SubsequenceMembers(a: seq<string>, b: seq<string>)
    requires IsSubsequence(a, b)
    ensures forall x :: x in a ==> x in b
    decreases |b|
  {
    if |a| > 0 && |b| > 0 {
      if a[0] == b[0] && IsSubsequence(a[1..], b[1..]) {
        SubsequenceMembers(a[1..], b[1..]);
        assert forall x :: x in a ==> x == a[0] || x in a[1..];
      } else {
        SubsequenceMembers(a, b[1..]);
      }
    }
  }

  /** The type labels of the tables, in order. */
  const TypeLabels: seq<string> := [
    "User", "Listing", "Review", "Shop", "Order", "Payment",
    "Subscription", "Upload", "Channel", "Notification", "Conversation", "Message",
    "GlobalSearchFeature", "SafeTransactions", "OwnShopSystem", "SetYourOwnPrices", "NoTransactionFees", "MessagesAndChatSystem",
    "ClassifiedAdMarket", "MemberReviews", "PrivacyFunctions", "MediaCloud", "UserBlockingSystem", "HumanOperatedFakeCheck",
    "MemberReviewsAndRatings", "FullFeaturedProfiles", "SellerRatingsAndBuyerReviews", "UserRankingList", "FriendsAndFansSystem", "CustomVideoClips",
    "PrivatePhotosets", "WhatsappAndSkypeChats", "Profile", "MediaFile", "Comment", "Reaction",
    "PricingPlan", "Invoice"
  ]

  lemma TypeLabelsOfTables()
    ensures TableLabels(Tables) == TypeLabels
  {
  }

  /** The position of a type label in the table list, -1 for any other string. */
  function TypePosition(typeLabel: string): int {
    match typeLabel
      case "User" => 0
      case "Listing" => 1
      case "Review" => 2
      case "Shop" => 3
      case "Order" => 4
      case "Payment" => 5
      case "Subscription" => 6
      case "Upload" => 7
      case "Channel" => 8
      case "Notification" => 9
      case "Conversation" => 10
      case "Message" => 11
      case "GlobalSearchFeature" => 12
      case "SafeTransactions" => 13
      case "OwnShopSystem" => 14
      case "SetYourOwnPrices" => 15
      case "NoTransactionFees" => 16
      case "MessagesAndChatSystem" => 17
      case "ClassifiedAdMarket" => 18
      case "MemberReviews" => 19
      case "PrivacyFunctions" => 20
      case "MediaCloud" => 21
      case "UserBlockingSystem" => 22
      case "HumanOperatedFakeCheck" => 23
      case "MemberReviewsAndRatings" => 24
      case "FullFeaturedProfiles" => 25
      case "SellerRatingsAndBuyerReviews" => 26
      case "UserRankingList" => 27
      case "FriendsAndFansSystem" => 28
      case "CustomVideoClips" => 29
      case "PrivatePhotosets" => 30
      case "WhatsappAndSkypeChats" => 31
      case "Profile" => 32
      case "MediaFile" => 33
      case "Comment" => 34
      case "Reaction" => 35
      case "PricingPlan" => 36
      case "Invoice" => 37
      case _ => -1
  }

  lemma TypePositionsMatch()
    ensures forall i :: 0 <= i < |TypeLabels| ==> TypePosition(TypeLabels[i]) == i
  {
  }

  lemma TypeLabelsDistinct()
    ensures NoDuplicates(TypeLabels)
  {
    TypePositionsMatch();
    NoDuplicatesByPosition(TypeLabels, TypePosition);
  }

  /** Each table has its own type label. */
  lemma TableLabelsDistinct()
    ensures NoDuplicates(TableLabels(Tables))
  {
    TypeLabelsOfTables();
    TypeLabelsDistinct();
  }

  /** Every type appears at most once in a response, and the groups keep the table order. */
  lemma {:induction false} EachTypeAtMostOnce(tables: seq<(string, string)>, q: Option<string>, limit: Option<int>,
                                              answer: (string, string, int) -> Option<seq<Row>>)
    requires NoDuplicates(TableLabels(tables))
    ensures IsSubsequence(Labels(Search(tables, q, limit, answer).response.results), TableLabels(tables))
    ensures NoDuplicates(Labels(Search(tables, q, limit, answer).response.results))
  {
    var results := Search(tables, q, limit, answer).response.results;
    if !Gated(q) {
      var t := Trim(q.value);
      CollectInTableOrder(tables, answer, Pattern(t), Limit(limit));
    }
    SubsequenceKeepsDistinct(Labels(results), TableLabels(tables));
  }

  /** The route never returns two groups of the same type. */
  lemma RouteGroupsDistinct(q: Option<string>, limit: Option<int>, answer: (string, string, int) -> Option<seq<Row>>)
    ensures NoDuplicates(Labels(Handle(q, limit, answer).response.results))
  {
    TableLabelsDistinct();
    EachTypeAtMostOnce(Tables, q, limit, answer);
  }

  /** When the database honours the limit, no group holds more rows than the capped limit. */
  lemma GroupsRespectLimit(tables: seq<(string, string)>, q: Option<string>, limit: Option<int>,
                           answer: (string, string, int) -> Option<seq<Row>>)
    requires forall t, p, n :: answer(t, p, n).Some? ==> |answer(t, p, n).value| <= n
    ensures forall k :: 0 <= k < |Search(tables, q, limit, answer).response.results| ==>
              |Search(tables, q, limit, answer).response.results[k].items| <= Limit(limit)
  {
    if !Gated(q) {
      var pattern := Pattern(Trim(q.value));
      var r := Collect(tables, answer, pattern, Limit(limit));
      forall k | 0 <= k < |r| ensures |r[k].items| <= Limit(limit) {
        var i := CollectSound(tables, answer, pattern, Limit(limit), k);
      }
    }
  }
}

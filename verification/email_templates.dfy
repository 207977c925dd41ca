/**
 * The transactional email templates of lib/email-templates.ts: each returns
 * a subject, an HTML body and a plain-text body. Names, titles, bodies and
 * links are interpolated verbatim, without any escaping; an empty body or
 * link is treated as absent.
 */
module EmailTemplates {
  import opened Outcomes
  import opened Text

  const Brand := "PantyHub"

  datatype TemplateResult = TemplateResult(subject: string, html: string, text: string)

  /** The shared `<head>` and `<body>` opening of both templates. */
  const HtmlOpening := "<!DOCTYPE html>\n<html>\n<head><meta charset=\"utf-8\" /></head>\n"
    + "<body style=\"font-family: -apple-system, BlinkMacSystemFont, 'Segoe UI', Roboto, sans-serif; max-width: 600px; margin: 0 auto; padding: 20px;\">\n"

  /** The shared signature and closing tags. */
  const HtmlClosing := "  <p style=\"color: #999; font-size: 14px; margin-top: 40px;\">\n    — The " + Brand + " Team\n  </p>\n</body>\n</html>"

  const WelcomeHtmlBefore := HtmlOpening
    + "  <h1 style=\"color: #111; font-size: 24px;\">Welcome to " + Brand + "</h1>\n"
    + "  <p style=\"color: #555; font-size: 16px; line-height: 1.6;\">\n    Hi "

  const WelcomeHtmlAfter := ",\n  </p>\n"
    + "  <p style=\"color: #555; font-size: 16px; line-height: 1.6;\">\n    Thanks for signing up! We are excited to have you on board.\n  </p>\n"
    + "  <p style=\"color: #555; font-size: 16px; line-height: 1.6;\">\n    If you have any questions, just reply to this email.\n  </p>\n"
    + HtmlClosing

  const WelcomeTextBefore := "Welcome to " + Brand + "!\n\nHi "

  const WelcomeTextAfter := ",\n\nThanks for signing up! We are excited to have you on board.\n\n"
    + "If you have any questions, just reply to this email.\n\n— The " + Brand + " Team"

  /** `welcomeEmail(name)`: a fixed subject, and the name placed verbatim in both bodies. */
  function WelcomeEmail(name: string): (r: TemplateResult)
    ensures r.subject == "Welcome to PantyHub!"
    ensures r.html == WelcomeHtmlBefore + name + WelcomeHtmlAfter
    ensures r.text == WelcomeTextBefore + name + WelcomeTextAfter
  {
    TemplateResult("Welcome to " + Brand + "!",
                   WelcomeHtmlBefore + name + WelcomeHtmlAfter,
                   WelcomeTextBefore + name + WelcomeTextAfter)
  }

  /** The name can be read back out of the text body unchanged, so it is inserted unescaped and untrimmed. */
  lemma WelcomeNameIsVerbatim(name: string)
    ensures var t := WelcomeEmail(name).text;
            |t| == |WelcomeTextBefore| + |name| + |WelcomeTextAfter|
            && t[|WelcomeTextBefore|..|t| - |WelcomeTextAfter|] == name
    ensures var h := WelcomeEmail(name).html;
            h[|WelcomeHtmlBefore|..|h| - |WelcomeHtmlAfter|] == name
  {
    var t := WelcomeEmail(name).text;
    assert t[|WelcomeTextBefore|..|t| - |WelcomeTextAfter|] == name;
    var h := WelcomeEmail(name).html;
    assert h[|WelcomeHtmlBefore|..|h| - |WelcomeHtmlAfter|] == name;
  }

  /** Different names give different welcome emails. */
  lemma WelcomeEmailInjective(a: string, b: string)
    requires WelcomeEmail(a) == WelcomeEmail(b)
    ensures a == b
  {
    WelcomeNameIsVerbatim(a);
    WelcomeNameIsVerbatim(b);
  }

  /** One entry of the digest; `body` and `link` are optional. */
  datatype DigestItem = DigestItem(title: string, body: Option<string>, link: Option<string>)

  /** The text line of one item: `- title`, then `: body` and ` (link)` when those are non-empty. */
  function DigestLine(item: DigestItem): (r: string)
    ensures |r| == 2 + |item.title| + BodyWidth(item) + LinkWidth(item)
    ensures r[..2 + |item.title|] == "- " + item.title
    ensures Present(item.body) ==>
              r[2 + |item.title|..2 + |item.title| + BodyWidth(item)] == ": " + item.body.value
    ensures Present(item.link) ==>
              r[2 + |item.title| + BodyWidth(item)..] == " (" + item.link.value + ")"
  {
    var head := "- " + item.title;
    var body := if Present(item.body) then ": " + item.body.value else "";
    var link := if Present(item.link) then " (" + item.link.value + ")" else "";
    Pieces(head, body, link);
    head + body + link
  }

  /** Characters the body adds to a text line: none when it is missing or empty. */
  function BodyWidth(item: DigestItem): nat {
    if Present(item.body) then 2 + |item.body.value| else 0
  }

  /** Characters the link adds to a text line: none when it is missing or empty. */
  function LinkWidth(item: DigestItem): nat {
    if Present(item.link) then 3 + |item.link.value| else 0
  }

  const ItemOpening := "<li style=\"margin-bottom: 12px;\">\n          <strong>"

  const ItemClosing := "\n        </li>"

  /** The line break and indentation between the parts of an HTML entry. */
  const Gap := "\n          "

  /** The bold title that opens an HTML entry. */
  function EntryHead(item: DigestItem): string {
    ItemOpening + item.title + "</strong>"
  }

  /**
   * The HTML list entry of one item, with the same treatment of empty
   * fields: the bold title, then on their own lines the body span and the
   * View link, then `</li>`.
   */
  function DigestHtmlItem(item: DigestItem): (r: string)
    ensures StartsWith(r, ItemOpening + item.title + "</strong>")
    ensures |r| >= |ItemClosing| && r[|r| - |ItemClosing|..] == ItemClosing
    ensures Present(item.body) <==>
              |r| > |ItemOpening| + |item.title| + |"</strong>"| + 2 * |Gap| + |ItemClosing| + |HtmlLink(item)|
    ensures Framed(r, EntryHead(item) + Gap, HtmlBody(item), Gap, HtmlLink(item), ItemClosing)
  {
    EntryPieces(EntryHead(item), Gap, HtmlBody(item), HtmlLink(item), ItemClosing);
    EntryHead(item) + Gap + HtmlBody(item) + Gap + HtmlLink(item) + ItemClosing
  }

  /** An entry laid out as head, gap, body, gap, link, closing can be cut back into those pieces. */
  lemma EntryPieces(head: string, gap: string, body: string, link: string, closing: string)
    ensures var s := head + gap + body + gap + link + closing;
            Framed(s, head + gap, body, gap, link, closing)
            && StartsWith(s, head)
            && |s| == |head| + 2 * |gap| + |body| + |link| + |closing|
  {
    var s := head + gap + body + gap + link + closing;
    FramedPieces(head + gap, body, gap, link, closing);
    assert s[..|head|] == head;
  }

  const SpanOpening := "<br /><span style=\"color: #555;\">"
  const SpanClosing := "</span>"

  const AnchorOpening := "<br /><a href=\""
  const AnchorClosing := "\" style=\"color: #2563eb;\">View</a>"

  /** `s` is `a`, then `x`, then `c`: the middle can be cut back out by position. */
  predicate Wrapped(s: string, a: string, x: string, c: string) {
    |s| == |a| + |x| + |c|
    && s[..|a|] == a
    && s[|a|..|s| - |c|] == x
    && s[|s| - |c|..] == c
  }

  lemma WrappedPieces(a: string, x: string, c: string)
    ensures Wrapped(a + x + c, a, x, c)
  {
    var s := a + x + c;
    assert s[..|a|] == a;
    assert s[|a|..|s| - |c|] == x;
    assert s[|s| - |c|..] == c;
  }

  /** The body part of an HTML entry: nothing when the body is missing or empty, else the body inside a grey span. */
  function HtmlBody(item: DigestItem): (r: string)
    ensures Present(item.body) <==> |r| > 0
    ensures Present(item.body) ==> Wrapped(r, SpanOpening, item.body.value, SpanClosing)
  {
    if Present(item.body) then
      WrappedPieces(SpanOpening, item.body.value, SpanClosing);
      SpanOpening + item.body.value + SpanClosing
    else ""
  }

  /** The link part of an HTML entry: nothing when the link is missing or empty, else a View anchor whose href is the link. */
  function HtmlLink(item: DigestItem): (r: string)
    ensures Present(item.link) <==> |r| > 0
    ensures Present(item.link) ==> Wrapped(r, AnchorOpening, item.link.value, AnchorClosing)
  {
    if Present(item.link) then
      WrappedPieces(AnchorOpening, item.link.value, AnchorClosing);
      AnchorOpening + item.link.value + AnchorClosing
    else ""
  }

  /** A value wrapped inside the second piece of a framed string reads back from the whole. */
  lemma WrappedInSecond(r: string, a: string, x: string, b: string, y: string, c: string, p: string, v: string, q: string)
    requires Framed(r, a, x, b, y, c) && Wrapped(x, p, v, q)
    ensures r[|a| + |p|..|a| + |p| + |v|] == v
  {
    assert r[|a|..|a| + |x|] == x;
    assert forall t :: 0 <= t < |v| ==> r[|a| + |p| + t] == x[|p| + t] == v[t];
  }

  /** A value wrapped inside the fourth piece of a framed string reads back from the whole. */
  lemma WrappedInFourth(r: string, a: string, x: string, b: string, y: string, c: string, p: string, v: string, q: string)
    requires Framed(r, a, x, b, y, c) && Wrapped(y, p, v, q)
    ensures r[|a| + |x| + |b| + |p|..|a| + |x| + |b| + |p| + |v|] == v
  {
    var o := |a| + |x| + |b|;
    assert r[o..|r| - |c|] == y;
    assert forall t :: 0 <= t < |v| ==> r[o + |p| + t] == y[|p| + t] == v[t];
  }

  /**
   * The body and the link of an item can be read back, verbatim, from its
   * HTML entry: the body right after the title's line break and the span's
   * opening tag, the link right after the second line break and `href="`.
   */
  lemma HtmlEntryReadsBack(item: DigestItem)
    ensures var r := DigestHtmlItem(item);
            var b := |EntryHead(item)| + |Gap|;
            Present(item.body) ==>
              r[b + |SpanOpening|..b + |SpanOpening| + |item.body.value|] == item.body.value
    ensures var r := DigestHtmlItem(item);
            var l := |EntryHead(item)| + |Gap| + |HtmlBody(item)| + |Gap|;
            Present(item.link) ==>
              r[l + |AnchorOpening|..l + |AnchorOpening| + |item.link.value|] == item.link.value
  {
    var r := DigestHtmlItem(item);
    if Present(item.body) {
      WrappedInSecond(r, EntryHead(item) + Gap, HtmlBody(item), Gap, HtmlLink(item), ItemClosing,
                      SpanOpening, item.body.value, SpanClosing);
    }
    if Present(item.link) {
      WrappedInFourth(r, EntryHead(item) + Gap, HtmlBody(item), Gap, HtmlLink(item), ItemClosing,
                      AnchorOpening, item.link.value, AnchorClosing);
    }
  }

  /** The first and the last of three concatenated strings can be read back. */
  lemma HeadAndTail(a: string, b: string, c: string)
    ensures StartsWith(a + b + c, a)
    ensures (a + b + c)[|a + b + c| - |c|..] == c
  {
    assert (a + b + c)[..|a|] == a;
  }

  /** An empty body or link renders exactly as a missing one, in both bodies. */
  lemma EmptyFieldsAreAbsent(item: DigestItem)
    ensures DigestLine(item.(body := Some(""))) == DigestLine(item.(body := None))
    ensures DigestLine(item.(link := Some(""))) == DigestLine(item.(link := None))
    ensures DigestHtmlItem(item.(body := Some(""))) == DigestHtmlItem(item.(body := None))
    ensures DigestHtmlItem(item.(link := Some(""))) == DigestHtmlItem(item.(link := None))
  {
  }

  function DigestLines(items: seq<DigestItem>): (r: seq<string>)
    ensures |r| == |items|
    ensures forall k :: 0 <= k < |items| ==> r[k] == DigestLine(items[k])
    decreases |items|
  {
    if |items| == 0 then [] else [DigestLine(items[0])] + DigestLines(items[1..])
  }

  /** `itemsHtml`: the entries concatenated with no separator, in input order. */
  function DigestHtmlItems(items: seq<DigestItem>): (r: string)
    ensures r == "" <==> |items| == 0
    ensures |items| > 0 ==> StartsWith(r, DigestHtmlItem(items[0]))
    decreases |items|
  {
    if |items| == 0 then ""
    else
      var first := DigestHtmlItem(items[0]);
      HeadAndTail(first, DigestHtmlItems(items[1..]), "");
      first + DigestHtmlItems(items[1..])
  }

  /** One step of `itemsHtml`: the first entry, then the others. */
  lemma DigestHtmlItemsStep(items: seq<DigestItem>)
    requires |items| > 0
    ensures DigestHtmlItems(items) == DigestHtmlItem(items[0]) + DigestHtmlItems(items[1..])
  {
    assert DigestHtmlItem(items[0]) + DigestHtmlItems(items[1..]) + "" == DigestHtmlItem(items[0]) + DigestHtmlItems(items[1..]);
  }

  /** The entries of two lists of items are the entries of each, one after the other. */
  lemma {:induction false} DigestHtmlItemsConcat(a: seq<DigestItem>, b: seq<DigestItem>)
    ensures DigestHtmlItems(a + b) == DigestHtmlItems(a) + DigestHtmlItems(b)
    decreases |a|
  {
    if |a| == 0 {
      assert a + b == b;
    } else {
      var ab := a + b;
      assert ab[0] == a[0];
      assert ab[1..] == a[1..] + b;
      DigestHtmlItemsConcat(a[1..], b);
      DigestHtmlItemsStep(ab);
      DigestHtmlItemsStep(a);
      StringAssoc(DigestHtmlItem(a[0]), DigestHtmlItems(a[1..]), DigestHtmlItems(b));
    }
  }

  lemma StringAssoc(x: string, y: string, z: string)
    ensures x + (y + z) == (x + y) + z
  {
  }

  /** No field of the item holds a line break. */
  predicate SingleLine(item: DigestItem) {
    '\n' !in item.title
    && (item.body.Some? ==> '\n' !in item.body.value)
    && (item.link.Some? ==> '\n' !in item.link.value)
  }

  /** A line built from single-line fields is itself a single line. */
  lemma DigestLineSingleLine(item: DigestItem)
    requires SingleLine(item)
    ensures '\n' !in DigestLine(item)
  {
  }

  /** `itemsText`: the item lines joined by newlines, in input order; no items give the empty string. */
  function ItemsText(items: seq<DigestItem>): (r: string)
    ensures |items| == 0 ==> r == ""
    ensures |items| == 1 ==> r == DigestLine(items[0])
  {
    Join(DigestLines(items), "\n")
  }

  /**
   * With single-line fields, the items text splits back at newlines into
   * exactly one line per item, in input order: n items give n lines.
   */
  lemma ItemsTextLines(items: seq<DigestItem>)
    requires |items| >= 1
    requires forall k :: 0 <= k < |items| ==> SingleLine(items[k])
    ensures Split(ItemsText(items), '\n') == DigestLines(items)
    ensures |Split(ItemsText(items), '\n')| == |items|
  {
    var lines := DigestLines(items);
    forall k | 0 <= k < |lines|
      ensures '\n' !in lines[k]
    {
      DigestLineSingleLine(items[k]);
    }
    SplitJoin(lines, '\n');
  }

  const DigestSubject := "Your PantyHub notification digest"

  const DigestTitle := "Notification Digest"
  const Greeting := ", here is what you missed:"
  const Signature := "— The PantyHub Team"

  /** The text body around the name and the items. */
  const DigestTextBefore := DigestTitle + "\n\nHi "
  const DigestTextMiddle := Greeting + "\n\n"
  const DigestTextAfter := "\n\n" + Signature

  /** The HTML body around the name and the list entries. */
  const DigestHtmlBefore := HtmlOpening + "  <h1 style=\"color: #111; font-size: 24px;\">Notification Digest</h1>\n"
    + "  <p style=\"color: #555; font-size: 16px;\">Hi "
  const DigestHtmlMiddle := ", here is what you missed:</p>\n"
    + "  <ul style=\"color: #333; font-size: 14px; line-height: 1.8; padding-left: 20px;\">\n    "
  const DigestHtmlAfter := "\n  </ul>\n" + HtmlClosing

  /**
   * `notificationDigestEmail(name, items)`: the constant subject; in both
   * bodies the name and then the items can be read back, verbatim, between
   * the fixed header and the signature.
   */
  function DigestEmail(name: string, items: seq<DigestItem>): (r: TemplateResult)
    ensures r.subject == "Your PantyHub notification digest"
    ensures Framed(r.text, DigestTextBefore, name, DigestTextMiddle, ItemsText(items), DigestTextAfter)
    ensures Framed(r.html, DigestHtmlBefore, name, DigestHtmlMiddle, DigestHtmlItems(items), DigestHtmlAfter)
    ensures r.text == DigestText(name, items)
  {
    var text := DigestText(name, items);
    TextRegrouped(DigestTitle, name, Greeting, ItemsText(items), Signature);
    FramedPieces(DigestTextBefore, name, DigestTextMiddle, ItemsText(items), DigestTextAfter);
    FramedPieces(DigestHtmlBefore, name, DigestHtmlMiddle, DigestHtmlItems(items), DigestHtmlAfter);
    TemplateResult(DigestSubject, DigestHtmlBefore + name + DigestHtmlMiddle + DigestHtmlItems(items) + DigestHtmlAfter, text)
  }

  /** The plain-text body of the digest, line by line. */
  function DigestText(name: string, items: seq<DigestItem>): string {
    DigestTitle + "\n\nHi " + name + Greeting + "\n\n" + ItemsText(items) + "\n\n" + Signature
  }

  /** The text body, regrouped around the name and the items. */
  lemma TextRegrouped(title: string, name: string, greeting: string, x: string, signature: string)
    ensures title + "\n\nHi " + name + greeting + "\n\n" + x + "\n\n" + signature
            == (title + "\n\nHi ") + name + (greeting + "\n\n") + x + ("\n\n" + signature)
  {
  }

  /** `s` is `a`, then `x`, then `b`, then `y`, then `c`: `x` and `y` can be cut back out by position. */
  predicate Framed(s: string, a: string, x: string, b: string, y: string, c: string) {
    |s| == |a| + |x| + |b| + |y| + |c|
    && s[..|a|] == a
    && s[|a|..|a| + |x|] == x
    && s[|a| + |x|..|a| + |x| + |b|] == b
    && s[|a| + |x| + |b|..|s| - |c|] == y
    && s[|s| - |c|..] == c
  }

  lemma FramedPieces(a: string, x: string, b: string, y: string, c: string)
    ensures Framed(a + x + b + y + c, a, x, b, y, c)
  {
    var s := a + x + b + y + c;
    assert s[..|a|] == a;
    assert s[|a|..|a| + |x|] == x;
    assert s[|a| + |x|..|a| + |x| + |b|] == b;
    assert s[|a| + |x| + |b|..|s| - |c|] == y;
    assert s[|s| - |c|..] == c;
  }

  /** The digest subject depends on neither the name nor the items. */
  lemma DigestSubjectIsConstant(n1: string, i1: seq<DigestItem>, n2: string, i2: seq<DigestItem>)
    ensures DigestEmail(n1, i1).subject == DigestEmail(n2, i2).subject
  {
  }
}

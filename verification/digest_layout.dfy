/**
 * The line structure of the digest's plain-text body: for single-line
 * fields, splitting it at newlines gives back the header, one line per item
 * and the signature.
 */
module DigestLayout {
  import opened Text
  import opened EmailTemplates

  /** The header lines of the text body. */
  function DigestHeaderLines(name: string): seq<string> {
    [DigestTitle, "", "Hi " + name + Greeting, ""]
  }

  /** The signature lines of the text body. */
  const DigestFooterLines: seq<string> := ["", Signature]

  lemma FixedLinesAreSingle()
    ensures '\n' !in DigestTitle && '\n' !in Greeting && '\n' !in Signature
  {
  }

  /** The split of a text body, with its literal parts left as parameters. */
  lemma SplitTextBody(title: string, name: string, greeting: string, x: string, signature: string)
    requires '\n' !in title && '\n' !in name && '\n' !in greeting && '\n' !in signature
    ensures Split(title + "\n\nHi " + name + greeting + "\n\n" + x + "\n\n" + signature, '\n')
            == [title, "", "Hi " + name + greeting, ""] + Split(x, '\n') + ["", signature]
  {
    var hi := "Hi " + name + greeting;
    var tail := x + "\n" + ("" + "\n" + signature);
    BodyShape(title, name, greeting, x, signature);
    SplitHeader(title, hi, tail);
    SplitFooter(x, signature);
  }

  /** The text body is the header lines, each followed by a newline, and then the rest. */
  lemma BodyShape(title: string, name: string, greeting: string, x: string, signature: string)
    ensures title + "\n\nHi " + name + greeting + "\n\n" + x + "\n\n" + signature
            == title + "\n" + ("" + "\n" + (("Hi " + name + greeting) + "\n" + ("" + "\n" + (x + "\n" + ("" + "\n" + signature)))))
  {
  }

  /** Four single-line header lines split off one by one. */
  lemma SplitHeader(title: string, hi: string, tail: string)
    requires '\n' !in title && '\n' !in hi
    ensures Split(title + "\n" + ("" + "\n" + (hi + "\n" + ("" + "\n" + tail))), '\n')
            == [title, "", hi, ""] + Split(tail, '\n')
  {
    SplitAtFirst(title, '\n', "" + "\n" + (hi + "\n" + ("" + "\n" + tail)));
    SplitAtFirst("", '\n', hi + "\n" + ("" + "\n" + tail));
    SplitAtFirst(hi, '\n', "" + "\n" + tail);
    SplitAtFirst("", '\n', tail);
  }

  /** The items text, an empty line and the signature line. */
  lemma SplitFooter(x: string, signature: string)
    requires '\n' !in signature
    ensures Split(x + "\n" + ("" + "\n" + signature), '\n') == Split(x, '\n') + ["", signature]
  {
    SplitAtSeparator(x, '\n', "" + "\n" + signature);
    SplitAtFirst("", '\n', signature);
    SplitNoSeparator(signature, '\n');
  }

  /**
   * With a single-line name and single-line items, the text body splits at
   * newlines into the header, one line per item in input order (a single
   * empty line when there are none), and the signature.
   */
  lemma DigestTextLines(name: string, items: seq<DigestItem>)
    requires '\n' !in name
    requires forall k :: 0 <= k < |items| ==> SingleLine(items[k])
    ensures Split(DigestText(name, items), '\n')
            == DigestHeaderLines(name) + (if |items| == 0 then [""] else DigestLines(items)) + DigestFooterLines
  {
    LinesOfTextBody(name, items);
  }

  /** The same split, stated on the text body written out. */
  lemma LinesOfTextBody(name: string, items: seq<DigestItem>)
    requires '\n' !in name
    requires forall k :: 0 <= k < |items| ==> SingleLine(items[k])
    ensures Split(DigestTitle + "\n\nHi " + name + Greeting + "\n\n" + ItemsText(items) + "\n\n" + Signature, '\n')
            == DigestHeaderLines(name) + (if |items| == 0 then [""] else DigestLines(items)) + DigestFooterLines
  {
    var x := ItemsText(items);
    if |items| == 0 {
      assert x == "";
    } else {
      ItemsTextLines(items);
    }
    FixedLinesAreSingle();
    SplitTextBody(DigestTitle, name, Greeting, x, Signature);
    assert DigestFooterLines == ["", Signature];
    assert DigestHeaderLines(name) == [DigestTitle, "", "Hi " + name + Greeting, ""];
  }
}

/**
 * The article record that flows through the pipeline and its three text
 * renderings: the debug `String` form, Markdown for the terminal and Slack
 * mrkdwn for the webhook.
 */
module Types {
  import opened GoStrings

  /** How relevant an article is to one category (0 = unrelated, 10 = highly relevant). */
  datatype CategoryRelevance = CategoryRelevance(category: string, relevance: real, explanation: string)

  /** A configured topic: its name and the free text describing it. */
  datatype Category = Category(name: string, description: string)

  /** Timestamps are Unix seconds. */
  datatype Article = Article(
    title: string,
    description: string,
    link: string,
    content: string,
    categories: seq<string>,
    published: int,
    summary: string,
    catRelevance: seq<CategoryRelevance>)

  // ---------------------------------------------------------------------
  // String()
  // ---------------------------------------------------------------------

  /** The content bytes shown by `String`: the first 100 bytes, or all of them when shorter. */
  function ContentSnippet(content: string): (r: seq<byte>)
    ensures |r| == Min(100, Utf8Len(content))
    ensures r <= Utf8(content)
  {
    var b := Utf8(content);
    b[..Min(100, |b|)]
  }

  function StringHeader(a: Article): string {
    "Article: " + a.title + "\nDescription: " + a.description + "\nContent (snippet and size): "
  }

  /**
   * `Article.String`, as bytes (the snippet may cut a rune in two). The
   * rendering of the timestamp is an input.
   */
  function ArticleString(a: Article, publishedText: string): (r: seq<byte>)
    ensures var h := Utf8(StringHeader(a));
      && h <= r
      && |r| >= |h| + Min(100, Utf8Len(a.content))
      && r[|h|..|h| + Min(100, Utf8Len(a.content))] <= Utf8(a.content)
  {
    Utf8(StringHeader(a)) + ContentSnippet(a.content)
    + Utf8("... (" + NatToString(Utf8Len(a.content)) + ")\nLink: " + a.link
           + "\nPublished: " + publishedText + "\nCategories: " + FormatStringSlice(a.categories) + "\n\n")
  }

  // ---------------------------------------------------------------------
  // Per-category debug blocks
  // ---------------------------------------------------------------------

  /** One rendered block per category relevance, in order. */
  function Blocks(crs: seq<CategoryRelevance>, block: CategoryRelevance -> string): string
  {
    if |crs| == 0 then "" else block(crs[0]) + Blocks(crs[1..], block)
  }

  lemma {:induction false} BlocksAppend(a: seq<CategoryRelevance>, b: seq<CategoryRelevance>, block: CategoryRelevance -> string)
    ensures Blocks(a + b, block) == Blocks(a, block) + Blocks(b, block)
    decreases |a|
  {
    if |a| == 0 {
      assert a + b == b;
    } else {
      assert (a + b)[1..] == a[1..] + b;
      BlocksAppend(a[1..], b, block);
    }
  }

  /**
   * The blocks appear in the order of the relevances: the block of entry `i`
   * follows exactly the blocks of the entries before it.
   */
  lemma {:induction false} BlocksInOrder(crs: seq<CategoryRelevance>, i: nat, block: CategoryRelevance -> string)
    requires i < |crs|
    ensures Blocks(crs[..i], block) + block(crs[i]) <= Blocks(crs, block)
    decreases i
  {
    var head := block(crs[0]);
    assert Blocks(crs, block) == head + Blocks(crs[1..], block);
    if i == 0 {
      assert Blocks(crs[..0], block) == "";
      assert "" + head == head;
    } else {
      BlocksInOrder(crs[1..], i - 1, block);
      assert crs[..i][1..] == crs[1..][..i - 1];
      assert crs[1..][i - 1] == crs[i];
      var p := Blocks(crs[1..][..i - 1], block) + block(crs[i]);
      assert Blocks(crs[..i], block) + block(crs[i]) == head + p;
      PrefixInside(head, p, Blocks(crs[1..], block), "");
      assert head + Blocks(crs[1..], block) + "" == head + Blocks(crs[1..], block);
    }
  }

  // ---------------------------------------------------------------------
  // Markdown
  // ---------------------------------------------------------------------

  const MarkdownSeparator: string := "\n\n---\n\n"

  function MarkdownBase(a: Article): string {
    "# " + a.title + "\n\n" + a.summary + "\n\nRead more [here](" + a.link + ")"
  }

  /** `%.1f` of a float32 is an input (`fmtRel`). */
  function MarkdownBlock(cr: CategoryRelevance, fmtRel: real -> string): string {
    "**Category:** " + cr.category + "\n\n**Relevance:** " + fmtRel(cr.relevance)
    + "\n\n**Explanation**: " + cr.explanation + "\n\n"
  }

  /** The horizontal rule, then the byte lengths of description and content. */
  function MarkdownDebugHeader(a: Article): string {
    MarkdownSeparator + MarkdownLengths(a)
  }

  function MarkdownLengths(a: Article): string {
    "**Debug info:**\n\n"
    + "**len(Description):** " + NatToString(Utf8Len(a.description)) + "\n"
    + "**len(Content):** " + NatToString(Utf8Len(a.content)) + "\n\n"
  }

  function MarkdownBlockOf(fmtRel: real -> string): CategoryRelevance -> string {
    cr => MarkdownBlock(cr, fmtRel)
  }

  /**
   * `Article.FormatAsMarkdown`: without debug information exactly the title
   * heading, the summary and the link; with it, the same text followed by a
   * debug section that opens with the byte lengths of description and content
   * and ends with a horizontal rule.
   */
  function FormatAsMarkdown(a: Article, debugInfo: bool, fmtRel: real -> string): (r: string)
    ensures !debugInfo ==> r == "# " + a.title + "\n\n" + a.summary + "\n\nRead more [here](" + a.link + ")"
    ensures MarkdownBase(a) <= r
    ensures debugInfo ==> MarkdownBase(a) + MarkdownDebugHeader(a) <= r
    ensures debugInfo ==> (
      && |r| >= |MarkdownBase(a)| + 2 * |MarkdownSeparator|
      && r[|r| - |MarkdownSeparator|..] == MarkdownSeparator
      && r[|MarkdownBase(a)|..|MarkdownBase(a)| + |MarkdownSeparator|] == MarkdownSeparator)
  {
    var t := MarkdownBase(a);
    if debugInfo then
      var h := MarkdownDebugHeader(a);
      var bl := Blocks(a.catRelevance, MarkdownBlockOf(fmtRel));
      SeparatorOpensHeader(a);
      DebugLayout(t, h, bl, MarkdownSeparator);
      t + h + bl + MarkdownSeparator
    else t
  }

  lemma SeparatorOpensHeader(a: Article)
    ensures MarkdownSeparator <= MarkdownDebugHeader(a)
  {
    assert MarkdownDebugHeader(a)[..|MarkdownSeparator|] == MarkdownSeparator;
  }

  /** Where the pieces of a debug rendering `t + h + bl + sep` sit, when `h` opens with `sep`. */
  lemma DebugLayout(t: string, h: string, bl: string, sep: string)
    requires sep <= h
    ensures var r := t + h + bl + sep;
      && t <= r && t + h <= r
      && |r| >= |t| + 2 * |sep|
      && r[|r| - |sep|..] == sep
      && r[|t|..|t| + |sep|] == sep
  {
    var r := t + h + bl + sep;
    assert r == (t + h) + (bl + sep);
    assert r[|t|..|t| + |sep|] == h[..|sep|];
  }

  /**
   * In the debug section, the block of relevance `i` comes right after the
   * length header and the blocks of the relevances before it.
   */
  lemma MarkdownBlocksInOrder(a: Article, fmtRel: real -> string, i: nat)
    requires i < |a.catRelevance|
    ensures MarkdownBase(a) + MarkdownDebugHeader(a) + Blocks(a.catRelevance[..i], MarkdownBlockOf(fmtRel))
            + MarkdownBlock(a.catRelevance[i], fmtRel) <= FormatAsMarkdown(a, true, fmtRel)
  {
    var f := MarkdownBlockOf(fmtRel);
    var x := MarkdownBase(a) + MarkdownDebugHeader(a);
    var before := Blocks(a.catRelevance[..i], f);
    var mine := MarkdownBlock(a.catRelevance[i], fmtRel);
    var all := Blocks(a.catRelevance, f);
    assert f(a.catRelevance[i]) == mine;
    MarkdownDebugShape(a, fmtRel);
    BlocksInOrder(a.catRelevance, i, f);
    PrefixInside(x, before + mine, all, MarkdownSeparator);
    assert x + before + mine == x + (before + mine);
  }

  lemma MarkdownDebugShape(a: Article, fmtRel: real -> string)
    ensures FormatAsMarkdown(a, true, fmtRel)
            == MarkdownBase(a) + MarkdownDebugHeader(a) + Blocks(a.catRelevance, MarkdownBlockOf(fmtRel)) + MarkdownSeparator
  {
  }

  lemma PrefixInside(x: string, p: string, b: string, s: string)
    requires p <= b
    ensures x + p <= x + b + s
  {
    assert (x + b + s)[..|x| + |p|] == x + p by {
      assert b[..|p|] == p;
    }
  }

  // ---------------------------------------------------------------------
  // Slack mrkdwn
  // ---------------------------------------------------------------------

  /** The bullet the Slack rendering is meant to show: U+2022 and a blank. */
  const Bullet: string := "\U{2022} "

  /**
   * The bullet literal as it stands in the repository: the UTF-8 bytes of
   * U+2022 mis-decoded as Windows-1252 and saved again, i.e. the three runes
   * U+00E2 U+20AC U+00A2 followed by a blank.
   */
  const BulletAsWritten: string := "\U{00E2}\U{20AC}\U{00A2} "

  /** The summary rewrite: list dashes become bullets, then "**" becomes "*". */
  function SlackSummary(summary: string, bullet: string): string
    requires |bullet| > 0
  {
    ReplaceAll(ReplaceAll(summary, "- ", bullet), "**", "*")
  }

  function SlackBlock(cr: CategoryRelevance, fmtRel: real -> string): string {
    "*Category:* " + cr.category + "\n*Relevance:* " + fmtRel(cr.relevance)
    + "\n*Explanation*: " + cr.explanation + "\n\n"
  }

  function SlackHead(a: Article, bullet: string): string
    requires |bullet| > 0
  {
    "*" + a.title + "*\n\n" + SlackSummary(a.summary, bullet) + "\n\nRead more <" + a.link + "|here>"
  }

  const SlackSeparator: string := "\n---\n"

  /** The rule, then the byte lengths of description and content. */
  function SlackDebugHeader(a: Article): string {
    SlackSeparator + SlackLengths(a)
  }

  function SlackLengths(a: Article): string {
    "*Debug info:*\n"
    + "*len(Description):* " + NatToString(Utf8Len(a.description)) + "\n"
    + "*len(Content):* " + NatToString(Utf8Len(a.content)) + "\n"
  }

  function SlackBlockOf(fmtRel: real -> string): CategoryRelevance -> string {
    cr => SlackBlock(cr, fmtRel)
  }

  /**
   * Without debug information exactly the head; with it, the head followed by
   * a debug section that opens with the byte lengths of description and
   * content and ends with a rule.
   */
  function SlackText(a: Article, debugInfo: bool, fmtRel: real -> string, bullet: string): (r: string)
    requires |bullet| > 0
    ensures !debugInfo ==> r == SlackHead(a, bullet)
    ensures SlackHead(a, bullet) <= r
    ensures debugInfo ==> SlackHead(a, bullet) + SlackDebugHeader(a) <= r
    ensures debugInfo ==> (
      && |r| >= |SlackHead(a, bullet)| + 2 * |SlackSeparator|
      && r[|r| - |SlackSeparator|..] == SlackSeparator
      && r[|SlackHead(a, bullet)|..|SlackHead(a, bullet)| + |SlackSeparator|] == SlackSeparator)
    ensures |r| > |a.title| && r[1..1 + |a.title|] == a.title
  {
    var t := SlackHead(a, bullet);
    SlackHeadTitle(a, bullet);
    if debugInfo then
      var bl := Blocks(a.catRelevance, SlackBlockOf(fmtRel));
      SlackDebugLayout(a, bullet, bl);
      t + SlackDebugHeader(a) + bl + SlackSeparator
    else t
  }

  lemma SlackHeadTitle(a: Article, bullet: string)
    requires |bullet| > 0
    ensures |SlackHead(a, bullet)| > |a.title| && SlackHead(a, bullet)[1..1 + |a.title|] == a.title
  {
    assert SlackHead(a, bullet)[1..1 + |a.title|] == ("*" + a.title)[1..];
  }

  /** Where head, rules and title sit in a debug rendering with blocks `bl`. */
  lemma SlackDebugLayout(a: Article, bullet: string, bl: string)
    requires |bullet| > 0
    requires |SlackHead(a, bullet)| > |a.title| && SlackHead(a, bullet)[1..1 + |a.title|] == a.title
    ensures var t := SlackHead(a, bullet);
      var r := t + SlackDebugHeader(a) + bl + SlackSeparator;
      && t <= r && t + SlackDebugHeader(a) <= r
      && |r| >= |t| + 2 * |SlackSeparator|
      && r[|r| - |SlackSeparator|..] == SlackSeparator
      && r[|t|..|t| + |SlackSeparator|] == SlackSeparator
      && r[1..1 + |a.title|] == a.title
  {
    var t := SlackHead(a, bullet);
    var r := t + SlackDebugHeader(a) + bl + SlackSeparator;
    SlackSeparatorOpensHeader(a);
    DebugLayout(t, SlackDebugHeader(a), bl, SlackSeparator);
    PrefixKeepsSlice(t, r, 1, 1 + |a.title|);
  }

  lemma SlackSeparatorOpensHeader(a: Article)
    ensures SlackSeparator <= SlackDebugHeader(a)
  {
    assert SlackDebugHeader(a)[..|SlackSeparator|] == SlackSeparator;
  }

  lemma PrefixKeepsSlice(t: string, r: string, i: nat, j: nat)
    requires t <= r && i <= j <= |t|
    ensures r[i..j] == t[i..j]
  {
    assert r[..|t|] == t;
  }

  /**
   * In the Slack debug section, the block of relevance `i` comes right after
   * the length header and the blocks of the relevances before it, whichever
   * bullet the summary is rewritten with.
   */
  lemma SlackBlocksInOrder(a: Article, fmtRel: real -> string, bullet: string, i: nat)
    requires |bullet| > 0
    requires i < |a.catRelevance|
    ensures SlackHead(a, bullet) + SlackDebugHeader(a) + Blocks(a.catRelevance[..i], SlackBlockOf(fmtRel))
            + SlackBlock(a.catRelevance[i], fmtRel) <= SlackText(a, true, fmtRel, bullet)
  {
    var f := SlackBlockOf(fmtRel);
    var x := SlackHead(a, bullet) + SlackDebugHeader(a);
    var before := Blocks(a.catRelevance[..i], f);
    var mine := SlackBlock(a.catRelevance[i], fmtRel);
    var all := Blocks(a.catRelevance, f);
    assert f(a.catRelevance[i]) == mine;
    SlackDebugShape(a, fmtRel, bullet);
    BlocksInOrder(a.catRelevance, i, f);
    PrefixInside(x, before + mine, all, SlackSeparator);
    assert x + before + mine == x + (before + mine);
  }

  lemma SlackDebugShape(a: Article, fmtRel: real -> string, bullet: string)
    requires |bullet| > 0
    ensures SlackText(a, true, fmtRel, bullet)
            == SlackHead(a, bullet) + SlackDebugHeader(a) + Blocks(a.catRelevance, SlackBlockOf(fmtRel)) + SlackSeparator
  {
  }

  /**
   * `Article.FormatAsSlackMrkdwn` with the intended bullet. Only the summary is
   * rewritten: the title is bolded verbatim, the link appears verbatim, and the
   * rewritten summary holds no "- ". Without debug information the output is
   * exactly that head; with it, the debug section follows the head.
   */
  function FormatAsSlackMrkdwn(a: Article, debugInfo: bool, fmtRel: real -> string): (r: string)
    ensures !debugInfo ==> r == "*" + a.title + "*\n\n" + SlackSummary(a.summary, Bullet) + "\n\nRead more <" + a.link + "|here>"
    ensures |r| > |a.title| && r[1..1 + |a.title|] == a.title
    ensures "*" + a.title + "*\n\n" + SlackSummary(a.summary, Bullet) + "\n\nRead more <" + a.link + "|here>" <= r
    ensures NoDashBlank(SlackSummary(a.summary, Bullet))
    ensures debugInfo ==> SlackHead(a, Bullet) + SlackDebugHeader(a) <= r
    ensures debugInfo ==> r == SlackText(a, true, fmtRel, Bullet) && r[|r| - |SlackSeparator|..] == SlackSeparator
  {
    ReplaceDashBlankRemovesAll(a.summary, Bullet);
    CollapseStarsKeepsNoDashBlank(ReplaceAll(a.summary, "- ", Bullet));
    SlackText(a, debugInfo, fmtRel, Bullet)
  }

  /**
   * `Article.FormatAsSlackMrkdwn` exactly as written, with the garbled bullet
   * literal. The title and link still pass verbatim and no "- " survives: the
   * garbled literal only changes what the bullet looks like.
   */
  function FormatAsSlackMrkdwnAsWritten(a: Article, debugInfo: bool, fmtRel: real -> string): (r: string)
    ensures !debugInfo ==> r == "*" + a.title + "*\n\n" + SlackSummary(a.summary, BulletAsWritten) + "\n\nRead more <" + a.link + "|here>"
    ensures |r| > |a.title| && r[1..1 + |a.title|] == a.title
    ensures "*" + a.title + "*\n\n" + SlackSummary(a.summary, BulletAsWritten) + "\n\nRead more <" + a.link + "|here>" <= r
    ensures NoDashBlank(SlackSummary(a.summary, BulletAsWritten))
    ensures debugInfo ==> SlackHead(a, BulletAsWritten) + SlackDebugHeader(a) <= r
    ensures debugInfo ==> r == SlackText(a, true, fmtRel, BulletAsWritten) && r[|r| - |SlackSeparator|..] == SlackSeparator
  {
    ReplaceDashBlankRemovesAll(a.summary, BulletAsWritten);
    CollapseStarsKeepsNoDashBlank(ReplaceAll(a.summary, "- ", BulletAsWritten));
    SlackText(a, debugInfo, fmtRel, BulletAsWritten)
  }

  /** A summary with neither a dash nor an asterisk reaches Slack unchanged. */
  lemma SlackSummaryPassThrough(summary: string, bullet: string)
    requires |bullet| > 0
    requires forall i :: 0 <= i < |summary| ==> summary[i] != '-' && summary[i] != '*'
    ensures SlackSummary(summary, bullet) == summary
  {
    ReplaceAllAbsent(summary, "- ", bullet);
    ReplaceAllAbsent(summary, "**", "*");
  }

  /** As written, a list item reaches Slack starting with the three runes "â€¢", not a bullet. */
  lemma SlackBulletGarbled(rest: string)
    ensures "\U{00E2}\U{20AC}\U{00A2} " <= SlackSummary("- " + rest, BulletAsWritten)
  {
    var once := ReplaceAll("- " + rest, "- ", BulletAsWritten);
    assert (("- " + rest)[2..]) == rest;
    assert once == BulletAsWritten + ReplaceAll(rest, "- ", BulletAsWritten);
    ReplaceAllSkip(BulletAsWritten, ReplaceAll(rest, "- ", BulletAsWritten), "**", "*");
  }

  /** With the intended literal, a list item reaches Slack as U+2022 and a blank. */
  lemma SlackBulletRendered(rest: string)
    ensures "\U{2022} " <= SlackSummary("- " + rest, Bullet)
  {
    var once := ReplaceAll("- " + rest, "- ", Bullet);
    assert (("- " + rest)[2..]) == rest;
    assert once == Bullet + ReplaceAll(rest, "- ", Bullet);
    ReplaceAllSkip(Bullet, ReplaceAll(rest, "- ", Bullet), "**", "*");
  }
}

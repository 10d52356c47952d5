/** The Generator: a form over a record of nine fields, five of them
    editable on the page (title, description, keywords, author, image URL),
    a validation step that
    rebuilds the error map, per-field edits that clear that field's error,
    the template that renders the meta-tag block, and the copy action that
    is gated on validation. */
module Generator {
  import opened Wrappers
  import opened JsString

  datatype Field =
    Title | Description | Keywords | Author | OgTitle | OgDescription | OgImage | TwitterCard | Robots

  /** The form's contents, one string per field. */
  datatype MetaTagInput = MetaTagInput(
    title: string,
    description: string,
    keywords: string,
    author: string,
    ogTitle: string,
    ogDescription: string,
    ogImage: string,
    twitterCard: string,
    robots: string)
  {
    function Get(f: Field): string {
      match f
      case Title => title
      case Description => description
      case Keywords => keywords
      case Author => author
      case OgTitle => ogTitle
      case OgDescription => ogDescription
      case OgImage => ogImage
      case TwitterCard => twitterCard
      case Robots => robots
    }

    /** `{ ...input, [f]: value }` */
    function With(f: Field, value: string): (r: MetaTagInput)
      ensures r.Get(f) == value
      ensures forall g :: g != f ==> r.Get(g) == Get(g)
    {
      match f
      case Title => this.(title := value)
      case Description => this.(description := value)
      case Keywords => this.(keywords := value)
      case Author => this.(author := value)
      case OgTitle => this.(ogTitle := value)
      case OgDescription => this.(ogDescription := value)
      case OgImage => this.(ogImage := value)
      case TwitterCard => this.(twitterCard := value)
      case Robots => this.(robots := value)
    }
  }

  /** The form when the page opens: everything empty except the Twitter card
      type and the robots directive. */
  const InitialInput: MetaTagInput :=
    MetaTagInput("", "", "", "", "", "", "", "summary_large_image", "index, follow")

  // ----- Validation -----

  const TitleError: string := "Title should be between 50-60 characters"
  const DescriptionError: string := "Description should be between 120-160 characters"
  const KeywordsError: string := "Keywords are required"

  /** The rule each field is checked against. The emptiness tests on title
      and description are not trimmed; the keywords test is on the trimmed
      value, so it flags keywords that are all whitespace (`TrimEmptyIff`). */
  predicate Violates(i: MetaTagInput, f: Field) {
    match f
    case Title => i.title != [] && (|i.title| < 50 || |i.title| > 60)
    case Description => i.description != [] && (|i.description| < 120 || |i.description| > 160)
    case Keywords => AllWhitespace(i.keywords)
    case _ => false
  }

  function ErrorMessage(f: Field): string {
    match f
    case Title => TitleError
    case Description => DescriptionError
    case Keywords => KeywordsError
    case _ => ""
  }

  /** The error map validation produces: one entry per violated rule. */
  function ValidationErrors(i: MetaTagInput): map<Field, string> {
    map f | f in {Title, Description, Keywords} && Violates(i, f) :: ErrorMessage(f)
  }

  /** Which fields validation flags, spelled out: only title, description
      and keywords can be flagged; an empty title or description is never an
      error; keywords are flagged exactly when they are blank. */
  lemma ValidationRules(i: MetaTagInput)
    ensures ValidationErrors(i).Keys <= {Title, Description, Keywords}
    ensures Title in ValidationErrors(i) <==> i.title != [] && !(50 <= |i.title| <= 60)
    ensures Description in ValidationErrors(i) <==>
      i.description != [] && !(120 <= |i.description| <= 160)
    ensures Keywords in ValidationErrors(i) <==> AllWhitespace(i.keywords)
    ensures forall f :: f in ValidationErrors(i) ==> ValidationErrors(i)[f] == ErrorMessage(f)
  {
  }

  /** Validation passes exactly when the title and description are empty or
      of acceptable length and the keywords are not blank. */
  lemma ValidIff(i: MetaTagInput)
    ensures ValidationErrors(i) == map[] <==>
      (i.title == [] || 50 <= |i.title| <= 60) &&
      (i.description == [] || 120 <= |i.description| <= 160) &&
      !AllWhitespace(i.keywords)
  {
    ValidationRules(i);
    var e := ValidationErrors(i);
    if e != map[] {
      var f :| f in e;
    }
  }

  /** The map `validateInput` builds field by field is the error map. */
  lemma ValidationBuilt(i: MetaTagInput, m: map<Field, string>)
    requires Title in m <==> Violates(i, Title)
    requires Description in m <==> Violates(i, Description)
    requires Keywords in m <==> Violates(i, Keywords)
    requires m.Keys <= {Title, Description, Keywords}
    requires forall f :: f in m ==> m[f] == ErrorMessage(f)
    ensures m == ValidationErrors(i)
  {
    var e := ValidationErrors(i);
    assert forall f :: f in m <==> f in {Title, Description, Keywords} && Violates(i, f);
    assert m.Keys == e.Keys;
    assert forall f :: f in m ==> m[f] == e[f];
  }

  // ----- Rendering -----

  /** `<meta name="…" content="…">`, the content inserted as is. */
  function MetaName(name: string, content: string): string {
    "<meta name=\"" + name + "\" content=\"" + content + "\">"
  }

  const PropertyOpen: string := "<meta property=\""

  /** `<meta property="…" content="…">`, the content inserted as is. */
  function MetaProperty(property: string, content: string): string {
    PropertyOpen + property + "\" content=\"" + content + "\">"
  }

  /** `value || fallback` on strings. */
  function Or(value: string, fallback: string): (r: string)
    ensures r == [] <==> value == [] && fallback == []
  {
    if value != [] then value else fallback
  }

  /** The image line: the tag when an image is given, otherwise an empty line. */
  function ImageLine(property: string, image: string): string {
    if image != [] then MetaProperty(property, image) else ""
  }

  /** The fixed `og:type` line. */
  const OgTypeLine: string := MetaProperty("og:type", "website")

  const PrimaryHeader: string := "<!-- Primary Meta Tags -->"
  const OpenGraphHeader: string := "<!-- Open Graph / Facebook -->"
  const TwitterHeader: string := "<!-- Twitter -->"

  /** Line `k` of the template, counting from 0. */
  function TemplateLine(i: MetaTagInput, k: nat): string
    requires k < 19
  {
    match k
    case 0 => PrimaryHeader
    case 1 => "<title>" + i.title + "</title>"
    case 2 => MetaName("title", i.title)
    case 3 => MetaName("description", i.description)
    case 4 => MetaName("keywords", i.keywords)
    case 5 => MetaName("author", i.author)
    case 6 => MetaName("robots", i.robots)
    case 7 => ""
    case 8 => OpenGraphHeader
    case 9 => OgTypeLine
    case 10 => MetaProperty("og:title", Or(i.ogTitle, i.title))
    case 11 => MetaProperty("og:description", Or(i.ogDescription, i.description))
    case 12 => ImageLine("og:image", i.ogImage)
    case 13 => ""
    case 14 => TwitterHeader
    case 15 => MetaProperty("twitter:card", i.twitterCard)
    case 16 => MetaProperty("twitter:title", Or(i.ogTitle, i.title))
    case 17 => MetaProperty("twitter:description", Or(i.ogDescription, i.description))
    case _ => ImageLine("twitter:image", i.ogImage)
  }

  /** The template's 19 lines, in order. */
  function TemplateLines(i: MetaTagInput): (lines: seq<string>)
    ensures |lines| == 19
    ensures forall k :: 0 <= k < 19 ==> lines[k] == TemplateLine(i, k)
  {
    seq(19, k requires 0 <= k < 19 => TemplateLine(i, k))
  }

  /** The template is only filled in once title, description and keywords are
      all non-empty (untrimmed). */
  predicate Renderable(i: MetaTagInput) {
    i.title != [] && i.description != [] && i.keywords != []
  }

  /** The generated block: the template's lines joined by line breaks, or ""
      while a required field is empty. */
  function Render(i: MetaTagInput): string {
    if !Renderable(i) then "" else Join(TemplateLines(i), '\n')
  }

  /** The output is empty exactly when title, description or keywords is. */
  lemma RenderEmptyIff(i: MetaTagInput)
    ensures Render(i) == [] <==> !Renderable(i)
  {
    if Renderable(i) {
      var lines := TemplateLines(i);
      assert lines[0] <= Render(i);
      assert |lines[0]| > 0;
    }
  }

  /** Nothing is rendered for the form as it first appears. */
  lemma InitialRendersNothing()
    ensures Render(InitialInput) == []
    ensures Keywords in ValidationErrors(InitialInput)
  {
  }

  predicate NoLineBreaks(i: MetaTagInput) {
    forall f :: '\n' !in i.Get(f)
  }

  lemma MetaNameNoBreak(name: string, content: string)
    requires '\n' !in name && '\n' !in content
    ensures '\n' !in MetaName(name, content)
  {
  }

  lemma MetaPropertyNoBreak(property: string, content: string)
    requires '\n' !in property && '\n' !in content
    ensures '\n' !in MetaProperty(property, content)
  {
  }

  lemma LineHasNoBreak(i: MetaTagInput, k: nat)
    requires NoLineBreaks(i) && k < 19
    ensures '\n' !in TemplateLine(i, k)
  {
    match k
    case 0 => assert '\n' !in PrimaryHeader;
    case 1 => assert '\n' !in i.Get(Title);
    case 2 => assert '\n' !in i.Get(Title); MetaNameNoBreak("title", i.title);
    case 3 => assert '\n' !in i.Get(Description); MetaNameNoBreak("description", i.description);
    case 4 => assert '\n' !in i.Get(Keywords); MetaNameNoBreak("keywords", i.keywords);
    case 5 => assert '\n' !in i.Get(Author); MetaNameNoBreak("author", i.author);
    case 6 => assert '\n' !in i.Get(Robots); MetaNameNoBreak("robots", i.robots);
    case 7 =>
    case 8 => assert '\n' !in OpenGraphHeader;
    case 9 => MetaPropertyNoBreak("og:type", "website");
    case 10 =>
      assert '\n' !in i.Get(OgTitle) && '\n' !in i.Get(Title);
      MetaPropertyNoBreak("og:title", Or(i.ogTitle, i.title));
    case 11 =>
      assert '\n' !in i.Get(OgDescription) && '\n' !in i.Get(Description);
      MetaPropertyNoBreak("og:description", Or(i.ogDescription, i.description));
    case 12 => assert '\n' !in i.Get(OgImage); MetaPropertyNoBreak("og:image", i.ogImage);
    case 13 =>
    case 14 => assert '\n' !in TwitterHeader;
    case 15 => assert '\n' !in i.Get(TwitterCard); MetaPropertyNoBreak("twitter:card", i.twitterCard);
    case 16 =>
      assert '\n' !in i.Get(OgTitle) && '\n' !in i.Get(Title);
      MetaPropertyNoBreak("twitter:title", Or(i.ogTitle, i.title));
    case 17 =>
      assert '\n' !in i.Get(OgDescription) && '\n' !in i.Get(Description);
      MetaPropertyNoBreak("twitter:description", Or(i.ogDescription, i.description));
    case _ => assert '\n' !in i.Get(OgImage); MetaPropertyNoBreak("twitter:image", i.ogImage);
  }

  /** When no field contains a line break, splitting the output at line
      breaks gives back exactly the template's 19 lines: three sections, each
      headed by its comment, with an empty line where an image line is left
      out. */
  lemma RenderedLines(i: MetaTagInput)
    requires Renderable(i) && NoLineBreaks(i)
    ensures Split(Render(i), '\n') == TemplateLines(i)
    ensures TemplateLines(i)[0] == PrimaryHeader
    ensures TemplateLines(i)[8] == OpenGraphHeader
    ensures TemplateLines(i)[14] == TwitterHeader
  {
    var lines := TemplateLines(i);
    forall k | 0 <= k < |lines| ensures '\n' !in lines[k] {
      LineHasNoBreak(i, k);
    }
    SplitJoin(lines, '\n');
  }

  /** A join of 19 lines, cut where the template's three sections begin. */
  lemma JoinSections(lines: seq<string>)
    requires |lines| == 19
    ensures Join(lines, '\n') ==
      lines[0] + "\n" + (Join(lines[1..8], '\n') + "\n" +
      (lines[8] + "\n" + (Join(lines[9..14], '\n') + "\n" +
      (lines[14] + "\n" + Join(lines[15..], '\n')))))
  {
    var j15 := Join(lines[15..], '\n');
    assert lines[14..] == [lines[14]] + lines[15..];
    JoinAppend([lines[14]], lines[15..], '\n');
    var j14 := lines[14] + "\n" + j15;
    assert Join(lines[14..], '\n') == j14;
    assert lines[9..] == lines[9..14] + lines[14..];
    JoinAppend(lines[9..14], lines[14..], '\n');
    var j9 := Join(lines[9..14], '\n') + "\n" + j14;
    assert Join(lines[9..], '\n') == j9;
    assert lines[8..] == [lines[8]] + lines[9..];
    JoinAppend([lines[8]], lines[9..], '\n');
    var j8 := lines[8] + "\n" + j9;
    assert Join(lines[8..], '\n') == j8;
    assert lines[1..] == lines[1..8] + lines[8..];
    JoinAppend(lines[1..8], lines[8..], '\n');
    var j1 := Join(lines[1..8], '\n') + "\n" + j8;
    assert Join(lines[1..], '\n') == j1;
    assert lines == [lines[0]] + lines[1..];
    JoinAppend([lines[0]], lines[1..], '\n');
  }

  /** The three header lines of the template. */
  lemma HeaderLines(i: MetaTagInput)
    ensures TemplateLines(i)[0] == PrimaryHeader
    ensures TemplateLines(i)[8] == OpenGraphHeader
    ensures TemplateLines(i)[14] == TwitterHeader
  {
  }

  /** Whatever the fields contain, line breaks included, the output holds
      the three section headers in order, each on a line of its own. */
  lemma SectionOrder(i: MetaTagInput)
    requires Renderable(i)
    ensures exists x, y, z ::
      Render(i) == PrimaryHeader + "\n" + (x + "\n" + (OpenGraphHeader + "\n" + (y + "\n" + (TwitterHeader + "\n" + z))))
  {
    var lines := TemplateLines(i);
    HeaderLines(i);
    JoinSections(lines);
    var x, y, z := Join(lines[1..8], '\n'), Join(lines[9..14], '\n'), Join(lines[15..], '\n');
    assert Render(i) == PrimaryHeader + "\n" + (x + "\n" + (OpenGraphHeader + "\n" + (y + "\n" + (TwitterHeader + "\n" + z))));
  }

  /** In the output, the Open Graph and Twitter title and description tags
      carry the Open Graph value when it is set and the page's own title and
      description otherwise, and `og:type` is always `website`. */
  lemma Fallbacks(i: MetaTagInput)
    requires Renderable(i)
    ensures Includes(Render(i), OgTypeLine)
    ensures Includes(Render(i),
      MetaProperty("og:title", if i.ogTitle != [] then i.ogTitle else i.title))
    ensures Includes(Render(i),
      MetaProperty("twitter:title", if i.ogTitle != [] then i.ogTitle else i.title))
    ensures Includes(Render(i),
      MetaProperty("og:description", if i.ogDescription != [] then i.ogDescription else i.description))
    ensures Includes(Render(i),
      MetaProperty("twitter:description", if i.ogDescription != [] then i.ogDescription else i.description))
  {
    SocialLines(i);
    var title := if i.ogTitle != [] then i.ogTitle else i.title;
    var description := if i.ogDescription != [] then i.ogDescription else i.description;
    LineInOutput(i, 9, OgTypeLine);
    LineInOutput(i, 10, MetaProperty("og:title", title));
    LineInOutput(i, 16, MetaProperty("twitter:title", title));
    LineInOutput(i, 11, MetaProperty("og:description", description));
    LineInOutput(i, 17, MetaProperty("twitter:description", description));
  }

  /** Each of the four title and description properties is opened by one
      template line only, so the fallback value is the only one given. */
  lemma FallbackLinesUnique(i: MetaTagInput)
    ensures forall k :: 0 <= k < 19 && OpensProperty(TemplateLines(i)[k], "og:title") ==> k == 10
    ensures forall k :: 0 <= k < 19 && OpensProperty(TemplateLines(i)[k], "twitter:title") ==> k == 16
    ensures forall k :: 0 <= k < 19 && OpensProperty(TemplateLines(i)[k], "og:description") ==> k == 11
    ensures forall k :: 0 <= k < 19 && OpensProperty(TemplateLines(i)[k], "twitter:description") ==> k == 17
  {
    OnlyPropertyLine(i, "og:title", 10);
    OnlyPropertyLine(i, "twitter:title", 16);
    OnlyPropertyLine(i, "og:description", 11);
    OnlyPropertyLine(i, "twitter:description", 17);
  }

  /** No template line but line `j` opens the property written on line `j`. */
  lemma OnlyPropertyLine(i: MetaTagInput, q: string, j: nat)
    requires j < 19 && LineProperty(j) == Some(q) && '"' !in q
    ensures forall k :: 0 <= k < 19 && OpensProperty(TemplateLines(i)[k], q) ==> k == j
  {
    forall k | 0 <= k < 19 && OpensProperty(TemplateLines(i)[k], q)
      ensures k == j
    {
      LineOpens(i, k, q);
    }
  }

  /** Every field of the primary section is copied into the output as is,
      without any escaping, in the tag that names it. */
  lemma Verbatim(i: MetaTagInput)
    requires Renderable(i)
    ensures Includes(Render(i), "<title>" + i.title + "</title>")
    ensures Includes(Render(i), MetaName("title", i.title))
    ensures Includes(Render(i), MetaName("description", i.description))
    ensures Includes(Render(i), MetaName("keywords", i.keywords))
    ensures Includes(Render(i), MetaName("author", i.author))
    ensures Includes(Render(i), MetaName("robots", i.robots))
    ensures Includes(Render(i), MetaProperty("twitter:card", i.twitterCard))
  {
    FieldLines(i);
    LineInOutput(i, 1, "<title>" + i.title + "</title>");
    LineInOutput(i, 2, MetaName("title", i.title));
    LineInOutput(i, 3, MetaName("description", i.description));
    LineInOutput(i, 4, MetaName("keywords", i.keywords));
    LineInOutput(i, 5, MetaName("author", i.author));
    LineInOutput(i, 6, MetaName("robots", i.robots));
    LineInOutput(i, 15, MetaProperty("twitter:card", i.twitterCard));
  }

  /** Every Open Graph field that is set is copied into both its Open Graph
      and its Twitter tag as is, without any escaping. */
  lemma SocialVerbatim(i: MetaTagInput)
    requires Renderable(i)
    ensures i.ogTitle != [] ==> Includes(Render(i), MetaProperty("og:title", i.ogTitle))
    ensures i.ogTitle != [] ==> Includes(Render(i), MetaProperty("twitter:title", i.ogTitle))
    ensures i.ogDescription != [] ==> Includes(Render(i), MetaProperty("og:description", i.ogDescription))
    ensures i.ogDescription != [] ==> Includes(Render(i), MetaProperty("twitter:description", i.ogDescription))
    ensures i.ogImage != [] ==> Includes(Render(i), MetaProperty("og:image", i.ogImage))
    ensures i.ogImage != [] ==> Includes(Render(i), MetaProperty("twitter:image", i.ogImage))
  {
    SocialLines(i);
    if i.ogTitle != [] {
      LineInOutput(i, 10, MetaProperty("og:title", i.ogTitle));
      LineInOutput(i, 16, MetaProperty("twitter:title", i.ogTitle));
    }
    if i.ogDescription != [] {
      LineInOutput(i, 11, MetaProperty("og:description", i.ogDescription));
      LineInOutput(i, 17, MetaProperty("twitter:description", i.ogDescription));
    }
    if i.ogImage != [] {
      LineInOutput(i, 12, MetaProperty("og:image", i.ogImage));
      LineInOutput(i, 18, MetaProperty("twitter:image", i.ogImage));
    }
  }

  /** The primary section's lines and the Twitter card line, each in its
      closed form. */
  lemma FieldLines(i: MetaTagInput)
    ensures TemplateLine(i, 1) == "<title>" + i.title + "</title>"
    ensures TemplateLine(i, 2) == MetaName("title", i.title)
    ensures TemplateLine(i, 3) == MetaName("description", i.description)
    ensures TemplateLine(i, 4) == MetaName("keywords", i.keywords)
    ensures TemplateLine(i, 5) == MetaName("author", i.author)
    ensures TemplateLine(i, 6) == MetaName("robots", i.robots)
    ensures TemplateLine(i, 15) == MetaProperty("twitter:card", i.twitterCard)
  {
  }

  /** The Open Graph and Twitter lines, each in its closed form. */
  lemma SocialLines(i: MetaTagInput)
    ensures TemplateLine(i, 9) == OgTypeLine
    ensures TemplateLine(i, 10) == MetaProperty("og:title", if i.ogTitle != [] then i.ogTitle else i.title)
    ensures TemplateLine(i, 11) ==
      MetaProperty("og:description", if i.ogDescription != [] then i.ogDescription else i.description)
    ensures i.ogImage != [] ==> TemplateLine(i, 12) == MetaProperty("og:image", i.ogImage)
    ensures TemplateLine(i, 16) == MetaProperty("twitter:title", if i.ogTitle != [] then i.ogTitle else i.title)
    ensures TemplateLine(i, 17) ==
      MetaProperty("twitter:description", if i.ogDescription != [] then i.ogDescription else i.description)
    ensures i.ogImage != [] ==> TemplateLine(i, 18) == MetaProperty("twitter:image", i.ogImage)
  {
  }

  /** Each template line occurs in the output. */
  lemma LineInOutput(i: MetaTagInput, k: nat, line: string)
    requires Renderable(i) && k < 19 && TemplateLine(i, k) == line
    ensures Includes(Render(i), line)
  {
    JoinContains(TemplateLines(i), '\n', k);
  }

  // ----- Image lines -----

  /** `line` opens a `meta` tag for `property`. */
  predicate OpensProperty(line: string, property: string) {
    PropertyOpen + property + "\"" <= line
  }

  /** A quote-free name followed by a quote is determined by the text it
      starts: the first quote ends it. */
  lemma {:induction false} QuoteDelimited(p: string, q: string, x: string)
    requires '"' !in p && '"' !in q
    requires q + "\"" <= p + "\"" + x
    ensures p == q
  {
    assert (q + "\"")[0] == (p + "\"" + x)[0];
    if p != [] && q != [] {
      assert (q + "\"")[1..] == q[1..] + "\"";
      assert (p + "\"" + x)[1..] == p[1..] + "\"" + x;
      QuoteDelimited(p[1..], q[1..], x);
      assert p == [p[0]] + p[1..] && q == [q[0]] + q[1..];
    }
  }

  /** A property tag opens for `q` only if its own property is `q`, provided
      neither property name contains a quote. */
  lemma OpensPropertyIff(p: string, content: string, q: string)
    requires '"' !in p && '"' !in q
    ensures OpensProperty(MetaProperty(p, content), q) <==> p == q
  {
    var rest := " content=\"" + content + "\">";
    var tail := p + "\"" + rest;
    assert MetaProperty(p, content) == PropertyOpen + tail;
    assert PropertyOpen + q + "\"" == PropertyOpen + (q + "\"");
    if OpensProperty(MetaProperty(p, content), q) {
      var n := |PropertyOpen|;
      assert (PropertyOpen + tail)[n..] == tail;
      assert (PropertyOpen + (q + "\""))[n..] == q + "\"";
      assert q + "\"" <= tail;
      QuoteDelimited(p, q, rest);
    }
  }

  lemma MetaNameOpensNoProperty(name: string, content: string, q: string)
    ensures !OpensProperty(MetaName(name, content), q)
  {
    assert MetaName(name, content)[6] == 'n';
    assert (PropertyOpen + q + "\"")[6] == 'p';
  }

  /** The property a template line is written for, for the lines that are
      `meta property` tags. */
  function LineProperty(k: nat): Option<string>
    requires k < 19
  {
    match k
    case 9 => Some("og:type")
    case 10 => Some("og:title")
    case 11 => Some("og:description")
    case 12 => Some("og:image")
    case 15 => Some("twitter:card")
    case 16 => Some("twitter:title")
    case 17 => Some("twitter:description")
    case 18 => Some("twitter:image")
    case _ => None
  }

  /** A template line opens a tag for a (quote-free) property exactly when it
      is that property's line, and an image line only does so when an image
      is given. */
  lemma LineOpens(i: MetaTagInput, k: nat, q: string)
    requires k < 19 && '"' !in q
    ensures OpensProperty(TemplateLine(i, k), q) <==>
      LineProperty(k) == Some(q) && ((k != 12 && k != 18) || i.ogImage != [])
  {
    assert (PropertyOpen + q + "\"")[1] == 'm';
    match k
    case 0 => assert PrimaryHeader[1] == '!';
    case 1 => assert TemplateLine(i, k)[1] == 't';
    case 2 => MetaNameOpensNoProperty("title", i.title, q);
    case 3 => MetaNameOpensNoProperty("description", i.description, q);
    case 4 => MetaNameOpensNoProperty("keywords", i.keywords, q);
    case 5 => MetaNameOpensNoProperty("author", i.author, q);
    case 6 => MetaNameOpensNoProperty("robots", i.robots, q);
    case 7 =>
    case 8 => assert OpenGraphHeader[1] == '!';
    case 9 => OpensPropertyIff("og:type", "website", q);
    case 10 => OpensPropertyIff("og:title", Or(i.ogTitle, i.title), q);
    case 11 => OpensPropertyIff("og:description", Or(i.ogDescription, i.description), q);
    case 12 => if i.ogImage != [] { OpensPropertyIff("og:image", i.ogImage, q); }
    case 13 =>
    case 14 => assert TwitterHeader[1] == '!';
    case 15 => OpensPropertyIff("twitter:card", i.twitterCard, q);
    case 16 => OpensPropertyIff("twitter:title", Or(i.ogTitle, i.title), q);
    case 17 => OpensPropertyIff("twitter:description", Or(i.ogDescription, i.description), q);
    case _ => if i.ogImage != [] { OpensPropertyIff("twitter:image", i.ogImage, q); }
  }

  /** Among the template's lines, an `og:image` tag and a `twitter:image` tag
      appear exactly when an image is given; without one both image lines
      are left empty. */
  lemma ImageLinesIff(i: MetaTagInput)
    ensures (exists k :: 0 <= k < 19 && OpensProperty(TemplateLines(i)[k], "og:image")) <==> i.ogImage != []
    ensures (exists k :: 0 <= k < 19 && OpensProperty(TemplateLines(i)[k], "twitter:image")) <==> i.ogImage != []
    ensures i.ogImage == [] ==> TemplateLines(i)[12] == [] && TemplateLines(i)[18] == []
  {
    var lines := TemplateLines(i);
    forall k | 0 <= k < 19
      ensures OpensProperty(lines[k], "og:image") <==> k == 12 && i.ogImage != []
      ensures OpensProperty(lines[k], "twitter:image") <==> k == 18 && i.ogImage != []
    {
      LineOpens(i, k, "og:image");
      LineOpens(i, k, "twitter:image");
    }
    if i.ogImage != [] {
      assert OpensProperty(lines[12], "og:image");
      assert OpensProperty(lines[18], "twitter:image");
    }
  }

  // ----- Copy -----

  /** What the copy action puts on the clipboard: nothing when validation
      fails, and nothing when the rendered block is empty. */
  function CopiedText(i: MetaTagInput): Option<string> {
    if ValidationErrors(i) != map[] then None
    else if Render(i) != [] then Some(Render(i))
    else None
  }

  /** The copy gate in closed form: text is copied exactly when the title and
      description have acceptable lengths and the keywords are not blank, and
      the text is then the rendered block. */
  lemma CopyGate(i: MetaTagInput)
    ensures CopiedText(i).Some? <==>
      50 <= |i.title| <= 60 && 120 <= |i.description| <= 160 && !AllWhitespace(i.keywords)
    ensures CopiedText(i).Some? ==> CopiedText(i).value == Render(i) && Render(i) != []
  {
    ValidIff(i);
    RenderEmptyIff(i);
  }

  /** First gap in the gate: with an empty title or description validation
      passes, yet the block is empty and nothing is copied. The page only
      shows the copy button while the block is non-empty, so a user cannot
      reach this state through the button; `Form.Copy` itself can still be
      called in it. */
  lemma ValidButNothingRendered(i: MetaTagInput)
    requires i.title == [] || i.description == []
    requires i.title == [] || 50 <= |i.title| <= 60
    requires i.description == [] || 120 <= |i.description| <= 160
    requires !AllWhitespace(i.keywords)
    ensures ValidationErrors(i) == map[]
    ensures Render(i) == [] && CopiedText(i) == None
  {
    ValidIff(i);
  }

  /** Second gap: keywords made only of spaces fill in the template, since the
      render test is untrimmed, yet fail validation, so the block is shown but
      cannot be copied. */
  lemma BlankKeywordsRenderedNotCopied(i: MetaTagInput)
    requires i.title != [] && i.description != []
    requires i.keywords != [] && AllWhitespace(i.keywords)
    ensures Render(i) != [] && Keywords in ValidationErrors(i)
    ensures CopiedText(i) == None
  {
    ValidationRules(i);
    RenderEmptyIff(i);
  }

  // ----- Form state -----

  /** The form's state: its contents, the errors on display and the
      "copied" indicator. */
  class Form {
    var input: MetaTagInput
    var errors: map<Field, string>
    var copied: bool

    constructor ()
      ensures input == InitialInput && errors == map[] && !copied
    {
      input, errors, copied := InitialInput, map[], false;
    }

    /** The block shown beside the form, recomputed from the contents. */
    function MetaTags(): string
      reads this
    {
      Render(input)
    }

    /** `validateInput`: builds a fresh map field by field and replaces the
        displayed errors with it, whatever they were; the result says whether
        the new map is empty. Running it twice leaves the same errors. */
    method Validate() returns (ok: bool)
      modifies this`errors
      ensures errors == ValidationErrors(input)
      ensures ok <==> errors == map[]
    {
      var newErrors: map<Field, string> := map[];
      var i := input;
      if i.title != [] && (|i.title| < 50 || |i.title| > 60) {
        newErrors := newErrors[Title := TitleError];
      }
      if i.description != [] && (|i.description| < 120 || |i.description| > 160) {
        newErrors := newErrors[Description := DescriptionError];
      }
      assert Keywords !in newErrors;
      var blank := Trim(i.keywords) == [];
      if blank {
        newErrors := newErrors[Keywords := KeywordsError];
      }
      TrimEmptyIff(i.keywords);
      ValidationBuilt(i, newErrors);
      errors := newErrors;
      ok := |newErrors| == 0;
      assert ok <==> newErrors == map[] by {
        if newErrors != map[] {
          var f :| f in newErrors;
        }
      }
    }

    /** `handleInputChange`: sets one field and clears that field's error;
        every other field and every other error stays as it was. */
    method Edit(f: Field, value: string)
      modifies this`input, this`errors
      ensures input == old(input).With(f, value)
      ensures input.Get(f) == value
      ensures forall g :: g != f ==> input.Get(g) == old(input).Get(g)
      ensures errors == old(errors) - {f}
      ensures f !in errors
      ensures forall g :: g != f ==> (g in errors <==> g in old(errors))
      ensures forall g :: g != f && g in errors ==> errors[g] == old(errors)[g]
    {
      input := input.With(f, value);
      errors := errors - {f};
    }

    /** `copyToClipboard`: validates (which replaces the displayed errors),
        then, if that passed and the block is non-empty, hands the block to
        the clipboard and turns the indicator on. */
    method Copy() returns (clipboard: Option<string>)
      modifies this`errors, this`copied
      ensures errors == ValidationErrors(input)
      ensures clipboard == CopiedText(input)
      ensures copied == (clipboard.Some? || old(copied))
    {
      clipboard := None;
      var ok := Validate();
      if !ok {
        return;
      }
      var text := MetaTags();
      if text != [] {
        clipboard := Some(text);
        copied := true;
      }
    }

    /** The timer started by a successful copy turns the indicator off. */
    method CopiedTimeout()
      modifies this`copied
      ensures !copied
    {
      copied := false;
    }
  }
}

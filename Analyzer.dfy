/** The Analyzer: scores the meta tags extracted from a fetched page against
    fixed length and presence rules, and averages the six scores into an
    overall percentage. Fetching the page and extracting the strings from the
    parsed document happen before this model starts: a `Page` holds the
    extracted strings, with "" for an element or attribute that is absent. */
module Analyzer {
  import opened Wrappers
  import opened JsString

  datatype Status = Good | Warning | Error

  /** One row of the report; `recommendation` and `example` are fixed per tag. */
  datatype MetaTagResult = MetaTagResult(
    tag: string,
    content: string,
    status: Status,
    message: string,
    recommendation: string,
    example: string)

  /** The strings extracted from the page: the `<title>` text, the `content`
      of the description, keywords, viewport and robots `meta` elements, and
      of the three Open Graph `meta` properties. */
  datatype Page = Page(
    title: string,
    description: string,
    keywords: string,
    viewport: string,
    robots: string,
    ogTitle: string,
    ogDescription: string,
    ogImage: string)

  const DeviceWidth: string := "width=device-width"
  const FailureMessage: string := "Failed to analyze the website. Please check the URL and try again."

  // The name of each row, in report order.
  const TitleTag: string := "Title"
  const DescriptionTag: string := "Description"
  const KeywordsTag: string := "Keywords"
  const ViewportTag: string := "Viewport"
  const RobotsTag: string := "Robots"
  const OgTag: string := "Open Graph"

  // The fixed messages of the presence checks.
  const ViewportPresent: string := "Viewport meta tag is present"
  const ViewportMissing: string := "Viewport meta tag is missing"
  const RobotsConfigured: string := "Robots meta tag is configured"
  const RobotsDefault: string := "Using default robots behavior"
  const OgComplete: string := "All Open Graph tags present"
  const OgIncomplete: string := "Missing some Open Graph tags"

  // The fixed advice shown with each row, independent of the page.
  const TitleRecommendation: string :=
    "Create a unique, descriptive title between 50-60 characters that includes your main keyword near the beginning."
  const TitleExample: string :=
    "SEO Meta Tag Analyzer | Free Tool for Website Optimization"
  const DescriptionRecommendation: string :=
    "Write a compelling meta description between 120-155 characters that accurately summarizes your page and includes a call-to-action."
  const DescriptionExample: string :=
    "Analyze your website's meta tags instantly with our free SEO tool. Get detailed recommendations to improve your search engine visibility. Try it now!"
  const KeywordsRecommendation: string :=
    "While less important for modern SEO, include 5-10 relevant keywords that accurately describe your page content."
  const KeywordsExample: string :=
    "seo analyzer, meta tags, seo tools, website optimization, meta description"
  const ViewportRecommendation: string :=
    "Ensure your page is mobile-friendly by including a proper viewport meta tag."
  const ViewportExample: string :=
    "<meta name=\"viewport\" content=\"width=device-width, initial-scale=1.0\">"
  const RobotsRecommendation: string :=
    "Configure the robots meta tag to control how search engines interact with your page."
  const RobotsExample: string :=
    "<meta name=\"robots\" content=\"index, follow\">"
  const OgRecommendation: string :=
    "Include Open Graph meta tags to control how your content appears when shared on social media."
  const OgExample: string :=
    "<meta property=\"og:title\" content=\"Your Title\">\n<meta property=\"og:description\" content=\"Your Description\">\n<meta property=\"og:image\" content=\"https://example.com/image.jpg\">"

  /** The status rule shared by title, description and Open Graph. */
  function GradedStatus(score: int): (s: Status)
    ensures s == Good <==> score == 100
    ensures s == Warning <==> score == 50
  {
    if score == 100 then Good else if score == 50 then Warning else Error
  }

  // ----- Title -----

  function TitleScore(title: string): (score: int)
    ensures score == 100 <==> 50 <= |title| <= 60
    ensures score == 50 <==> title != [] && !(50 <= |title| <= 60)
    ensures score == 0 <==> title == []
  {
    if 50 <= |title| && |title| <= 60 then 100
    else if |title| > 0 then 50
    else 0
  }

  function TitleResult(title: string): (r: MetaTagResult)
    ensures r.tag == TitleTag && r.content == title
    ensures r.status == Good <==> 50 <= |title| <= 60
    ensures r.status == Warning <==> title != [] && !(50 <= |title| <= 60)
    ensures r.status == Error <==> title == []
    ensures r.message == "Title length: " + NatToString(|title|) + " characters"
  {
    MetaTagResult(
      TitleTag,
      title,
      GradedStatus(TitleScore(title)),
      "Title length: " + NatToString(|title|) + " characters",
      TitleRecommendation,
      TitleExample)
  }

  // ----- Description -----

  function DescriptionScore(description: string): (score: int)
    ensures score == 100 <==> 120 <= |description| <= 155
    ensures score == 50 <==> description != [] && !(120 <= |description| <= 155)
    ensures score == 0 <==> description == []
  {
    if 120 <= |description| && |description| <= 155 then 100
    else if |description| > 0 then 50
    else 0
  }

  function DescriptionResult(description: string): (r: MetaTagResult)
    ensures r.tag == DescriptionTag && r.content == description
    ensures r.status == Good <==> 120 <= |description| <= 155
    ensures r.status == Warning <==> description != [] && !(120 <= |description| <= 155)
    ensures r.status == Error <==> description == []
    ensures r.message == "Description length: " + NatToString(|description|) + " characters"
  {
    MetaTagResult(
      DescriptionTag,
      description,
      GradedStatus(DescriptionScore(description)),
      "Description length: " + NatToString(|description|) + " characters",
      DescriptionRecommendation,
      DescriptionExample)
  }

  // ----- Keywords -----

  /** `keywords.split(',').map(k => k.trim())` */
  function KeywordsList(keywords: string): (list: seq<string>)
    ensures |list| == CountOf(keywords, ',') + 1
  {
    var pieces := Split(keywords, ',');
    seq(|pieces|, k requires 0 <= k < |pieces| => Trim(pieces[k]))
  }

  /** The list test `length > 0` can never fail, since splitting always
      yields at least one piece: every page scores 70 here, even one without
      a keywords tag. */
  function KeywordsScore(keywords: string): (score: int)
    ensures score == 70
  {
    if |KeywordsList(keywords)| > 0 then 70 else 0
  }

  function KeywordsResult(keywords: string): (r: MetaTagResult)
    ensures r.tag == KeywordsTag && r.content == keywords
    ensures r.status == Warning
    ensures r.message == NatToString(CountOf(keywords, ',') + 1) + " keywords found"
  {
    var list := KeywordsList(keywords);
    MetaTagResult(
      KeywordsTag,
      keywords,
      if KeywordsScore(keywords) > 0 then Warning else Error,
      NatToString(|list|) + " keywords found",
      KeywordsRecommendation,
      KeywordsExample)
  }

  // ----- Viewport -----

  function ViewportScore(viewport: string): (score: int)
    ensures score == 100 || score == 0
  {
    if Includes(viewport, DeviceWidth) then 100 else 0
  }

  /** The message only reports presence, so a viewport tag without
      `width=device-width` is an error whose message says it is present. */
  function ViewportResult(viewport: string): (r: MetaTagResult)
    ensures r.tag == ViewportTag && r.content == viewport
    ensures r.status == Good <==> ViewportScore(viewport) == 100
    ensures r.status != Warning
    ensures r.message == ViewportPresent <==> viewport != []
    ensures r.message == ViewportMissing <==> viewport == []
  {
    MetaTagResult(
      ViewportTag,
      viewport,
      if ViewportScore(viewport) == 100 then Good else Error,
      if viewport != [] then ViewportPresent else ViewportMissing,
      ViewportRecommendation,
      ViewportExample)
  }

  /** The viewport is good exactly when `width=device-width` occurs somewhere
      in its content. */
  lemma ViewportRule(viewport: string)
    ensures ViewportScore(viewport) == 100 <==> exists i :: OccursAt(viewport, DeviceWidth, i)
    ensures ViewportResult(viewport).status == Good <==> exists i :: OccursAt(viewport, DeviceWidth, i)
  {
    IncludesIff(viewport, DeviceWidth);
  }

  // ----- Robots -----

  /** A missing robots tag is only a warning: crawlers fall back to their
      default behaviour. */
  function RobotsScore(robots: string): (score: int)
    ensures score == 100 <==> robots != []
    ensures score == 50 <==> robots == []
  {
    if robots != [] then 100 else 50
  }

  function RobotsResult(robots: string): (r: MetaTagResult)
    ensures r.tag == RobotsTag && r.content == robots
    ensures r.status == Good <==> robots != []
    ensures r.status == Warning <==> robots == []
    ensures r.message == (if robots != [] then RobotsConfigured else RobotsDefault)
  {
    MetaTagResult(
      RobotsTag,
      robots,
      if RobotsScore(robots) == 100 then Good else Warning,
      if robots != [] then RobotsConfigured else RobotsDefault,
      RobotsRecommendation,
      RobotsExample)
  }

  // ----- Open Graph -----

  function OgScore(ogTitle: string, ogDescription: string, ogImage: string): (score: int)
    ensures score == 100 <==> ogTitle != [] && ogDescription != [] && ogImage != []
    ensures score == 50 <==>
      (ogTitle != [] || ogDescription != [] || ogImage != []) &&
      !(ogTitle != [] && ogDescription != [] && ogImage != [])
    ensures score == 0 <==> ogTitle == [] && ogDescription == [] && ogImage == []
  {
    if ogTitle != [] && ogDescription != [] && ogImage != [] then 100
    else if ogTitle != [] || ogDescription != [] || ogImage != [] then 50
    else 0
  }

  function OgResult(ogTitle: string, ogDescription: string, ogImage: string): (r: MetaTagResult)
    ensures r.tag == OgTag
    ensures r.content == "Title: " + ogTitle + "\nDescription: " + ogDescription + "\nImage: " + ogImage
    ensures r.status == Good <==> ogTitle != [] && ogDescription != [] && ogImage != []
    ensures r.status == Error <==> ogTitle == [] && ogDescription == [] && ogImage == []
    ensures r.message == OgComplete <==> r.status == Good
    ensures r.message == (if r.status == Good then OgComplete else OgIncomplete)
  {
    var score := OgScore(ogTitle, ogDescription, ogImage);
    MetaTagResult(
      OgTag,
      "Title: " + ogTitle + "\nDescription: " + ogDescription + "\nImage: " + ogImage,
      GradedStatus(score),
      if score == 100 then OgComplete else OgIncomplete,
      OgRecommendation,
      OgExample)
  }

  // ----- The whole report -----

  /** The six scores, in report order. */
  function Scores(p: Page): seq<int> {
    [TitleScore(p.title), DescriptionScore(p.description), KeywordsScore(p.keywords),
     ViewportScore(p.viewport), RobotsScore(p.robots),
     OgScore(p.ogTitle, p.ogDescription, p.ogImage)]
  }

  /** The six results, in report order. */
  function Results(p: Page): (rs: seq<MetaTagResult>)
    ensures |rs| == 6
    ensures rs[0].tag == TitleTag && rs[1].tag == DescriptionTag && rs[2].tag == KeywordsTag
    ensures rs[3].tag == ViewportTag && rs[4].tag == RobotsTag && rs[5].tag == OgTag
  {
    [TitleResult(p.title), DescriptionResult(p.description), KeywordsResult(p.keywords),
     ViewportResult(p.viewport), RobotsResult(p.robots),
     OgResult(p.ogTitle, p.ogDescription, p.ogImage)]
  }

  function Sum(s: seq<int>): int {
    if s == [] then 0 else Sum(s[..|s| - 1]) + s[|s| - 1]
  }

  /** `Math.round(total / count)`: the nearest integer, halves rounded up. */
  function RoundedMean(total: int, count: int): (r: int)
    requires count > 0
    ensures 2 * count * r - count <= 2 * total < 2 * count * r + count
  {
    (2 * total + count) / (2 * count)
  }

  /** The overall score: the rounded mean of the six scores. */
  function OverallScore(p: Page): int {
    RoundedMean(Sum(Scores(p)), |Scores(p)|)
  }

  /** `analyzeTags` after the fetch: push one result per tag and accumulate
      the score total and count, then round the mean. */
  method ScorePage(p: Page) returns (metaTags: seq<MetaTagResult>, overall: int)
    ensures metaTags == Results(p)
    ensures overall == OverallScore(p)
  {
    metaTags := [];
    var scoreTotal := 0;
    var scoreCount := 0;

    var titleScore := TitleScore(p.title);
    scoreTotal := scoreTotal + titleScore;
    scoreCount := scoreCount + 1;
    metaTags := metaTags + [TitleResult(p.title)];

    var descScore := DescriptionScore(p.description);
    scoreTotal := scoreTotal + descScore;
    scoreCount := scoreCount + 1;
    metaTags := metaTags + [DescriptionResult(p.description)];

    var keywordScore := KeywordsScore(p.keywords);
    scoreTotal := scoreTotal + keywordScore;
    scoreCount := scoreCount + 1;
    metaTags := metaTags + [KeywordsResult(p.keywords)];

    var viewportScore := ViewportScore(p.viewport);
    scoreTotal := scoreTotal + viewportScore;
    scoreCount := scoreCount + 1;
    metaTags := metaTags + [ViewportResult(p.viewport)];

    var robotsScore := RobotsScore(p.robots);
    scoreTotal := scoreTotal + robotsScore;
    scoreCount := scoreCount + 1;
    metaTags := metaTags + [RobotsResult(p.robots)];

    var ogScore := OgScore(p.ogTitle, p.ogDescription, p.ogImage);
    scoreTotal := scoreTotal + ogScore;
    scoreCount := scoreCount + 1;
    metaTags := metaTags + [OgResult(p.ogTitle, p.ogDescription, p.ogImage)];

    SumOfSix(Scores(p));
    overall := RoundedMean(scoreTotal, scoreCount);
  }

  lemma SumAppend(s: seq<int>, x: int)
    ensures Sum(s + [x]) == Sum(s) + x
  {
    assert (s + [x])[..|s|] == s;
  }

  lemma SumOfSix(s: seq<int>)
    requires |s| == 6
    ensures Sum(s) == s[0] + s[1] + s[2] + s[3] + s[4] + s[5]
  {
    assert s[..1] == [] + [s[0]];
    SumAppend([], s[0]);
    assert s[..2] == s[..1] + [s[1]];
    SumAppend(s[..1], s[1]);
    assert s[..3] == s[..2] + [s[2]];
    SumAppend(s[..2], s[2]);
    assert s[..4] == s[..3] + [s[3]];
    SumAppend(s[..3], s[3]);
    assert s[..5] == s[..4] + [s[4]];
    SumAppend(s[..4], s[4]);
    assert s == s[..5] + [s[5]];
    SumAppend(s[..5], s[5]);
  }

  /** Six scores are always counted, and given the scores each rule can
      produce (keywords always 70, robots at least 50), the overall score
      lies between 20 and 95. */
  lemma OverallScoreBounds(p: Page)
    ensures |Scores(p)| == 6
    ensures OverallScore(p) == RoundedMean(Sum(Scores(p)), 6)
    ensures 20 <= OverallScore(p) <= 95
  {
    SumOfSix(Scores(p));
  }

  // ----- Overall score card -----

  /** Colour and icon of the overall score card. */
  datatype Band = GreenAward | YellowInfo | RedAlert

  /** The card tests `overallScore && overallScore >= …`, so a missing score
      or a score of 0 is falsy; both fall through to red, which the plain
      thresholds give anyway. */
  function ScoreBand(overallScore: Option<int>): (b: Band)
    ensures b == GreenAward <==> overallScore.Some? && overallScore.value >= 80
    ensures b == YellowInfo <==> overallScore.Some? && 60 <= overallScore.value < 80
    ensures b == RedAlert <==> overallScore.None? || overallScore.value < 60
  {
    if overallScore.Some? && overallScore.value != 0 && overallScore.value >= 80 then GreenAward
    else if overallScore.Some? && overallScore.value != 0 && overallScore.value >= 60 then YellowInfo
    else RedAlert
  }

  /** The Analyzer's state after a submission: the report, the overall score
      and the error message. `fetched` is the page's extracted strings, or
      `None` when the fetch, the JSON body or its `contents` failed. */
  class View {
    var results: seq<MetaTagResult>
    var overallScore: Option<int>
    var error: string

    constructor ()
      ensures results == [] && overallScore == None && error == ""
    {
      results, overallScore, error := [], None, "";
    }

    /** Each submission replaces the previous report in full; any failure
        leaves no partial report and one generic message. */
    method Submit(fetched: Option<Page>)
      modifies this
      ensures fetched.Some? ==>
        results == Results(fetched.value) &&
        overallScore == Some(OverallScore(fetched.value)) &&
        error == ""
      ensures fetched.None? ==>
        results == [] && overallScore == None && error == FailureMessage
    {
      error := "";
      results := [];
      overallScore := None;
      match fetched {
        case None =>
          error := FailureMessage;
        case Some(page) =>
          var metaTags, overall := ScorePage(page);
          results := metaTags;
          overallScore := Some(overall);
      }
    }
  }

  /** A page with a good title, a description of the wrong length, a
      device-width viewport, no robots tag and all three Open Graph tags
      scores 100, 50, 70, 100, 50 and 100; the mean 78.33 is shown as 78. */
  lemma MixedPageScore(p: Page)
    requires 50 <= |p.title| <= 60 && p.description != [] && !(120 <= |p.description| <= 155)
    requires Includes(p.viewport, DeviceWidth) && p.robots == []
    requires p.ogTitle != [] && p.ogDescription != [] && p.ogImage != []
    ensures Scores(p) == [100, 50, 70, 100, 50, 100]
    ensures OverallScore(p) == 78
  {
    SumOfSix(Scores(p));
  }

  /** A page whose title and description have good lengths, with a
      device-width viewport, a robots tag and all three Open Graph tags but
      no keywords tag: every row but keywords is good, keywords is a warning
      rather than an error, and the overall score is 95. A keyword score of 0
      for the empty list would have given 83; that branch cannot be taken. */
  lemma MissingKeywordsExample(p: Page)
    requires 50 <= |p.title| <= 60 && 120 <= |p.description| <= 155
    requires p.keywords == [] && Includes(p.viewport, DeviceWidth) && p.robots != []
    requires p.ogTitle != [] && p.ogDescription != [] && p.ogImage != []
    ensures Results(p)[2].status == Warning
    ensures forall k :: 0 <= k < 6 && k != 2 ==> Results(p)[k].status == Good
    ensures OverallScore(p) == 95
  {
    assert Scores(p) == [100, 100, 70, 100, 100, 100];
    SumOfSix(Scores(p));
  }
}

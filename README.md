# SEO Meta Tag Analyser — a verified model of its two logic cores

The site has two components with real logic inside otherwise presentational
React code:

- **Analyzer** (`Analyzer.dfy`) takes the strings extracted from a fetched
  page: the title text, the description, keywords, viewport and robots
  `meta` contents, and the three Open Graph properties. It scores each of
  six tags against fixed length and presence rules and gives each a status
  (`good`, `warning`, `error`) and a message. It then averages the six scores
  into a rounded overall percentage, which the score card shows in green,
  yellow or red.
- **Generator** (`Generator.dfy`) is a form over a record of nine text
  fields with defaults, five of which (title, description, keywords, author,
  image URL) have an input on the page. Validation rebuilds an error map from
  scratch. Editing a field clears that field's error. A template renders the meta-tag block, with
  Open Graph and Twitter fallbacks and conditional image lines. The copy
  action is gated on validation and on the block being non-empty.

`JsString.dfy` models the JavaScript string built-ins the two rely on. These
are `trim`, `split`, `includes` and the decimal text of a length. Its `Join`
is not a built-in the source calls: it stands for the multi-line template
literal, whose lines are joined by line breaks, and it is the inverse of
`Split`.
One `char` stands for one UTF-16 code unit, so `|s|` is `s.length`.
`Bounds.dfy` compares the two components' title and description bounds.
`Wrappers.dfy` holds an `Option` type.

State the source changes in place is modelled as classes. The Analyzer's
`View` holds `results`, `overallScore` and `error`. The Generator's `Form`
holds `input`, `errors` and `copied`. The scoring step of `analyzeTags`
pushes results and accumulates `scoreTotal`/`scoreCount`. It is the method
`Analyzer.ScorePage`, proved equal to the pure `Results` and `OverallScore`.
`Math.round(total / count)` with `count > 0` is `(2 * total + count) / (2 * count)`
in integer arithmetic. Dafny's division is floor division for a positive
divisor, so this is "nearest integer, halves up", which is what `Math.round` does.

Two branches of the keyword rule can never be taken:

- **Keywords.** The code scores the keyword list 0 and marks it `error`
  when the list is empty (Analyzer.tsx:77 and :84). But `''.split(',')` is
  `['']`, so the list always has at least one entry. The score is
  therefore always 70 and the status always `warning`, even with no
  keywords tag (`Analyzer.KeywordsScore`, `Analyzer.KeywordsResult`).
- **A page without keywords.** A page whose other five tags are all good
  and which has no keywords tag gets keywords `warning` and overall 95.
  Had the empty-list branch been reachable, it would have got `error` and
  83 (`Analyzer.MissingKeywordsExample`).

## Model

| member | source | states |
|---|---|---|
| `Analyzer.TitleScore` | src/components/Analyzer.tsx:44-45 | the title scores 100 iff its length is in [50,60], 50 iff it is non-empty and outside that range, 0 iff it is empty |
| `Analyzer.TitleResult` | src/components/Analyzer.tsx:49-56 | status `good` iff length in [50,60], `warning` iff non-empty outside it, `error` iff empty; message is `Title length: N characters` with N the length |
| `Analyzer.DescriptionScore` | src/components/Analyzer.tsx:60-61 | same three-way rule as the title with the good range [120,155] |
| `Analyzer.DescriptionResult` | src/components/Analyzer.tsx:65-72 | status good/warning/error by the [120,155] range and emptiness; message `Description length: N characters` |
| `Analyzer.KeywordsList` | src/components/Analyzer.tsx:76 | the split-and-trim list has one entry more than the content has commas, so it is never empty |
| `Analyzer.KeywordsScore` | src/components/Analyzer.tsx:77 | the keyword score is 70 for every input: the `: 0` branch is unreachable |
| `Analyzer.KeywordsResult` | src/components/Analyzer.tsx:81-88 | the status is always `warning`, never `error`; the message counts commas + 1 keywords |
| `Analyzer.ViewportScore` | src/components/Analyzer.tsx:92 | the viewport scores either 100 or 0, never an intermediate value |
| `Analyzer.ViewportRule` | src/components/Analyzer.tsx:92-98 | the score is 100, and the status `good`, iff `width=device-width` occurs at some index of the content |
| `Analyzer.ViewportResult` | src/components/Analyzer.tsx:96-103 | `good` iff the score is 100, never `warning`; the message says "present" iff the content is non-empty, so a viewport without the substring is an error reported as present |
| `Analyzer.RobotsScore` | src/components/Analyzer.tsx:107 | 100 iff the robots content is non-empty, otherwise 50 |
| `Analyzer.RobotsResult` | src/components/Analyzer.tsx:111-118 | `good` iff non-empty, `warning` iff empty, never `error` |
| `Analyzer.OgScore` | src/components/Analyzer.tsx:127-128 | 100 iff all three Open Graph values are non-empty, 50 iff some but not all are, 0 iff none is |
| `Analyzer.OgResult` | src/components/Analyzer.tsx:132-139 | status good iff all three present, error iff none; the message is "All Open Graph tags present" when the status is good and "Missing some Open Graph tags" otherwise; content lists the three values |
| `Analyzer.GradedStatus` | src/components/Analyzer.tsx:52 | score 100 gives `good`, 50 gives `warning`, anything else `error` |
| `Analyzer.Results` | src/components/Analyzer.tsx:38-139 | exactly six results in the order Title, Description, Keywords, Viewport, Robots, Open Graph |
| `Analyzer.RoundedMean` | src/components/Analyzer.tsx:142 | the result is the integer nearest to total/count, halves rounded up (`Math.round`) |
| `Analyzer.ScorePage` | src/components/Analyzer.tsx:38-142 | the pushed results equal `Results` and the accumulated total and count give the rounded mean of the six scores |
| `Analyzer.SumOfSix` | src/components/Analyzer.tsx:46-130 | the accumulated total is the sum of the six scores |
| `Analyzer.OverallScoreBounds` | src/components/Analyzer.tsx:38-142 | the count is always 6 and the overall score always lies in [20,95] |
| `Analyzer.MissingKeywordsExample` | src/components/Analyzer.tsx:75-142 | a page good in every tag but keywords, with no keywords tag, gets keywords `warning` and overall 95 |
| `Analyzer.OverallScore` | src/components/Analyzer.tsx:141-142 | the rounded mean of the six scores; its properties are stated by `ScorePage` (the accumulator code computes it), `OverallScoreBounds`, `MissingKeywordsExample` and `MixedPageScore` |
| `Analyzer.MixedPageScore` | src/components/Analyzer.tsx:44-142 | a page with a good title, a description of the wrong length, no robots tag and every other tag good scores 100, 50, 70, 100, 50, 100 and gets overall 78 |
| `Analyzer.ScoreBand` | src/components/Analyzer.tsx:207-220 | green with the award icon iff the score is at least 80, yellow iff in [60,80), red otherwise, including no score and 0 |
| `Analyzer.View.constructor` | src/components/Analyzer.tsx:16-18 | the view opens with no results, no overall score and no error |
| `Analyzer.View.Submit` | src/components/Analyzer.tsx:20-147 | a submission replaces the report: on success results and overall score are the page's, error empty; on failure no results, no score, the one generic message |
| `JsString.TrimStartSpec` | src/components/Generator.tsx:43 | `trimStart` drops an all-whitespace prefix and keeps a suffix that does not start with whitespace |
| `JsString.TrimEndSpec` | src/components/Generator.tsx:43 | `trimEnd` drops an all-whitespace suffix and keeps a prefix that does not end with whitespace |
| `JsString.TrimEmptyIff` | src/components/Generator.tsx:43 | `trim()` yields "" iff every character is whitespace |
| `JsString.Split` | src/components/Analyzer.tsx:76 | `split(',')` yields commas + 1 pieces, none containing a comma |
| `JsString.JoinSplit` | src/components/Analyzer.tsx:76 | joining the pieces of a split gives the string back |
| `JsString.IncludesIff` | src/components/Analyzer.tsx:92 | `includes` is true iff the pattern occurs at some index |
| `JsString.NatToString` | src/components/Analyzer.tsx:53 | a length renders as non-empty decimal digits with no leading zero: 0 is "0" and any longer text starts with 1-9; with `DecimalRoundTrip` the text of every length is unique |
| `JsString.DecimalRoundTrip` | src/components/Analyzer.tsx:53 | reading the rendered length back gives the length |
| `Generator.MetaTagInput.With` | src/components/Generator.tsx:53 | setting field f makes it the new value and leaves every other field unchanged |
| `Generator.ValidationErrors` | src/components/Generator.tsx:33-46 | the error map of a record; what it holds is stated by `ValidationRules`, `ValidIff` and `ValidationBuilt` |
| `Generator.ValidationRules` | src/components/Generator.tsx:35-46 | title error iff non-empty and length outside [50,60]; description error iff non-empty and outside [120,160]; keywords error iff blank; no other field is ever flagged |
| `Generator.ValidIff` | src/components/Generator.tsx:35-48 | validation passes iff title and description are empty or within bounds and keywords are not blank |
| `Generator.ValidationBuilt` | src/components/Generator.tsx:33-46 | the map built field by field is exactly the error map |
| `Generator.Form.constructor` | src/components/Generator.tsx:17-30 | the form opens with the default contents, no errors and the indicator off |
| `Generator.Form.Validate` | src/components/Generator.tsx:32-49 | the displayed errors are replaced by the error map of the current contents, whatever they were, so validating twice changes nothing; the result is true iff the map is empty |
| `Generator.Form.Edit` | src/components/Generator.tsx:51-56 | only field f changes and only f's error is cleared; all other fields and errors are unchanged |
| `Generator.Form.MetaTags` | src/components/Generator.tsx:58-80 | the block shown beside the form is `Render` of the current contents |
| `Generator.Render` | src/components/Generator.tsx:58-80 | the generated block; its meaning is stated by `RenderEmptyIff`, `SectionOrder`, `RenderedLines`, `Verbatim`, `SocialVerbatim`, `Fallbacks`, `ImageLinesIff` and `LineInOutput` |
| `Generator.RenderEmptyIff` | src/components/Generator.tsx:59 | the output is "" iff title, description or keywords is the empty string (untrimmed) |
| `Generator.InitialRendersNothing` | src/components/Generator.tsx:17-27 | the initial form renders "" and fails validation on keywords |
| `JsString.JoinAppend` | src/components/Generator.tsx:61-79 | joining two non-empty runs of lines gives the two joins with one separator between them |
| `Generator.SectionOrder` | src/components/Generator.tsx:61-79 | for every renderable record, line breaks in the fields included, the output starts with the Primary header and holds the Open Graph / Facebook header and then the Twitter header later on, each header a whole line of its own |
| `Generator.RenderedLines` | src/components/Generator.tsx:61-79 | with no line break in any field, the output splits into the 19 template lines, sections headed Primary, Open Graph / Facebook and Twitter in that order |
| `Generator.Fallbacks` | src/components/Generator.tsx:70-78 | the output holds og:title and twitter:title tags carrying ogTitle if non-empty else title, the two description tags likewise, and an og:type tag of `website` |
| `Generator.FallbackLinesUnique` | src/components/Generator.tsx:70-78 | each of og:title, twitter:title, og:description and twitter:description is opened by one template line only |
| `Generator.LineHasNoBreak` | src/components/Generator.tsx:61-79 | when no field contains a line break, no template line does |
| `Generator.LineOpens` | src/components/Generator.tsx:61-79 | a template line opens a tag for a quote-free property iff it is that property's line, and an image line only when ogImage is non-empty |
| `Generator.LineInOutput` | src/components/Generator.tsx:61-79 | every line of the template occurs in the output |
| `Generator.Verbatim` | src/components/Generator.tsx:61-76 | title, description, keywords, author, robots and twitterCard appear in the output inside their tags exactly as typed, with no escaping; the title both in `<title>` and in `<meta name="title">` |
| `Generator.SocialVerbatim` | src/components/Generator.tsx:71-79 | a non-empty ogTitle, ogDescription or ogImage appears as typed in both its Open Graph and its Twitter tag |
| `Generator.ImageLinesIff` | src/components/Generator.tsx:73-79 | an og:image and a twitter:image tag appear iff ogImage is non-empty; otherwise both lines are left empty |
| `Generator.OpensPropertyIff` | src/components/Generator.tsx:70-79 | a property tag opens for property q only if its own property is q |
| `Generator.CopiedText` | src/components/Generator.tsx:82-90 | what the copy action hands to the clipboard; stated in closed form by `CopyGate` and used by `Form.Copy` |
| `Generator.CopyGate` | src/components/Generator.tsx:82-90 | text is copied iff the title is within [50,60], the description within [120,160] and keywords not blank, and then it is the rendered block |
| `Generator.ValidButNothingRendered` | src/components/Generator.tsx:35-59 | with an empty title or description validation can pass while the output is "" and nothing is copied |
| `Generator.BlankKeywordsRenderedNotCopied` | src/components/Generator.tsx:43-59 | whitespace-only keywords render a non-empty block that fails validation and is not copied |
| `Generator.Form.Copy` | src/components/Generator.tsx:82-90 | errors are replaced by validation; the clipboard gets the block exactly when the gate passes, and only then is the indicator turned on |
| `Generator.Form.CopiedTimeout` | src/components/Generator.tsx:88 | the timer turns the indicator off |
| `Bounds.TitleBoundsAgree` | src/components/Generator.tsx:35 | for a non-empty title, the Generator accepts it iff the Analyzer rates it good |
| `Bounds.DescriptionBoundsDiffer` | src/components/Generator.tsx:39 | a description of 156 to 160 characters passes validation but is only a warning in the Analyzer |
| `Bounds.DescriptionBoundsAgreeElsewhere` | src/components/Generator.tsx:39 | at every other non-empty length the two agree |

## Left out

- The fetch through the public CORS proxy and the check of its JSON `contents` (Analyzer.tsx:28-33) are network I/O. `View.Submit` takes their outcome as `Option<Page>`, with `None` for any failure.
- `DOMParser` and the `querySelector` extraction are a browser library. `Page` holds the extracted strings, "" for anything absent.
- The `loading` flag is left out, and so are overlapping submissions racing each other. Both are about asynchronous timing, not logic.
- Generator.Form.Copy: the page renders the copy button only while the block is non-empty (Generator.tsx:194), but the model lets `Copy` run in any state, including the empty-block states of `ValidButNothingRendered`, where it copies nothing.
- Generator.Form.Edit: accepts any of the nine fields. The page has inputs only for title, description, keywords, author and ogImage (Generator.tsx:113-185), so in every reachable state ogTitle and ogDescription are "" and robots and twitterCard keep their defaults. The model does not restrict edits to those five, so the og:title and og:description fallbacks are stated for every record, including ones the page cannot produce.
- The clipboard write and the two-second `setTimeout` are I/O and timers. `Form.Copy` returns the text handed to the clipboard. `Form.CopiedTimeout` is the timer firing, with no model of when it fires. A rejected clipboard write, which would skip turning the indicator on, is not modelled.
- Clearing an error in `handleInputChange` sets the key to `undefined` but keeps it in the object. The model removes the key instead. Every use of the map reads `errors.f` as falsy, so the two behave the same.
- The score card only appears once results exist. This JSX condition is not modelled, and neither is any other rendering, styling, routing or static page (App, Blog, About, Documentation).
- JavaScript strings are UTF-16. Here one `char` is one code unit. No surrogate-pair or normalisation behaviour is modelled.

# Crypto news sentiment analyser — a Dafny model of its analysis core

The analyser fetches crypto news headlines from one of three sources. It tries
CryptoPanic, then NewsAPI, then the CoinDesk RSS feed. It scores each headline
with a lexicon-based sentiment scorer and labels it by the sign of the score.
It counts the labels and picks an overall label by majority, with ties going
to neutral. Finally it builds a JSON report and a Markdown report.

This project models that in-memory core of `src/analyze.js` in Dafny 4:

- `wrappers.dfy` (`Wrappers`): `Option` for JavaScript's `undefined`, `Result` for a call that may throw.
- `headlines.dfy` (`Headlines`): headlines, the three labels, scored headlines, and JavaScript truthiness of optional strings (`||`, `${…}`).
- `scoring.dfy` (`Scoring`): `analyzeHeadlines`. The sentiment library is a parameter `score: string -> int`.
- `aggregation.dfy` (`Aggregation`): `summarize`. It is a counting loop proved against a multiset-count specification.
- `rendering.dfy` (`Rendering`): the report object built in `main`, and `makeMarkdownReport`. The latter is a loop that pushes lines, proved against a line-list specification.
- `text.dfy` (`Text`): `join('\n')` with its inverse split, and decimal rendering of counts with its inverse.
- `sources.dfy` (`Sources`): the three adapters' pure post-processing and the `fetchHeadlines` fallback.
- `pipeline.dfy` (`Pipeline`): one run of `main` without side effects, plus its exit status.

The network is modelled as values. Each adapter receives the outcome its HTTP
request would have: a decoded payload or the error thrown. For the feed, that
is the parsed XML document. An adapter whose key is missing throws before any
request. `FetchHeadlines` also returns which endpoints were contacted, in order.

The glyphs and dashes in the Markdown are the exact mojibake code points from
the source file. The source wrote the UTF-8 bytes of "—", 👍, 👎 and 😐, which
were then read as Windows-1252. Bytes with no Windows-1252 character were lost.
As a result, the thumbs-up glyph is a prefix of the thumbs-down glyph.
`GlyphIdentifiesLabel` shows that every bullet still identifies its label.

One edge case of the code deserves a note. When the parsed feed has a `channel` list that is empty,
`parsed.rss.channel[0].item` throws a `TypeError`. It does not yield an empty
list. The model follows the code: `FeedItems` returns `Err(NoChannel)`. The
feed does yield an empty list when `rss`, `channel` or `item` is missing.

## Model

| member | source | states |
|---|---|---|
| `Scoring.Classify` | src/analyze.js:55-57 | the label is positive iff the score is > 0, negative iff < 0, neutral iff == 0 |
| `Scoring.ScoredText` | src/analyze.js:54 | the text scored is the title with JavaScript `or` and an empty default: the title when it is a non-empty string, otherwise the empty string |
| `Scoring.AnalyzeOne` | src/analyze.js:53-64 | a scored headline keeps the input title; its source is the input source, or `unknown` when that is falsy, so it is never empty; its score is the scorer's result on the title; its label is the sign label of that score |
| `Scoring.Analyze` | src/analyze.js:52-66 | same length as the input; item i keeps title i; item i's source is source i or `unknown`; item i's score and sign label come from headline i |
| `Scoring.AnalyzeAppend` | src/analyze.js:53 | analysis maps element by element: analysing a concatenation is concatenating the analyses |
| `Aggregation.Overall` | src/analyze.js:71 | overall is positive iff positive > negative, negative iff negative > positive, neutral iff they tie (all-zero case included) |
| `Aggregation.Summarize` | src/analyze.js:68-73 | each count equals the number of items with that label (multiset count of the labels); overall follows the majority rule |
| `Aggregation.CountAppend` | src/analyze.js:70 | counts over a concatenation are the sums of the counts over the parts |
| `Aggregation.StatsTotal` | src/analyze.js:69-70 | the three counts add up to the number of items |
| `Aggregation.EmptySummary` | src/analyze.js:69-71 | empty input gives counts 0, 0, 0 and overall neutral |
| `Rendering.BuildReport` | src/analyze.js:104-111 | the report copies date, timestamp, overall label and stats; its total is the number of analysed items; its top list is the first min(20, n) items in order |
| `Rendering.ReportListsAllWhenSmall` | src/analyze.js:108-109 | with at most 20 items the top list is all of them and equals the total in length; beyond 20 it is the first 20 and shorter than the total |
| `Rendering.Header` | src/analyze.js:77-84 | the fixed block before the bullets has exactly eight lines |
| `Rendering.Bullets` | src/analyze.js:85-88 | one bullet per item, in order |
| `Rendering.MakeMarkdownReport` | src/analyze.js:75-90 | the document is the header lines plus the bullets of the first min(30, n) items, joined with newlines |
| `Rendering.MarkdownShape` | src/analyze.js:76-88 | there are 8 + min(30, n) lines; line 0 is the title with the date; line 2 holds the upper-cased overall label; line 4 holds the three counts; line 6 is the list heading; line 8 + i is item i's bullet |
| `Rendering.GlyphIdentifiesLabel` | src/analyze.js:86-87 | the glyph at the start of a bullet determines the item's label |
| `Rendering.BulletIsOneLine` | src/analyze.js:87 | a bullet holds no newline when the title and source hold none |
| `Rendering.LinesAreOneLine` | src/analyze.js:76-88 | no line of the document contains a newline when the date and the titles and sources of the listed (first 30) headlines contain none |
| `Rendering.MarkdownLineCount` | src/analyze.js:89 | if the date and the titles and sources of the listed (first 30) headlines contain no newline, splitting the document at newlines returns its lines: 8 + min(30, n) of them |
| `Headlines.Label.UpperName` | src/analyze.js:79 | the upper-cased label is the label with each letter upper-cased |
| `Headlines.Or` | src/analyze.js:31 | JavaScript `or` of two optional strings returns one of its operands; it is truthy exactly when either operand is; it is the left operand whenever that is truthy |
| `Headlines.OrDefault` | src/analyze.js:60 | JavaScript `or` with a string default returns the default or the given string; a non-empty default (`unknown`, `no title`) makes the result non-empty; a truthy operand wins |
| `Text.SplitJoin` | src/analyze.js:89 | for lines without newlines, splitting the joined document gives the lines back |
| `Text.NatToString` | src/analyze.js:81 | a count prints as a non-empty run of decimal digits with no leading zero and no newline |
| `Text.DecimalRoundTrip` | src/analyze.js:81 | the printed count reads back as the count |
| `Sources.FromCryptoPanic` | src/analyze.js:16-23 | a missing key gives the key error; a failed request passes its error on; a missing result list gives the invalid-response error; it succeeds exactly when the key is set, the request succeeds and the list is present, and then gives one headline per post, in order, as (title, domain) |
| `Sources.ArticleHeadline` | src/analyze.js:31 | the title falls back from title to description to `no title`, so it is always truthy; the source is the source object's name, or absent |
| `Sources.FromNewsApi` | src/analyze.js:25-32 | a missing key gives the key error; a failed request passes its error on; missing articles give the invalid-response error; it succeeds exactly when the key is set, the request succeeds and the list is present, and then gives one headline per article, in order |
| `Sources.FeedItems` | src/analyze.js:38 | a missing `rss` or `channel` gives no items; an empty channel list is the only error; otherwise the first channel's item list, or no items when that channel has no `item` |
| `Sources.FromCoinDesk` | src/analyze.js:34-40 | a parse or request failure passes its error on; otherwise at most 50 headlines, namely the first min(50, n) items in order, each with source `CoinDesk` and the item's first title |
| `Sources.FirstSuccess` | src/analyze.js:42-50 | the result is the first successful attempt, all earlier attempts having failed, or else the last attempt's error when every attempt failed |
| `Sources.FetchHeadlines` | src/analyze.js:42-50 | CryptoPanic's result if it succeeds, else NewsAPI's, else the feed's result or error; an endpoint is contacted only when its key is set and every earlier source failed, in the fixed order |
| `Sources.OnlyFeedErrorEscapes` | src/analyze.js:43-49 | when fetching fails, the error is the feed's and both earlier sources failed |
| `Sources.NoKeysUsesFeed` | src/analyze.js:18-49 | with neither key set, the outcome is exactly the feed's |
| `Pipeline.Run` | src/analyze.js:92-117 | the run fails iff every source fails, with the feed's message; otherwise the report and the Markdown come from the same analysed headlines and the report's counts add up to its total |
| `Pipeline.ExitCode` | src/analyze.js:97-99 | the exit status is 0 exactly when the run completed |
| `Pipeline.StatsCountScores` | src/analyze.js:53-70 | the positive, negative and neutral counts equal the number of fetched headlines whose score is above, below and at zero |

## Left out

- HTTP requests through `axios` are not modelled: URLs, query parameters and the 15-second timeouts. Only each request's outcome enters the model.
- XML parsing by `xml2js` is not modelled. The feed adapter starts from the parsed document.
- The `sentiment` lexicon library is not modelled. It is the parameter `score`, an arbitrary total function from text to integer.
- The float `comparative` field of a scored headline is left out, because it is floating point.
- The webhook POST and its warning on failure are left out, because they are network I/O that never changes the outcome.
- Writing the two report files and creating the reports directory are left out as filesystem I/O. The model assumes these succeed. In the source a failed write ends the run with status 1 through `main().catch`, and a failed directory creation stops the process before `main` runs; `Pipeline.ExitCode` does not cover either case.
- `JSON.stringify` formatting, console logging and the final summary printed to stdout are left out as output formatting and I/O.
- `dotenv` and `process.env` are not modelled: the keys are an `Env` value. The current date and timestamp are parameters.
- `process.exit` is not modelled beyond the exit status that `ExitCode` gives.
- JavaScript dynamic typing is not modelled: a `results` value that is not an array, or a title that is not a string, would throw or be coerced. The model takes those fields as lists and strings.
- `Headlines.Interpolate` prints an absent title as `undefined`. JavaScript would print `null` for a null title; null is not distinguished from undefined here.
- `Headlines.Label.UpperName` is `toUpperCase` only on the three label names, the only strings it is applied to.
- web/pages/index.js is not part of this model. It is a display page for a sample report.

# AI Photo Analyzer — core logic in Dafny

The analyzer is a desktop window (`SimplePhotoAnalyzer`) that loads an image,
sends it to one of two remote image-description services (ChatGPT or
ImageDescriber.online) and shows the description, falling back to an offline
"technical analysis" when the remote result looks like an error. Nearly all of
the program is widget construction and HTTP plumbing. This project models the
pure logic embedded in it, as immutable datatypes and total functions:

- `Keys` (keys.dfy): the API-key state: the selected provider, the one shared
  active-key slot, the two default keys read from the environment, and the
  entry-field text. It covers the "apply key" handler, the provider-switch
  handler, the status-bar classification, and an invariant kept by every
  sequence of user events.
- `Fallback` (fallback.dfy): the offline analysis. Orientation comes from the
  width/height ratio and the quality tier from the file size. It also builds
  the fixed-template report and its division-by-zero failure text.
- `Describer` (describer.dfy): ImageDescriber response handling. A JSON value
  type, the ordered lookup of the description in the response body, and the
  text normaliser (strip, one layer of quotes, bullet rewriting line by line).
- `Dispatch` (dispatch.dfy): the result strings of both integrations (including
  every error string), the substring test that triggers the fallback, and
  which path produced the text shown after "analyze".
- `Text` (text.dfy): Python string semantics the above rely on: `strip`,
  `lstrip`, `startswith`, `endswith`, `in`, `lower`, `find`, slicing,
  splitting/joining lines, `str(int)`.

Inputs that come from outside the program are parameters: the remote reply
(an exception message, or a status code, response text and decoded body), the
JSON serialiser `json.dumps`, the two float renderings of the report
(`{file_size/1024:.1f}` and `{aspect_ratio:.2f}`), and what the image library
reports about an opened file (size, mode, format name, file size, whether the
colour table could be read).

The orientation test in the source compares the float `width / height` with
1.5 and 0.7. The model compares integers by cross-multiplication
(`2w > 3h`, `10w < 7h`). `Fallback.OrientationOf` proves that this agrees
with exact real division. For any height below 10^14, the float comparison
gives the same answer, because a ratio that is not exactly 1.5 or 0.7 then
differs from it by more than the rounding of the quotient and of the
constant 0.7 together. This argument is not part of the proofs.

The code has one shared `api_key` slot (photo_analyzer1.py:32), so a key
carries across a provider switch whenever the entry field holds text.
`Keys.SharedSlotCarriesDefault` shows the consequence: the ChatGPT default key
can be carried over to ImageDescriber, where the status bar calls it a
connected custom key.

## Model

| member | source | states |
|---|---|---|
| `Keys.Init` | photo_analyzer1.py:28-36 | at start-up ChatGPT is selected, its default key is active and the entry field is empty |
| `Keys.UpdateApiKey` | photo_analyzer1.py:442-469 | on the stripped entry: empty installs the selected provider's default, 1..19 characters is rejected with the state unchanged, 20 or more becomes the key verbatim; both provider branches behave alike; nothing but the key changes |
| `Keys.OnProviderChange` | photo_analyzer1.py:416-430 | the new provider is selected; an empty raw entry installs its default, otherwise the key is kept; nothing else changes |
| `Keys.Status` | photo_analyzer1.py:579-600 | NoKey exactly when the key has at most 20 characters; otherwise DefaultKey exactly when it equals the selected provider's default, else Connected |
| `Keys.StepPreservesInv` | photo_analyzer1.py:416-469 | each user event keeps the key one of the defaults or a stripped key of at least 20 characters, and leaves the defaults alone |
| `Keys.RunPreservesInv` | photo_analyzer1.py:416-469 | any sequence of events keeps that invariant and the defaults |
| `Keys.ReachableInv` | photo_analyzer1.py:28-36 | every state reachable from start-up satisfies the invariant |
| `Keys.TwentyCharKeyAcceptedButNoKey` | photo_analyzer1.py:584 | a 20-character key is accepted by the apply handler, yet the status bar reports no key |
| `Keys.ApplyEmptyEntryStatus` | photo_analyzer1.py:450-453 | applying an empty entry gives DefaultKey when the provider's default is longer than 20 characters, else NoKey |
| `Keys.CustomKeyCarriesOver` | photo_analyzer1.py:418-430 | an applied custom key survives a provider switch while the entry holds text |
| `Keys.BlankEntryTreatedDifferently` | photo_analyzer1.py:421 | any non-empty whitespace-only entry keeps the old key on a provider switch, while applying it installs the new provider's default |
| `Keys.SharedSlotCarriesDefault` | photo_analyzer1.py:32 | for any ChatGPT default longer than 20 characters that differs from the ImageDescriber default, and any non-empty typed text that is not applied, switching to ImageDescriber keeps the ChatGPT default, which the status bar then reports as Connected |
| `Fallback.OrientationOf` | photo_analyzer1.py:1002-1008 | landscape iff width/height > 1.5, portrait iff < 0.7, square iff between, in exact real division; requires a non-zero height |
| `Fallback.RatioCompare` | photo_analyzer1.py:1003-1005 | the integer cross-multiplications agree with the real-valued ratio tests |
| `Fallback.QualityOf` | photo_analyzer1.py:1011-1016 | high iff size > 5 MiB, good iff 1 MiB < size <= 5 MiB, standard iff size <= 1 MiB |
| `Fallback.QualityMonotone` | photo_analyzer1.py:1011-1016 | a larger file never gets a lower tier |
| `Fallback.QualityBoundaries` | photo_analyzer1.py:1011-1014 | 5,242,880 and 1,048,576 bytes fall in the lower tier, one byte more in the higher |
| `Fallback.ClassifierExamples` | photo_analyzer1.py:1002-1016 | 1920x1080 is landscape, 800x1200 portrait, 1000x1000, 700x1000 and 3x2 square; 2,000,000 bytes is good, 6,000,000 high, 500,000 standard |
| `Fallback.OrientationScaleInvariant` | photo_analyzer1.py:1002-1008 | scaling both sides by the same factor keeps the orientation |
| `Fallback.LandscapeTransposed` | photo_analyzer1.py:1002-1008 | a landscape image turned on its side is portrait |
| `Fallback.PortraitTransposedMayBeSquare` | photo_analyzer1.py:1002-1008 | the converse fails: 69x100 is portrait but 100x69 is square |
| `Fallback.Analyze` | photo_analyzer1.py:985-1016 | zero height fails with "Analysis error: division by zero"; any positive height gives a report, and the report carries the image's dimensions, mode and file size, its orientation and tier, the detected format name or "Unknown" exactly when none was detected, and the rich-palette or complex-composition colour note as the colour table was or was not read |
| `Fallback.ReportPieces` | photo_analyzer1.py:1018-1032 | the eleven pieces of the fallback report, in the order the code writes them: heading, dimensions, format and mode, file size, colour note, blank line, visual-assessment heading, tier, orientation, aspect ratio, closing advice |
| `Fallback.Render` | photo_analyzer1.py:1018-1032 | the rendered report opens with the technical-analysis heading and contains the dimensions line, the format-and-mode line, the file-size line, the colour-note line, the tier line, the orientation line and the aspect-ratio line |
| `Fallback.ResultText` | photo_analyzer1.py:985-1037 | the fallback text is the failure message for zero height, and otherwise states the image's dimensions, its size tier and its orientation |
| `Describer.Extract` | photo_analyzer1.py:862-873 | a top-level "description" wins with no type check; without it only a string from inside an object "data" can be found; "result" is used exactly when neither key is present and it holds a string |
| `Describer.DescriptionWins` | photo_analyzer1.py:864-865 | adding or changing any other key does not change the extraction when "description" is present |
| `Describer.ResultOnlyWithoutDescriptionOrData` | photo_analyzer1.py:872-873 | with "description" or "data" present, the value of "result" is irrelevant |
| `Describer.DataShadowsResult` | photo_analyzer1.py:866-871 | a "data" that is not an object yields nothing, even when "result" holds a string |
| `Describer.DataContentFirst` | photo_analyzer1.py:868-871 | inside "data", a string "content" beats a string "description"; a non-string "content" is skipped |
| `Describer.ResponseText` | photo_analyzer1.py:875-879 | a non-blank extracted string is normalised; anything else gives the serialised body |
| `Describer.BlankDescriptionDumps` | photo_analyzer1.py:864-879 | a blank or non-string "description" gives the serialised body even if "data" or "result" has text |
| `Describer.NormaliseLine` | photo_analyzer1.py:899-908 | a line whose left-stripped form starts with "* " or "*\t" becomes "• " plus the rest after the marker; every other line is kept verbatim |
| `Describer.SliceFrom` | photo_analyzer1.py:906 | Python's `s[k:]`: the suffix from `k`, empty past the end |
| `Describer.ThreeSpacesImpliesStarSpace` | photo_analyzer1.py:905 | the third branch's guard implies the first branch's, so that branch is unreachable |
| `Describer.NormaliseLineNotStar` | photo_analyzer1.py:899-908 | a rewritten line is never a "*" bullet |
| `Describer.NormaliseLineIdempotent` | photo_analyzer1.py:899-908 | rewriting a rewritten line changes nothing |
| `Describer.NormaliseLineFirst` | photo_analyzer1.py:899-908 | a line starting with a non-space keeps that first character when rewritten, or gets the bullet there |
| `Describer.NormaliseLineLast` | photo_analyzer1.py:899-908 | a line ending with a non-space keeps that last character when rewritten |
| `Describer.NormaliseLineNoNewline` | photo_analyzer1.py:899-908 | rewriting keeps a line free of line breaks |
| `Describer.NormaliseLines` | photo_analyzer1.py:898-908 | each line is rewritten in place, and the number of lines stays the same |
| `Describer.LinePass` | photo_analyzer1.py:897-909 | the lines of the output are the rewritten input lines in order, and there are as many |
| `Describer.LinePassNoStarBullets` | photo_analyzer1.py:897-909 | no line of the line pass's output is a "*" bullet |
| `Describer.LinePassIdempotent` | photo_analyzer1.py:897-909 | the line pass applied twice equals the line pass applied once |
| `Describer.LinePassSingleLine` | photo_analyzer1.py:897-909 | a single line with no bullet passes through unchanged |
| `Describer.StarBulletsRewritten` | photo_analyzer1.py:901-902 | lines "* x" joined by line breaks become lines "• x" |
| `Describer.Inner` | photo_analyzer1.py:895 | Python's `c[1:-1]`, empty for a single character |
| `Describer.Unquote` | photo_analyzer1.py:894-895 | one layer of matching quotes is removed and the rest stripped; unquoted text is unchanged; the result is stripped |
| `Describer.Normalise` | photo_analyzer1.py:886-912 | stripped text in braces is returned as is; otherwise the output's lines are the rewritten lines of the once-unquoted text, and none of them is a "*" bullet |
| `Describer.NormaliseBraced` | photo_analyzer1.py:890-892 | stripped brace-delimited text is returned unchanged |
| `Describer.NormaliseQuoted` | photo_analyzer1.py:894-895 | stripped quoted text loses one layer of quotes and is stripped again before the line pass |
| `Describer.NormalisePlain` | photo_analyzer1.py:897-909 | stripped plain text goes straight to the line pass |
| `Describer.BraceCheckBeforeQuotes` | photo_analyzer1.py:890-895 | "{x}" is returned as is, but "\"{x}\"" is unquoted and line-passed, because the brace test comes first |
| `Describer.QuotesRemoved` | photo_analyzer1.py:894-895 | a pair of double or single quotes around any text is removed and the inside stripped before the line pass |
| `Describer.OneQuoteLayer` | photo_analyzer1.py:894-895 | only one quote layer goes per call: "\"'x'\"" gives "'x'", which a second call reduces further |
| `Describer.SingleQuotedLine` | photo_analyzer1.py:894-909 | single-quoted one-line text survives stripping and the line pass unchanged |
| `Describer.LoneQuoteIsEmpty` | photo_analyzer1.py:894-895 | a lone quote character counts as both quotes and normalises to the empty string |
| `Describer.LinePassEnds` | photo_analyzer1.py:897-909 | the line pass of stripped non-empty text keeps its last character, and keeps its first or starts with the bullet |
| `Describer.LinePassKeepsPlain` | photo_analyzer1.py:897-909 | the line pass keeps stripped, unquoted, non-object text stripped, unquoted and non-object |
| `Describer.NormaliseIdempotentOnPlainText` | photo_analyzer1.py:886-912 | on any stripped, unquoted, non-object text, normalising is the line pass and normalising twice equals normalising once |
| `Describer.NormaliseIdempotent` | photo_analyzer1.py:886-912 | normalising twice equals normalising once for every text whose stripped form is not quoted, objects included |
| `Dispatch.ChatgptResult` | photo_analyzer1.py:742-809 | no key gives the key-not-found error, an exception gives "Error: " and its message, a non-200 status gives "API Error <status>: " and the response text; a 200 gives the message content |
| `Dispatch.DescriberResult` | photo_analyzer1.py:811-884 | no key gives the key-not-found error, an exception gives "Error: " and its message, a non-200 status gives "ImageDescriber API Error <status>: " and the response text; a 200 gives the response text of the body |
| `Dispatch.NeedsFallback` | photo_analyzer1.py:714 | the fallback test: "insufficient_quota" or "error" in the lower-cased result, or "429" in the result as written |
| `Dispatch.FallbackTestIgnoresCase` | photo_analyzer1.py:714 | a result trips the fallback test exactly when its lower-cased form does |
| `Dispatch.ErrorTriggersFallback` | photo_analyzer1.py:714 | any result containing "Error" trips the fallback test |
| `Dispatch.ChatgptFallback` | photo_analyzer1.py:745 | every ChatGPT error string trips the fallback; a 200 result trips it exactly when its content does |
| `Dispatch.DescriberFallback` | photo_analyzer1.py:814 | every ImageDescriber error string trips the fallback; a 200 result trips it exactly when its response text does |
| `Dispatch.ProviderResult` | photo_analyzer1.py:706-712 | the result is that of the integration the selected provider names, and it trips the fallback test whenever that integration's call failed |
| `Dispatch.Analyze` | photo_analyzer1.py:705-720 | the fallback text is shown exactly when the provider result trips the test; otherwise the provider result is shown, tagged with the selected provider |
| `Dispatch.AnalyzePhoto` | photo_analyzer1.py:714-716 | with the offline analysis as the fallback, a tripped test shows its text: the division-by-zero failure for a zero height, otherwise text stating the dimensions, size tier and orientation |
| `Dispatch.FailedCallFallsBack` | photo_analyzer1.py:706-716 | a failed call of the selected provider always ends in the fallback |
| `Dispatch.NoKeyFallsBack` | photo_analyzer1.py:743-746 | with an empty key the fallback is always shown |
| `Dispatch.SuccessMentioningErrorFallsBack` | photo_analyzer1.py:714 | any successful content containing "error" in any letter case is replaced by the fallback too |
| `Text.Strip` | photo_analyzer1.py:889 | `strip()` leaves a stripped slice of its input with only whitespace before and after it, empty exactly when the input is all whitespace |
| `Text.StripStripped` | photo_analyzer1.py:895 | stripping already-stripped text changes nothing |
| `Text.LStrip` | photo_analyzer1.py:900 | `lstrip()` removes exactly the leading whitespace |
| `Text.Lower` | photo_analyzer1.py:714 | `lower()` maps each character to its lower-case form, keeping the length |
| `Text.ContainsLower` | photo_analyzer1.py:714 | whatever occurs in a string occurs lower-cased in its lower-cased form |
| `Text.Find` | photo_analyzer1.py:906 | `find` gives the first index of the character, or -1 exactly when it is absent |
| `Text.Take` | photo_analyzer1.py:905 | `s[:n]` is the prefix of length n, or all of s when s is shorter than n |
| `Text.Split` | photo_analyzer1.py:897 | `splitlines()` cuts the text at every line break into at least one piece, none of which holds a line break |
| `Text.Join` | photo_analyzer1.py:909 | `"\n".join` puts one line break between consecutive lines; `Text.JoinSplit` and `Text.SplitJoin` state that it undoes `Text.Split` |
| `Text.JoinSplit` | photo_analyzer1.py:897-909 | joining the lines of a split gives the text back |
| `Text.SplitJoin` | photo_analyzer1.py:897-909 | splitting a join of line-break-free lines gives the lines back |
| `Text.Decimal` | photo_analyzer1.py:806 | `str(status)` is a non-empty string of decimal digits that denotes the status, with no leading zero: 0 is written "0" |

## Left out

- Window construction, styling, hover effects, modals, window centring and the status-label texts: presentation only. The label outcome of the apply handler is kept as `Keys.UpdateOutcome`.
- HTTP requests, base64 encoding, `.env` loading, file reading and `os.path.getsize`: I/O. Their results are parameters (`Dispatch.Reply`, `Fallback.ImageInfo`).
- Image decoding, `getcolors`, display scaling and the sample gradient: library calls and float arithmetic. Whether a colour table came back is a boolean input.
- `json.dumps` and the two float renderings in the report: passed in as uninterpreted functions.
- Dispatch.ChatgptResult: the path `choices[0].message.content` of a 200 body is not modelled. Its content is the reply's payload, and a body without that path counts as a raised exception.
- Describer.Extract: only a response body that is a JSON object is modelled. For a top-level list or string, Python's `in` would test membership or substring, and a number would raise.
- The exception handlers of `analyze_photo` (photo_analyzer1.py:722-737) and of the normaliser (photo_analyzer1.py:911-912) are not modelled. The modelled functions are total, so the normaliser's handler cannot be reached. A zero height is the fallback's explicit error result `Fallback.DivisionByZero`.
- The exception handler of the offline analysis (photo_analyzer1.py:1036-1037), which turns a missing file or a decode error into "Analysis error: " and the message: the file and the decoder are outside the model. Only the zero-height failure is modelled.
- The "no image loaded" warning of `analyze_photo` and the final framing of the result panel (title, separator lines, "Generated by" tag): presentation. The tag is kept as `Dispatch.Source`.
- Text.Lower: maps only the ASCII letters A–Z. Python's `lower()` maps every Unicode cased letter.
- Text.Split: cuts at '\n' only, and so does Describer.LinePass, which uses it. Python's `splitlines()` also breaks at '\r', "\r\n", '\x0b', '\x0c', '\x1c'–'\x1e', '\x85', U+2028 and U+2029, so text with those terminators is split differently. `splitlines()` also drops a final terminator ("a\n" gives one line where Split gives two) and gives no lines for "" where Split gives one empty line; neither difference shows, because the line pass only receives stripped text (photo_analyzer1.py:889 and 895), which neither ends in a line break nor, once empty, changes under the join.
- Fallback.OrientationOf: uses exact integer arithmetic instead of the float ratio. The two agree for heights below 10^14, as argued above.
- Keys.Status: ignores provider values other than the two radio buttons. The source treats any value other than "chatgpt" as ImageDescriber, and the radio buttons can only set the two.

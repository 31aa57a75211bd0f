# NiftyAI Live Trader — a Dafny model of its core

The application asks a generative model for a forward-looking scan of an Indian stock index. It turns the model's free-text reply into a `MarketAnalysis` record. It shows one card per recommended stock, each with a simulated live price and two one-shot alerts. It relays every alert into an auto-expiring toast.

This project models four parts of that program:

- **The response normaliser** (`services/geminiService.ts`), in modules `ResponseText`, `AnalysisMapping` and `GeminiService`. It covers:
  - the grounding citations;
  - the search for the `{...}` span;
  - the fence stripping and trimming of `cleanJsonString`;
  - the two parse errors;
  - the field-by-field mapping with its `raw || default` fallbacks;
  - the outer `catch` that rethrows.
- **The card's ticker and alert engine** (`components/StockCard.tsx`), in modules `Price` and `StockCard`. It covers:
  - the price extraction `parseFloat(s.replace(...).replace(...)) || 0`;
  - the first render;
  - the random step;
  - the direction;
  - the four level checks with their self-disarming;
  - the two bell buttons.
- **The shell's state** (`App.tsx`), in module `App`. It covers:
  - adding, dismissing and expiring toasts;
  - the alert relay;
  - the loading/data/error transitions of a scan.
- **The declared types** (`types.ts`), in module `Types`.

## How values are modelled

The parsed reply is untyped in the source, and none of the declared field types is enforced at run time. So the model keeps JavaScript values where the source keeps them:

- A parsed JSON value is a `Json`.
- A property read gives an `Option<Json>`, where `None` is `undefined`.
- `Truthy` is JavaScript truthiness, and `OrElse` is `a || d`.
- A stock field that the source copies verbatim is an `Option<Json>`.
- A defaulted field is whatever `raw || default` produced.
- Reading a property of `null` and calling `.map` on a truthy non-array are the two TypeErrors the mapping can raise. They are modelled as `ShapeError`.
- `Base.Traverse` models an array `map` whose callback throws: the first failing element decides the error.

A consequence shows up in the round trip. A stock record survives serialising and mapping again exactly, because all six defaults are truthy strings. A sector survives only when its name is truthy. A falsy entry such as `0` becomes its own name, so on the second pass `s.name || s` picks the serialised object instead (`AnalysisMapping.SectorRoundTrip`).

Three things the model treats as inputs:

- **`JSON.parse`** is the parameter `parse: string -> Option<Json>`, where `None` is a `SyntaxError`.
- **`Math.random()`** is the draw `u` carried by each tick.
- **`Date.now()`** is the parameter `now`.

## Model

| member | source | states |
|---|---|---|
| Base.Traverse | services/geminiService.ts:112-115 | An array map with a throwing callback succeeds exactly when every element's step does. It then yields the steps' results in order. Otherwise it fails with the first failing element's error. |
| Base.TraverseAllOk | services/geminiService.ts:120-136 | When every element's step succeeds with a known value, the map yields exactly those values. |
| Types.RecommendationFromName | types.ts:7-12 | Reading a recommendation back from its string is the exact inverse of the enumeration's string values. |
| ResponseText.FindJsonSpan | services/geminiService.ts:95-97 | There is no span exactly when no `{` is followed later by a `}`. A span starts at the first `{`, ends just after the last `}`, and has no `{` before it and no `}` after it. |
| ResponseText.FindJsonSpanIsRegexMatch | services/geminiService.ts:95 | The span found is the one match that a backtracking engine reports for `/\{[\s\S]*\}/`: leftmost start, longest end. There is no span exactly when the pattern matches nowhere. |
| ResponseText.TrimIsSlice | services/geminiService.ts:14 | `trim` keeps one contiguous slice with no whitespace at either end. An empty result means the input was all whitespace. |
| ResponseText.TrimNoop | services/geminiService.ts:14 | `trim` leaves a string alone when it neither starts nor ends with whitespace. |
| ResponseText.StripFencesNoBacktick | services/geminiService.ts:14 | Text without a backtick has no code-fence marker to remove. |
| ResponseText.StripFencesLeavesNoFence | services/geminiService.ts:14 | After the global replace, no run of three backticks remains, including runs that removal itself could have joined. |
| ResponseText.CleanJsonStringSpec | services/geminiService.ts:13-15 | `cleanJsonString` only deletes characters, in order. It leaves no fence marker. On text without backticks it is exactly `trim`. |
| ResponseText.StripFencesJsonLine | services/geminiService.ts:14 | A `json` marker is removed together with the newline after it. |
| ResponseText.StripFencesJsonTag | services/geminiService.ts:14 | A `json` marker not followed by a newline is removed on its own. |
| ResponseText.StripFencesBareFence | services/geminiService.ts:14 | Three backticks not continued by `json` are removed. |
| ResponseText.StripFencesKeepsChar | services/geminiService.ts:14 | Any character other than a backtick is kept in place, and the scan resumes after it. |
| ResponseText.StripFencesPlainPrefix | services/geminiService.ts:14 | Text without backticks passes through unchanged in front of whatever follows. |
| ResponseText.TrimDropsLeadingWhitespace | services/geminiService.ts:15 | A leading whitespace character does not change the trimmed text. |
| ResponseText.TrimDropsTrailingWhitespace | services/geminiService.ts:15 | A trailing whitespace character does not change the trimmed text. |
| ResponseText.CleanJsonFencedBlock | services/geminiService.ts:13-15 | A reply wrapped in a code block tagged `json` is cleaned to exactly its trimmed contents. |
| ResponseText.CleanBareFencedBlock | services/geminiService.ts:13-15 | A reply wrapped in an untagged code block is cleaned to exactly its trimmed contents. |
| ResponseText.CleanedSpanIsBraced | services/geminiService.ts:95-99 | The text handed to `JSON.parse` still starts with `{` and ends with `}`. |
| AnalysisMapping.MapSector | services/geminiService.ts:112-119 | A sector entry fails exactly when it is `null`, by reading `name`. The name is `s.name` when truthy, else the entry itself. The strength is the number given, else 5. |
| AnalysisMapping.SectorFallbacks | services/geminiService.ts:113-114 | A bare string sector names itself. A string strength becomes 5. |
| AnalysisMapping.MapStock | services/geminiService.ts:120-136 | A stock entry fails exactly when it is `null`, by reading `symbol`. |
| AnalysisMapping.MapStockFields | services/geminiService.ts:120-136 | Nine stock fields are copied as read, possibly `undefined`. Six fall back to "At Market", "TBD", "TBD", "INTRADAY", "MOMENTUM" and "LOW" exactly when the value read is falsy. |
| AnalysisMapping.MapStockCopiesCompleteEntry | services/geminiService.ts:124-133 | When an entry's six defaulted fields are all truthy, the record holds the entry's own values. |
| AnalysisMapping.ArrayOrEmpty | services/geminiService.ts:112 | `(raw || [])` as the receiver of `.map`: a falsy value gives no elements, and an array gives its elements. Any other truthy value raises "not a function". |
| AnalysisMapping.MapSectorsPreservesOrder | services/geminiService.ts:112-119 | A sector array maps element by element, keeping length and order. It fails exactly when some element is `null`. |
| AnalysisMapping.MapAnalysis | services/geminiService.ts:109-138 | A `null` payload fails on `marketSentiment`. Otherwise the mapping succeeds exactly when both sector lists map, the stock list is falsy or an array, and no stock entry is `null`. The first failure in field order decides the error. On success, sentiment falls back to "NEUTRAL" and the summary to "Analysis complete.". The sector lists are the mapped lists, each stock is its entry mapped in place, falsy lists become empty, and the citations are kept. |
| AnalysisMapping.EmptyObjectDefaults | services/geminiService.ts:109-138 | `{}` maps to NEUTRAL, "Analysis complete.", no sectors and no stocks. |
| AnalysisMapping.MapStockIsNormal | services/geminiService.ts:124-133 | Every mapped stock has its six defaulted fields truthy. |
| AnalysisMapping.StockRoundTrip | services/geminiService.ts:120-136 | A stock with truthy defaulted fields is restored field for field when it is serialised with undefined keys omitted and then mapped again. |
| AnalysisMapping.MapStockIdempotent | services/geminiService.ts:120-136 | Mapping the serialised result of a mapped stock gives the same record. |
| AnalysisMapping.SectorRoundTrip | services/geminiService.ts:112-115 | A sector survives serialising and mapping again exactly when its name is truthy. |
| AnalysisMapping.SectorsRoundTrip | services/geminiService.ts:112-119 | A list of sectors with truthy names survives serialising and mapping again. |
| AnalysisMapping.AnalysisRoundTrip | services/geminiService.ts:109-138 | A record whose sentiment, summary, sector names and stock defaults are truthy is restored exactly by serialising and mapping again. |
| AnalysisMapping.MapAnalysisIsNormal | services/geminiService.ts:109-138 | The mapping's output meets the round trip's precondition whenever its sector names are truthy. |
| GeminiService.LinkOf | services/geminiService.ts:90 | A citation's title and URI are the given ones when non-empty, else "Source" and "#". Neither is ever empty. |
| GeminiService.SourceUrls | services/geminiService.ts:86-90 | There is one link per chunk that carries a web entry, so there are never more links than chunks. There are as many exactly when every chunk is cited. |
| GeminiService.SourceUrlsAppend | services/geminiService.ts:87-90 | The citation list of a concatenation is the concatenation of the citation lists. |
| GeminiService.SourceUrlsSingle | services/geminiService.ts:87-90 | A single chunk contributes its link when it has a web entry, and nothing otherwise. |
| GeminiService.JsonCandidate | services/geminiService.ts:95-99 | There is text to parse exactly when the reply has a span. |
| GeminiService.Normalize | services/geminiService.ts:92-140 | The result is "no structured data" exactly when there is no span. It is "malformed" exactly when the cleaned span does not parse. Otherwise it succeeds exactly when mapping the parsed value succeeds, and then it is that mapped record with the citations from the grounding chunks. A mapping failure is passed on unchanged. |
| GeminiService.NormalizeRoundTrip | services/geminiService.ts:92-140 | A reply whose span parses to the serialised form of a normal record, with the same citations, yields that record, both from normalising and from the whole service. |
| GeminiService.Rethrow | services/geminiService.ts:142-145 | The rethrown message is the caught one when non-empty, else the generic one. It is never empty. |
| GeminiService.AnalyzeMarket | services/geminiService.ts:86-145 | The service throws exactly when normalising fails or the call threw. A success is the normalised record. A thrown message is the failure's own message, or the generic one when that is empty, and is never empty. |
| GeminiService.NoSpanMessage | services/geminiService.ts:104-106 | A reply without a span ends in "No structured data found in analysis.". |
| GeminiService.UnparsableSpanMessage | services/geminiService.ts:98-103 | A span that does not parse ends in "Failed to parse market data structure.". |
| GeminiService.ParseFailuresAreDistinguishable | services/geminiService.ts:97-106 | The two parse failures have different messages. "No structured data" arises exactly when there is no candidate text. |
| GeminiService.EmptyJsonObjectGivesDefaults | services/geminiService.ts:94-138 | A reply whose span parses to `{}` yields the all-defaults record with the citations found. |
| Price.Sanitize | components/StockCard.tsx:14 | The two `replace` passes keep, in order, exactly the digits and points of the input. The comma pass is subsumed by the second. |
| Price.SanitizeIdempotent | components/StockCard.tsx:14 | Sanitising twice is sanitising once. |
| Price.ParsePrice | components/StockCard.tsx:14-16 | An extracted price is never negative. It is 0 when the sanitised text does not start with a numeral. |
| Price.ParseDecimalNaN | components/StockCard.tsx:14 | `parseFloat` on digits and points gives NaN exactly when no digit, and no point followed by a digit, starts the text. |
| Price.ParsePriceIgnoresOtherCharacters | components/StockCard.tsx:14 | Characters other than digits and points, such as currency signs, commas and spaces, do not change the price. |
| Price.ParseNatDigits | components/StockCard.tsx:14 | A whole number written in decimal is read back as itself. |
| Price.ParseFixedTwo | components/StockCard.tsx:14 | A price written with two decimals is read back as exactly its value. |
| Price.TbdIsZero | components/StockCard.tsx:15-16 | A level still at its "TBD" default is read as 0. |
| StockCard.IsBuySideDecodes | components/StockCard.tsx:11 | The card's BUY test holds exactly when the recommendation decodes to BUY. |
| StockCard.ReadPrice | components/StockCard.tsx:14-16 | The extraction succeeds exactly on string fields and gives their non-negative parsed price. |
| StockCard.Mount | components/StockCard.tsx:10-166 | The first render succeeds exactly when all three price fields are strings, `setupType` is a string, and no field shown as a child is an object or an array holding one. The card then starts at the extracted current price, with the extracted target and stop-loss as its levels and the entry's symbol. Both alerts are off and the direction is neutral. |
| StockCard.TolerantPrice | components/StockCard.tsx:14-16 | The corrected price reading agrees with the card's on strings. It reads a number as its magnitude and anything else as 0, and is never negative. |
| StockCard.FlatEntryRenders | components/StockCard.tsx:74-164 | A stock entry whose fields are all strings or numbers, with `setupType` not a number, maps and meets every render condition other than the price fields. So the corrected render mounts it. |
| StockCard.MountTolerant | components/StockCard.tsx:14-21 | The corrected render fails exactly where the as-written one fails for reasons other than the prices, and agrees with `Mount` wherever that succeeds. It starts at the tolerant reading of the current price, with the tolerant readings of the target and stop-loss as its levels. |
| StockCard.NumericCurrentPrice | components/StockCard.tsx:14-16 | Any flat entry whose current price is a JSON number maps but fails the first render. The corrected render mounts it and starts the ticker at that number when it is non-negative. |
| StockCard.NumericPriceBreaksMount | components/StockCard.tsx:14 | An entry whose current price is a JSON number passes the normaliser but fails the first render. The corrected render starts its ticker at that number. |
| StockCard.StopIsMirroredTarget | components/StockCard.tsx:39-55 | The stop-loss test of one side is the target test of the other side. |
| StockCard.Observe | components/StockCard.tsx:36-55 | After a tick, the direction is up exactly when the price rose. An alert is still armed exactly when it was armed and its level was not reached. Each kind is reported once exactly when it disarmed itself, target before stop-loss, with the card's symbol and the new price. |
| StockCard.MoveBounds | components/StockCard.tsx:32-34 | A non-negative price moves by at most 0.075% per tick, so it stays non-negative. It rises exactly when it is positive and the draw is above one half. |
| StockCard.ZeroPriceIsStuck | components/StockCard.tsx:33-34 | A price of 0 never moves. |
| StockCard.ToggleTarget | components/StockCard.tsx:108 | The target bell flips the target switch and nothing else. |
| StockCard.ToggleStop | components/StockCard.tsx:127 | The stop-loss bell flips the stop-loss switch and nothing else. |
| StockCard.ToggleTwice | components/StockCard.tsx:108 | Pressing a bell twice restores the card. |
| StockCard.Apply | components/StockCard.tsx:29-59 | Only ticks report alerts. A switch changes only by its button or by firing, and firing reports it once. |
| StockCard.Run | components/StockCard.tsx:29-62 | A run reports at most two alerts per input, all with the card's symbol. |
| StockCard.OneShot | components/StockCard.tsx:39-55 | Over any run, the alerts of a kind plus its final switch position never exceed its initial position plus its button presses. |
| StockCard.SilentWhileDisarmed | components/StockCard.tsx:39-55 | An alert that is off and whose button is never pressed never fires. |
| StockCard.PriceStaysNonNegative | components/StockCard.tsx:31-57 | With draws in [0, 1), the live price stays non-negative over any run. |
| StockCard.BuyTargetFiresOnce | components/StockCard.tsx:39-41 | A BUY card with target 110 reports one target alert at 110.5 and stays silent when 111 is reached afterwards. |
| StockCard.SellStopFiresOnce | components/StockCard.tsx:52-55 | A SELL card with stop-loss 100 reports one stop-loss alert at 101 and stays silent at 99 afterwards. |
| App.AddToast | App.tsx:29-31 | Adding a toast appends exactly that toast and keeps the others in order. |
| Seqs.FilterMembers | App.tsx:39 | `Array.prototype.filter` returns only input elements, and it returns every input element that passes. |
| App.RemoveToast | App.tsx:38-40 | Removal keeps, in order, exactly the toasts with another id. |
| App.RemoveAbsent | App.tsx:38-40 | Removing an id that no toast carries changes nothing. |
| App.RemoveTwice | App.tsx:33-40 | The timer removing a toast already closed by hand changes nothing. |
| App.RemovalsCommute | App.tsx:33-40 | Expiries and dismissals of different toasts commute. |
| App.RemoveAppend | App.tsx:38-40 | Removal acts on each part of the list separately. |
| App.ExpiryUndoesAdd | App.tsx:29-35 | Expiring a toast with a fresh id undoes exactly its addition, even after later additions. |
| App.ToastTypeFor | App.tsx:46 | A target alert gets a success toast and a stop-loss alert a danger toast. |
| App.AlertMessagesDiffer | App.tsx:43-45 | The two alert texts differ for the same symbol and price, and both start with the symbol. |
| App.AlertMessageInjective | App.tsx:43-45 | For a given symbol, the toast text determines the alert: two texts are equal only for the same kind and the same price text. |
| App.HandleAlertTrigger | App.tsx:42-48 | An alert appends one toast stamped with the clock, coloured by its kind, and carrying the alert's text for its symbol and price. |
| App.SameTickToastsCollide | App.tsx:30-34 | A card whose levels and price were all unreadable, with both alerts on, reports both on its first tick. Its two toasts share an id, so closing one removes both. |
| App.AddFresh | App.tsx:29-35 | With counter ids, every id stays unique and below the counter. |
| App.HandleAlertFresh | App.tsx:42-48 | The relay into the counter store appends one toast coloured by the alert's kind and carrying its text, and keeps ids unique. |
| App.RemoveOneOfDistinct | App.tsx:38-40 | With unique ids, removing one toast's id removes that toast only. |
| App.RemoveLatestButOne | App.tsx:29-40 | Closing the older of two toasts just added with different ids leaves the earlier toasts and the newer one. |
| App.SameTickToastsSeparate | App.tsx:29-40 | With counter ids, closing the first of two same-tick toasts leaves the second. |
| App.StartScan | App.tsx:50-53 | Starting a scan sets loading and clears both the old analysis and the old error. |
| App.FinishScan | App.tsx:55-62 | Settling clears loading. Success shows the analysis. Failure shows the caught message, or the generic one when that is empty. |
| App.FinishKeepsCoherent | App.tsx:50-62 | Settling a started scan never shows an analysis and an error together. |
| App.HandleAnalyze | App.tsx:50-62 | After a scan, the page is not loading. It shows an analysis exactly when the service succeeded, and then it is the service's analysis. It shows an error exactly when the service threw. |
| App.FailedScanShowsServiceMessage | App.tsx:55-62 | A failed scan shows no analysis, not even the previous one, and shows the service's own message. The shell's fallback text is never used. |
| App.NoSpanBanner | App.tsx:55-59 | A reply without a span ends in the "no structured data" banner. |

## Left out

- The Gemini client, the API key, the model id, the prompt text and the search-tool flag: the completion call is an input, its success or thrown message.
- `JSON.parse`: left abstract as a parameter. Nothing is assumed about it.
- The SDK's own shapes: the response `text` is a string, and a chunk's `web` is present or `undefined`. A `null` web entry would pass the `!== undefined` filter and then throw; the model does not represent it.
- Every `console.error`: logging only.
- Timers, `Math.random()` and `Date.now()`: inputs. The effect's re-subscription on every switch change is not modelled either. Each tick sees the current switches, as the re-created interval does.
- IEEE-754 arithmetic and `toFixed(2)`: prices are exact reals, and the texts of a symbol and of a price in a toast are inputs. `Price.ParseFixedTwo` models only renderings that are exact two-decimal values.
- `Price.ParsePrice`: `parseFloat` is modelled only on digits and points, the alphabet sanitising leaves. Exponents, signs, `Infinity` and whitespace never reach it.
- StockCard.TolerantPrice: a number is read as its magnitude, which is what the text `String(n)` gives for ordinary values. Values written in exponent notation (below 1e-6 or from 1e21 up) would sanitise to other digits, and an array would be read through its joined text. Both are read as stated here instead, since the correction is a proposal and not code.
- StockCard.Mount: React's other render-time checks, such as invalid element props, are not modelled. Only `.replace` on non-strings and object children are.
- The V8 wording of TypeError messages: approximated, since only their being non-empty matters.
- The React rendering beyond whether the first render throws: the JSX layout, the border colour by horizon, and `components/MarketOverview.tsx`, which only displays the record.
- The index selector and the `MarketIndex` enum of types.ts: the selected index only enters the prompt.
- Concurrent scans: the button is disabled while loading. `App.FinishKeepsCoherent` assumes a scan settles only while loading.
- The `ServiceResponse` interface in types.ts: it is declared but never used.

## Findings

| source | as written | input that shows it | evidently intended | confidence | as-written member | corrected member |
|---|---|---|---|---|---|---|
| components/StockCard.tsx:14-16 | The card calls `.replace` on `currentPrice`, `targetPrice` and `stopLoss` as they came out of the normaliser. That code copies `currentPrice` unchecked and keeps any truthy level. | A stock entry `{"symbol": "TCS", "currentPrice": 3850.5, ...}`, with the price sent as a JSON number, or one without `currentPrice`. | A price the model sent as a number is readable and should start the ticker at that number. Anything else unreadable should count as 0, as the `\|\| 0` fallback already does for unparsable text, rather than make the render throw. | medium, not executed | StockCard.NumericPriceBreaksMount | StockCard.MountTolerant |
| App.tsx:30-34 | Toast ids come from `Date.now()`. A card that reaches both of its levels on one tick reports two alerts synchronously, so their toasts get the same id. | A BUY card whose three price fields were unreadable (all 0), with both alerts on: its first tick fires both. | Each toast is closed and expires on its own, and has a unique React key. | medium, not executed | App.SameTickToastsCollide | App.SameTickToastsSeparate |

# Byte-Sized Business Boost — a verified model of its core logic

Byte-Sized Business Boost is a local-business directory: a Next.js app on
SQLite. Almost all of it is pages, route handlers and database queries. The
parts that carry real logic are modelled here in Dafny, module by module:

- **Recommender** (`lib/recommender.ts`). `parseNaturalLanguageQuery` turns a
  free-text query into recommendation filters. It uses first-match-wins
  keyword tables for category, neighbourhood and budget, a deals flag, and a
  tag table. The model has it both as a function (`ParseQuery`) and as a
  method with the source's loops and `break`s, proved equal. The scoring step
  of `scoreBusinesses` scores one business row against the filters and gives
  one reason per rule that fired. The rows are then sorted by score. The
  database fetch is replaced by a sequence of `BusinessRow`s.
- **BotGuard** (`lib/botguard.ts`). The challenge store and the rate-limit
  store are the two map fields of a `Guard` object. Its methods issue and
  verify one-time arithmetic challenges, fire the clean-up timers and apply
  the fixed-window rate limit. The request helpers are functions: the client
  identifier, the honeypot check and HTML escaping.
- **Csv** (`lib/reports.ts` `toCSV` and the reports page's `toCSV`). Both
  serialisers are modelled. The page's version is a method with its loop. A
  reader for the same dialect (section 2 of RFC 4180, with line feeds as
  line breaks) proves that both exports read back as the table they encode.
- **Reports** (`lib/reports.ts`). The in-memory filter and sort steps that
  follow the SQL in the top-rated, most-reviewed and most-favourited reports.
- **Wrappers** (`Wrappers.dfy`) holds `Option`: a present value versus
  `undefined`/`null`.
- Two support modules state the JavaScript built-ins the code relies on.
  **Text** covers `toLowerCase`, `includes`, `split`, `join` and `trim`.
  **ArrayMethods** covers `filter`, and `sort` with a comparator, which
  ECMAScript requires to be stable.

Time, randomness and tokens are parameters: `now`, the operands, the operator
and the token are passed in.

## Model

| member | source | states |
|---|---|---|
| `Recommender.ParseNaturalLanguageQuery` | lib/recommender.ts:130-196 | The loop-and-break parser computes exactly `ParseQuery`, the field-by-field statement of the parse. |
| `Recommender.ParseQuery` | lib/recommender.ts:130-196 | The parse as a function, field by field: first-match category and neighbourhood, the low/high/medium budget chain, the deals flag and the tag table. Its properties are carried by `CategoryIsFirstTrigger`, `CategoryAbsent`, `NeighborhoodIsFirstEntry`, `NeighborhoodAbsent`, `BudgetPriority`, `DealsOnlyNeverFalse`, `TagsFromTable`, `NoKeywordNoFilters` and `BlankQueryNoFilters`. |
| `Recommender.ScanCategories` | lib/recommender.ts:134-148 | The category loop stops at the first trigger the lower-cased query contains and sets that trigger's category. "coffee" also pushes the tag "coffee". With no trigger, nothing is set. |
| `Recommender.ScanNeighborhoods` | lib/recommender.ts:150-160 | The neighbourhood loop yields the first gazetteer entry contained in the query, title-cased, or nothing. |
| `Recommender.ScanTags` | lib/recommender.ts:185-190 | The tag loop collects the tags of all table rows with a keyword in the query, in table order. |
| `Recommender.FirstMatch` | lib/recommender.ts:136-137 | The index found is of a word the query contains, with no earlier word contained. None is returned exactly when no word is contained. |
| `Recommender.QueryTags` | lib/recommender.ts:177-190 | A tag is in the list iff one of its keywords is in the query. The tags appear in strictly increasing table order, so each appears at most once. |
| `Recommender.CategoryIsFirstTrigger` | lib/recommender.ts:135-146 | If trigger i is contained and no earlier trigger is, the category is the one trigger i maps to (food and restaurant give Food & Dining, and so on). Later triggers are ignored. |
| `Recommender.CategoryAbsent` | lib/recommender.ts:136-148 | The category is absent iff the query contains no trigger. |
| `Recommender.NeighborhoodIsFirstEntry` | lib/recommender.ts:151-159 | If entry i is contained and no earlier entry is, the neighbourhood is entry i title-cased. |
| `Recommender.NeighborhoodAbsent` | lib/recommender.ts:155-160 | The neighbourhood is absent iff no gazetteer entry is contained. |
| `Recommender.TitleCaseChars` | lib/recommender.ts:157 | Title-casing keeps the length. It upper-cases the first character and every character after a space, and leaves all others unchanged. |
| `Recommender.TitleCase` | lib/recommender.ts:157 | Splits on spaces, upper-cases each word's first character and joins with spaces. `TitleCaseChars` states the result character by character. |
| `Recommender.BudgetPriority` | lib/recommender.ts:162-169 | The budget is low iff a low word occurs. It is high iff no low word and some high word occur, and medium iff only medium words occur. A query with both "cheap" and "upscale" therefore gets low. |
| `Recommender.DealsOnlyNeverFalse` | lib/recommender.ts:171-174 | `dealsOnly` is never false. It is true exactly when "deal", "coupon" or "discount" occurs. |
| `Recommender.TagsFromTable` | lib/recommender.ts:141-193 | The tags field is the tag-table result when that is non-empty and is absent otherwise. The list the "coffee" category pushes never survives. |
| `Recommender.NoKeywordNoFilters` | lib/recommender.ts:130-196 | A query that contains no keyword of any table yields a record with every field absent. |
| `Recommender.BlankQueryNoFilters` | lib/recommender.ts:130-196 | An empty or white-space-only query yields a record with every field absent. |
| `Recommender.RatingRule` | lib/recommender.ts:70-74 | The rating rule gives one "highly rated" reason iff the rating is at least 4. It adds no points of its own: the ten points per star are the base score. |
| `Recommender.ReviewRule` | lib/recommender.ts:76-83 | The review tier gives +20 from 10 reviews and +10 from 5, with at most one reason. |
| `Recommender.DealRule` | lib/recommender.ts:85-92 | A business with deals gets +30 when the filters ask for deals only and +15 otherwise, with at most one reason. |
| `Recommender.TagRule` | lib/recommender.ts:94-105 | The tag rule gives ten points per matched tag. |
| `Recommender.BudgetRule` | lib/recommender.ts:107-115 | The budget rule gives +15 iff the budget is low and the tag text mentions affordable, cheap or budget. |
| `Recommender.ScoreRow` | lib/recommender.ts:66-121 | The score is ten points per star plus the points each of its reasons stands for. There are at most five reasons, in strictly increasing rule order. |
| `Recommender.ReasonsAreRuleReasons` | lib/recommender.ts:66-115 | Every reason is one of the seven reasons the rules can give for this row, with this row's rating, review count and matched tags. |
| `Recommender.RatingReviewReasons` | lib/recommender.ts:71-83 | "Highly rated" appears iff the rating is at least 4. "Well reviewed" appears iff there are at least 10 reviews, and "established" iff there are 5 to 9. |
| `Recommender.DealReasons` | lib/recommender.ts:85-92 | "Has active deals" appears iff the business has deals and deals only was asked for. "Offers deals" appears iff it has deals and deals only was not asked for. |
| `Recommender.TagBudgetReasons` | lib/recommender.ts:94-115 | The preferences reason carries the matched tags and appears iff some tag matched. The affordable reason appears iff the budget is low and an affordability word occurs. |
| `Recommender.ScoreBounds` | lib/recommender.ts:66-115 | A score lies between ten points per star and that plus 65 plus ten per wanted tag. |
| `Recommender.OnlyLowBudgetScores` | lib/recommender.ts:107-115 | A medium or high budget scores the same as no budget. |
| `Recommender.DealsOnlyRaisesScore` | lib/recommender.ts:85-92 | Asking for deals only raises a score by exactly 15 for a business with deals and leaves other scores unchanged. |
| `Recommender.MatchedTagsSpec` | lib/recommender.ts:94-99 | A wanted tag is matched, once per occurrence, iff its lower-cased form occurs in some trimmed, lower-cased, comma-separated business tag. No tag matches without wanted tags or tag text. |
| `Recommender.MatchedTags` | lib/recommender.ts:95-99 | The wanted tags, in their order, that occur in some trimmed, lower-cased business tag. Nothing matches without wanted tags or tag text. `MatchedTagsSpec` and `MatchedTagsInOrder` carry its properties. |
| `Recommender.MatchedTagsInOrder` | lib/recommender.ts:96-98 | Matching keeps the order of the wanted tags: a concatenation matches part by part. |
| `Recommender.DealSeekerExample` | lib/recommender.ts:66-115 | 4.5 stars, 12 reviews and a deal, with deals only asked for, score 95 with reasons highly rated, well reviewed and has active deals, in that order. |
| `Recommender.ScoreAll` | lib/recommender.ts:66-124 | The ranking has one entry per input row and is a permutation of the scored rows. |
| `Recommender.ScoreAllRanked` | lib/recommender.ts:124 | The ranking has non-increasing scores. Rows with equal scores keep their input order. |
| `ArrayMethods.SortByDescending` | lib/recommender.ts:124 | Sorting with the comparator `key(b) - key(a)` gives non-increasing keys and is stable. |
| `BotGuard.Answer` | lib/botguard.ts:33-44 | The answer is the sum, the difference clamped at zero, or the product. With operands from 1 to 20 it lies between 0 and 400. |
| `BotGuard.ChallengeTextRoundTrip` | lib/botguard.ts:65 | The text "op1 operator op2" reads back as exactly the operands and the operator. |
| `BotGuard.Guard.constructor` | lib/botguard.ts:11-23 | Both stores start empty. |
| `BotGuard.Guard.GenerateMathChallenge` | lib/botguard.ts:28-66 | Issuing stores one challenge under the token, with its answer and an expiry 300000 ms after `now`. Every other entry and the rate-limit store are unchanged. It returns the question text and the token, not the answer. |
| `BotGuard.Guard.VerifyMathChallenge` | lib/botguard.ts:72-90 | The result is true iff the token is stored, `now` is at most its expiry and the answer matches. Afterwards the token is gone in every case and nothing else changes. |
| `BotGuard.Guard.FireCleanupTimers` | lib/botguard.ts:60-63 | The timers due by `now` (one second after each expiry) have removed their tokens. Nothing else changes. |
| `BotGuard.Guard.CheckRateLimit` | lib/botguard.ts:95-112 | The decision and the client's new record are those of `RateStep` on the old record. Other clients and the challenge store are unchanged. Counts stay between 1 and 10. |
| `BotGuard.RateStep` | lib/botguard.ts:96-111 | A call is refused iff the client's window is open and already has 10 calls. A missing or lapsed record is replaced by a new window: count 1, ending at `now + 60000`. Inside an open window, a refused call leaves the record as it was, and an allowed call adds one to the count and keeps the end. The reported reset time is the record's, and counts stay between 1 and 10. |
| `BotGuard.RunInsideWindow` | lib/botguard.ts:106-111 | Within an open window that has seen c calls, exactly the next 10 - c calls are allowed and every later one is refused. |
| `BotGuard.FirstWindow` | lib/botguard.ts:99-111 | A client with no record gets exactly its first ten calls in a one-minute window through. |
| `BotGuard.OneTimeToken` | lib/botguard.ts:72-90 | The first answer counts exactly when it is right and arrives in time. Replaying the token is always refused. |
| `BotGuard.ClientIp` | lib/botguard.ts:120-121 | With a non-empty `x-forwarded-for`, the address is the text before its first comma with the white space at both ends removed (a window with only white space outside it and none at its edges), so it holds no comma. Otherwise it is a non-empty `x-real-ip`, else "unknown". |
| `BotGuard.SessionCapture` | lib/botguard.ts:124 | A captured session id is non-empty and holds no ';'. |
| `BotGuard.SessionCaptureOccurs` | lib/botguard.ts:124 | The captured id follows `session_id=` somewhere in the cookie text. |
| `BotGuard.SessionCaptureAt` | lib/botguard.ts:124 | At the leftmost position where `session_id=` is followed by a character other than ';', the capture is the whole run after the key up to the next ';' or the end. |
| `BotGuard.SessionCaptureNone` | lib/botguard.ts:124 | No session id is captured exactly when `session_id=` never occurs followed by a character other than ';'. |
| `BotGuard.NoKeyNoSession` | lib/botguard.ts:124 | Without `session_id=` in the cookie there is no session id. |
| `BotGuard.IdentifierParts` | lib/botguard.ts:118-127 | For an address without a dash, the identifier splits at its first dash into the address and the session id. |
| `BotGuard.ClientIdentifier` | lib/botguard.ts:118-127 | The address, a dash, then the session id (empty when there is none). `ClientIp`, `SessionCaptureAt`, `SessionCaptureNone` and `IdentifierParts` carry its properties. |
| `BotGuard.SessionId` | lib/botguard.ts:124 | The first capture of `session_id=([^;]+)` in the cookie header, or the empty string without a cookie or a match. `SessionCapture`, `SessionCaptureAt`, `SessionCaptureNone` and `NoKeyNoSession` carry its properties. |
| `BotGuard.CheckHoneypot` | lib/botguard.ts:132-135 | A request passes iff the honeypot value is absent or all white space (empty included). |
| `BotGuard.SanitizeIsEscapeEach` | lib/botguard.ts:140-148 | The six passes, ampersands first, escape each character once, so no entity is escaped twice. |
| `BotGuard.SanitizeHtml` | lib/botguard.ts:140-148 | The six global replacements applied in the source's order. `SanitizeIsEscapeEach`, `SanitizeRoundTrip` and `NoMarkupAfterSanitize` carry its properties. |
| `BotGuard.SanitizeRoundTrip` | lib/botguard.ts:140-148 | Decoding the six entities gives back the original text. |
| `BotGuard.NoMarkupAfterSanitize` | lib/botguard.ts:140-148 | The output holds no `<`, `>`, `"`, `'` or `/`. |
| `Csv.FieldEncodersAgree` | lib/reports.ts:241-248 | The library's field encoder and the page's `esc` give the same text for every value, missing values included. |
| `Csv.RowLinesAgree` | lib/reports.ts:239-249 | The library's row line, built with its field encoder, and the page's, built with `esc`, are both the row's values under the headers, escaped and joined by commas. |
| `Csv.ToCsv` | app/reports/ReportsClient.tsx:10-23 | The page's loop builds the escaped header line, then one line per row, joined by line feeds. |
| `Csv.PageCsv` | app/reports/ReportsClient.tsx:10-23 | The page's export: the escaped header line, then each row's values through `esc`, joined by line feeds. `ToCsv`, `PageCsvRoundTrip` and `LibMatchesPage` carry its properties. |
| `Csv.FieldRoundTrip` | app/reports/ReportsClient.tsx:11-15 | Reading an escaped field back gives the field, whether it was quoted with doubled quotes or left bare. |
| `Csv.PageCsvRoundTrip` | app/reports/ReportsClient.tsx:17-22 | The page's export reads back as the headers followed by each row's values in header order. A missing value reads as an empty field. |
| `Csv.LibMatchesPage` | lib/reports.ts:238-253 | The two exports are identical iff no header needs quoting. The library writes its header line bare while the page escapes it, so one header with a comma, quote or line feed makes the two texts differ. |
| `Csv.LibCsv` | lib/reports.ts:238-253 | The library's export: the header line joined as it is, then each row's values through the library's field encoder, joined by line feeds. `LibCsvRoundTrip`, `LibMatchesPage` and `RowLinesAgree` carry its properties. |
| `Csv.LibCsvRoundTrip` | lib/reports.ts:239-252 | The library's export reads back the same way, given headers with no comma or line feed that do not start with a quote. A quote inside a header reads back as itself. |
| `Reports.TopRated` | lib/reports.ts:62-69 | The report holds exactly the rows with at least the minimum number of reviews (0 by default), each as often as in the input. |
| `Reports.MostReviewed` | lib/reports.ts:121-122 | The report holds exactly the rows with at least the minimum number of reviews, each as often as in the input. |
| `Reports.MostReviewedOrdered` | lib/reports.ts:122 | The report has non-increasing review counts. Equal counts keep the query order. |
| `Reports.MostFavorited` | lib/reports.ts:230-232 | The report holds exactly the rows favourited at least once, each as often as in the input. |
| `Reports.MostFavoritedOrdered` | lib/reports.ts:230-232 | The report has non-increasing favourite counts. Equal counts keep the query order. |

Notes on reading the model:

- `dealsOnly` is treated as set only when it is `Some(true)`. That is
  JavaScript truthiness for the values the parser produces.
- A row for the CSV exports maps column names to the text `String(value)`
  would print. `None` or a missing key stands for `null`/`undefined`.
- The library's `toCSV` writes its header line without escaping. Its round
  trip therefore needs headers with no comma or line feed that do not start
  with a quote. The reader here takes a quote inside a bare field as an
  ordinary character; a strict reader of section 2 of RFC 4180 would reject
  such a header. The export routes call it only with fixed plain column
  names.

## Left out

- The Drizzle/SQLite queries: the aggregation selects of `scoreBusinesses` and the reports, `getCategoryDistribution`, `getExpiringDeals`, `lib/db.ts` and `lib/schema.ts`. The model starts from the rows a query returns.
- `Math.random` and `randomBytes`: the operands, operator and token are parameters. The operands' range of 1 to 20 is a precondition, since that is what the random draw yields.
- `Date.now()`: replaced by a `now` parameter.
- `setTimeout` clean-up: modelled as `FireCleanupTimers(now)`, which removes every challenge whose timer is due (expiry plus one second). When a token is re-issued before its old timer fires, the source's old timer deletes the new challenge early. The sweep, which uses the stored expiry, does not capture that. The timing follows the code: the timer fires one second after the expiry, not at the expiry itself.
- Concurrency: the stores are single-threaded module-level maps, modelled sequentially.
- Number formatting: the reason texts (`toFixed(1)`) are reason constructors, and `String(value)` in the CSV exports is taken as given text.
- Floating point: ratings and scores are exact reals. Double rounding in `avgRating * 10` and in the sums is not modelled.
- TopRated: only the filter and permutation facts are stated. The comparator's 0.01 tolerance makes it inconsistent (not a strict weak order), so the order JavaScript's sort produces with it depends on the sort algorithm.
- LibCsvRoundTrip: stated only for headers with no comma or line feed that do not start with a quote. The library writes its header line unescaped: a comma or line feed splits the header, and a leading quote opens a quoted field, so such headers do not read back. Every caller passes fixed plain column names.
- VerifyMathChallenge: the submitted answer is an integer. A `NaN` from a failed parse is never equal to the stored answer, like any wrong integer.
- Case mapping: `toLowerCase` and `toUpperCase` are modelled on ASCII letters only.
- Next.js route handlers, React pages and components, the Zod schemas, PapaParse import, admin cookie authentication, and the unused `SECRET` constant and `cookies` import in `lib/botguard.ts`.

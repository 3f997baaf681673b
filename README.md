# Job-board scrapers, modelled

The repository has four browser-automation scripts:

- `scrapeDice.js` walks the Dice search results for one keyword and location. It reads the page count from the "Page 1 of N" label, follows the "Next" control, and keeps one record per job card.
- `ScrapeDiseAI.js` is a second copy of that scraper. It also keeps each card's whole text. It runs the scraper for seven AI keywords in Boston and again across the United States. It then labels the records "Boston AI", "Other US AI" and "C2C" through one `category` field, and the last write wins.
- `autoApplyDice.js` visits search pages 1 to 5 through the `page` query parameter. It keeps up to ten job-detail links per page and opens each link not seen before exactly once. For each it records whether the detail page offers an Easy Apply button.
- `scrapeLinkedInTop100.js` gathers up to 100 distinct LinkedIn job links in at most 30 scroll attempts. It opens each link in turn and reads the fields through fallback selectors, with a sign-in gate flag. It then sorts the records into Boston / other-state buckets and into AI and analyst buckets, which may overlap.

The browser is replaced by data:

- A Dice search session is `Pages = nat -> Snapshot`: the page on screen after `k` presses of "Next". It holds the pagination label, the job cards, and the "Next" control with its `aria-disabled` attribute.
- The Easy Apply crawl sees, for each search page, either a card-wait timeout or the card links' `href`s. Each detail page is the outcome of its button probe.
- The LinkedIn collector sees, for each attempt, the anchors' `href`s, or a failed query.
- Each LinkedIn detail page gives, for every selector of the fallback lists, the text of its first match or `None`. It also gives the outcome of the sign-in gate probe.

Each loop of the scripts is a method with its loop and invariants. The method is proved equal to a specification function of its inputs. Lemmas then state what the scripts promise about those functions. The files are:

- `JsText.dfy`: the JavaScript string behaviour the scripts rely on.
- `Patterns.dfy`: the fixed regular expressions, written as predicates.
- `Browser.dfy`: the Dice page data.
- `Pagination.dfy`: the stopping rule both Dice copies share.
- `DiceScrape.dfy`, `DiceAI.dfy`, `DiceApply.dfy` and `LinkedInTop100.dfy`: one per script.

The model shows what the collections hold:

- A JavaScript `Set` that keeps insertion order is a sequence without repeats.
- A filtered array that shares its records with the original becomes a list of positions into the original.
- Records are values. An object's fields assigned one after another become successive updates of a datatype value.

Some behaviours of the code that the model keeps:

- **One category per record.** `ScrapeDiseAI.js` keeps a single `category` field, and the last write wins (`ScrapeDiseAI.js:87`, `:96`, `:104`). So a C2C record of either pass ends up "C2C", not "Boston AI" (or "Other US AI") as well. In `scrapeLinkedInTop100.js` the Boston and other-state buckets are exclusive (`scrapeLinkedInTop100.js:153-155`).
- **Missing location.** A record without a location counts as outside Boston. It gets "Other US AI" in `ScrapeDiseAI.js:95`, where `job.location?.includes` yields `undefined`, and lands in `other_state_jobs` in `scrapeLinkedInTop100.js:151-155`.
- **Fallback selectors.** A fallback is tried only when the first selector's look-up throws (`scrapeLinkedInTop100.js:73-77`, `:82-84`, `:89-91`, `:99-104`). A first selector that matches with empty text ends the chain, and the field becomes `null`.
- **Navigation failures.** A failed `goto` on a detail page is swallowed by its `.catch` (`scrapeLinkedInTop100.js:67`) and leaves no trace in the record. `error` is recorded in two places only, one in each of those scripts: a throwing Easy Apply look-up in `autoApplyDice.js:56-60`, and a throwing sign-in gate look-up, caught at `scrapeLinkedInTop100.js:121-122`.
- **No deduplication in `ScrapeDiseAI.js`.** Records are appended as the calls return them (`ScrapeDiseAI.js:88`, `:97`). A job found by two keywords appears twice.
- **Card-wait timeouts.** Only `autoApplyDice.js:75-80` skips a page whose card wait times out. In `scrapeDice.js:36` and `ScrapeDiseAI.js:40` the wait is outside any `try`, so a timeout aborts the call.

## Model

| member | source | states |
|---|---|---|
| JsText.TrimSpec | scrapeDice.js:50-52 | `trim` returns a contiguous piece of its input. Everything cut from either side is whitespace (the ECMAScript WhiteSpace and LineTerminator set), and the result neither starts nor ends with whitespace. |
| JsText.TrimIdempotent | scrapeDice.js:50-52 | Trimming twice is trimming once. |
| JsText.DecimalRoundTrip | autoApplyDice.js:67 | Reading back the decimal digits written for a page number gives the number. |
| JsText.DecimalStringInjective | autoApplyDice.js:67 | Different page numbers are written as different digit strings. |
| JsText.Prefix | scrapeLinkedInTop100.js:74 | `slice(0, n)` is the front of the list, of length `min(n, length)`. |
| JsText.Trim | scrapeDice.js:50-52 | `String.prototype.trim`: leading whitespace cut, then trailing whitespace. Its meaning is stated by `JsText.TrimSpec`. |
| Patterns.OfCountAtIff | scrapeDice.js:24 | The hand-coded test for `of\s+(\d+)` at a position holds exactly when the text there is "of", at least one whitespace character, then at least one digit. |
| Patterns.FindOfCount | scrapeDice.js:24 | It returns the leftmost position where the pattern matches, or none when it matches nowhere. |
| Patterns.PageCountOfLabel | scrapeDice.js:24-25 | For a label whose part before the first "of" has no "of", followed by "of", whitespace, digits and a non-digit, the match's `parseInt` is the value of those digits. |
| Patterns.PageCountOfSampleLabel | scrapeDice.js:18-25 | "Page 1 of 11" gives 11. |
| Patterns.PageCountMatch | scrapeDice.js:24-25 | `parseInt(text.match(/of\s+(\d+)/)[1])`. It gives a number exactly when the pattern matches at some position, and then the value of the leftmost match's digit run. |
| Patterns.BackslashPatternNeedsBackslash | ScrapeDiseAI.js:32 | The pattern as written, `of\\s+(\\d+)`, never matches a label without a backslash. |
| Patterns.BackslashOfCountAt | ScrapeDiseAI.js:32 | The pattern as written matches at a position. Any match holds a literal backslash right after "of", followed by `s`. |
| Patterns.CorpToCorpAtIff | ScrapeDiseAI.js:102 | The hand-coded `corp\s*to\s*corp` test agrees with its textbook reading: "corp", any whitespace, "to", any whitespace, "corp", ignoring case. |
| Patterns.C2CInTitle | ScrapeDiseAI.js:102 | "Java Developer (C2C only)" passes the C2C test. |
| Patterns.CorpToCorpAcrossWhitespace | ScrapeDiseAI.js:102 | "Corp To\tcorp" passes across a tab and mixed case. |
| Patterns.CorpToCorpAt | ScrapeDiseAI.js:102 | `corp\s*to\s*corp` matches at a position, ignoring case, with each whitespace run taken greedily. Its meaning is stated by `Patterns.CorpToCorpAtIff`. |
| Patterns.MentionsC2C | ScrapeDiseAI.js:102 | The C2C test of the record text: "c2c" in any case, or the corp-to-corp pattern, at some position. |
| Patterns.NamesBoston | scrapeLinkedInTop100.js:153 | The Boston test of the location: "boston" or "massachusetts" anywhere, or "ma" as a whole word, ignoring case. |
| Patterns.MentionsAi | scrapeLinkedInTop100.js:145 | The AI regex: one of "ai", "machine learning", "artificial intelligence" and "ml" as a whole word, ignoring case. |
| Patterns.MentionsAnalyst | scrapeLinkedInTop100.js:146 | The analyst regex: "analyst" as a whole word, ignoring case. |
| Patterns.BostonAiEngineer | scrapeLinkedInTop100.js:145-157 | "Boston, MA" is a Boston location and "AI Engineer" an AI title, so one record can be in both buckets. |
| Patterns.StateCodeNeedsBoundaries | scrapeLinkedInTop100.js:153 | The Boston test rejects "Omaha, NE", because `\bma\b` does not match "ma" inside a word. It accepts "Cambridge, MA" through its state code. |
| Patterns.AnalystIsAWord | scrapeLinkedInTop100.js:146 | `\banalyst\b` finds the word in "Data Analyst II" but not at the start of "Analysts". |
| Pagination.LastPageFrom | scrapeDice.js:33-81 | The last page scraped from page `k` on: every page before it was advanced past, and the loop either reached the bound or stopped on that page's missing or disabled "Next" control. |
| Pagination.PagesScraped | scrapeDice.js:33-81 | The number of pages scraped meets the stopping rule: none when the bound is not positive, else from 1 up to the bound, ending only at the bound or at a stopping control. |
| Pagination.CollectedPrefix | scrapeDice.js:59 | Scraping more pages only appends to `allJobs`. |
| Pagination.CollectedOrigin | scrapeDice.js:59 | Every collected record comes from some card of some scraped page. |
| Pagination.PageNumbersMembers | scrapeDice.js:62 | The pages on which "Next" was looked up are exactly 1 to `k`. |
| Pagination.Collected | scrapeDice.js:38-59 | `allJobs` after `n` pages: the records of pages 1 to `n` concatenated in page order, each page's in card order. |
| DiceScrape.DetectTotalPages | scrapeDice.js:19-30 | When the label is present and the pattern matches, the count is the matched number. In every other case, including a missing section, no match or a throwing probe, it is 1. |
| DiceScrape.DetectTotalPagesOfLabel | scrapeDice.js:19-30 | A label of the form "… of N …" gives N, "Page 1 of 11" gives 11, and a missing section or a throwing probe gives 1. |
| DiceScrape.MapCard | scrapeDice.js:41-54 | Title, company and location are `null` exactly when their element is missing. The link is `null` exactly when the title element is missing. Otherwise the link is the title element's `href` and the title its trimmed text. |
| DiceScrape.PageJobs | scrapeDice.js:38-56 | One record per card, in card order. |
| DiceScrape.Paginate | scrapeDice.js:33-81 | Under the bound `min(maxPages, totalPages)`, `allJobs` is the records of the pages the stopping rule scrapes, in page order. `pageCount` ends one past the bound after a full run, and on the page it broke on otherwise. "Next" is looked up exactly on pages 1 to `n` below the bound. |
| DiceScrape.ScrapeDice | scrapeDice.js:15-81 | The same, with the bound taken from the detected page count. |
| DiceScrape.ReportedPages | scrapeDice.js:80-91 | The reported `pageCount - 1` is the number of pages scraped when the loop ran out, and one fewer when it broke on a missing or disabled "Next" control. |
| DiceScrape.NothingWithoutPages | scrapeDice.js:33 | A bound of 0 or less scrapes no page and keeps no record. |
| DiceScrape.ThreePageScenario | scrapeDice.js:33-81 | With `maxPages` 3 and pages of 10, 10 and 5 cards, the third with a disabled "Next", 25 records are kept and 3 pages reported. The third page is the last allowed, so its control is never read. |
| DiceAI.DetectTotalPages | ScrapeDiseAI.js:29-34 | As written, the count is always 1 or NaN, and NaN exactly when the label contains the backslash form the pattern needs. |
| DiceAI.SampleLabelIgnored | ScrapeDiseAI.js:32 | "Page 1 of 11", which the other copy reads as 11, is read here as 1. |
| DiceAI.MapCard | ScrapeDiseAI.js:44-55 | The same field rules as the first copy: title, company and location are the trimmed texts of their elements, `null` exactly when the element is missing, and the link is the title element's `href`. Those four fields equal `DiceScrape.MapCard`'s. `description` is the card's whole text, and no category is set. |
| DiceAI.PageJobs | ScrapeDiseAI.js:42-57 | One record per card, in card order. |
| DiceAI.ScrapeDice | ScrapeDiseAI.js:25-77 | The call rejects exactly when the page-count probe throws. Otherwise it returns the records of the pages scraped under the NaN-aware bound, and looks up "Next" only on pages below that bound. |
| DiceAI.AtMostOnePage | ScrapeDiseAI.js:29-62 | As written, a call scrapes at most one page and never reaches the "Next" look-up. With an ordinary label and `maxPages >= 1`, it scrapes exactly the first page. |
| DiceAI.CollectedUncategorised | ScrapeDiseAI.js:49-55 | No record leaves a call with a category. |
| DiceAI.OutsideBoston | ScrapeDiseAI.js:95 | `!job.location?.includes("Boston")`: no location, or a location without "Boston" (case-sensitive). |
| DiceAI.C2CText | ScrapeDiseAI.js:102 | `job.title + " " + job.description`, where a `null` title reads as "null". |
| DiceAI.WithCategory | ScrapeDiseAI.js:87 | Setting the category changes that field and no other. |
| DiceAI.Matching | ScrapeDiseAI.js:95 | `filter` as positions: exactly the positions whose record passes, in increasing order, as many as the count. |
| DiceAI.AssignCategory | ScrapeDiseAI.js:94-96 | `forEach` over the filtered records labels exactly the selected positions. Every other record is unchanged. |
| DiceAI.LabelBoston | ScrapeDiseAI.js:87 | Every record of the call is labelled "Boston AI". |
| DiceAI.LabelOutsideBoston | ScrapeDiseAI.js:94-96 | Only the records outside Boston, including those with no location, are labelled "Other US AI". `results` keeps every record. |
| DiceAI.LabelC2C | ScrapeDiseAI.js:101-104 | Every record passing the C2C test is relabelled "C2C" over any earlier label. Its count is the size of `c2cResults`. |
| DiceAI.SearchCall | ScrapeDiseAI.js:86 | A call returns nothing exactly when its page-count probe throws, else its scraped records. |
| DiceAI.SomeCallFailsLater | ScrapeDiseAI.js:85-98 | A rejected call ends its pass whatever comes later. |
| DiceAI.BostonSearches | ScrapeDiseAI.js:85-89 | The Boston pass fails exactly when one of its seven calls rejects. Otherwise it is the calls' labelled records in keyword order. |
| DiceAI.UsSearches | ScrapeDiseAI.js:92-98 | The same for the United States pass. |
| DiceAI.Run | ScrapeDiseAI.js:81-109 | The run fails exactly when some call rejects. Otherwise `allResults` is both passes followed by the C2C pass, and the counts are taken after that pass. |
| DiceAI.FinalResults | ScrapeDiseAI.js:84-104 | `allResults` at the end: the Boston pass, then the United States pass, with the C2C relabelling applied to every record. |
| DiceAI.C2CTextKept | ScrapeDiseAI.js:101-109 | Relabelling does not change which records pass the C2C test. |
| DiceAI.BostonPassLabels | ScrapeDiseAI.js:85-89 | Every record of the Boston pass is labelled "Boston AI". |
| DiceAI.UsPassLabels | ScrapeDiseAI.js:92-98 | A record of the United States pass is "Other US AI" when outside Boston, and uncategorised otherwise. |
| DiceAI.PassLength | ScrapeDiseAI.js:85-98 | A pass keeps every record its seven calls return. |
| DiceAI.TotalCollected | ScrapeDiseAI.js:85-106 | The total is the sum of the fourteen calls' record counts, with no deduplication. |
| DiceAI.CategoryAfterC2C | ScrapeDiseAI.js:101-104 | After the C2C pass a record's single category is "C2C" if it passes the test. Otherwise it is its pass's label, or none. |
| DiceAI.FinalCategory | ScrapeDiseAI.js:84-104 | The same for each record of the run's `allResults`. |
| DiceAI.BostonSurvivors | ScrapeDiseAI.js:107 | Of the Boston records, all but the C2C ones keep "Boston AI". |
| DiceAI.OtherUSSurvivors | ScrapeDiseAI.js:108 | Of the US records, exactly those outside Boston and not C2C keep "Other US AI". |
| DiceAI.BostonAICountOf | ScrapeDiseAI.js:107 | The "Boston AI" count is the Boston pass's size minus its C2C records. |
| DiceAI.OtherUSAICountOf | ScrapeDiseAI.js:108 | The "Other US AI" count is the US records outside Boston that are not C2C. |
| DiceAI.ReportedCounts | ScrapeDiseAI.js:106-109 | The three counts together, and the C2C count equals the number of records labelled "C2C". |
| DiceApply.SearchPageUrlInjective | autoApplyDice.js:67 | Different page numbers give different search addresses. |
| DiceApply.JobDetailLinks | autoApplyDice.js:83-84 | The filter keeps only non-empty `href`s containing "/job-detail/", keeps every such `href`, and never makes the list longer. |
| DiceApply.JobDetailLinksAppend | autoApplyDice.js:84 | The filter distributes over concatenation, so it keeps the links in their order and with their multiplicity. |
| DiceApply.JobDetailLinksStep | autoApplyDice.js:84 | A link appended at the end is kept, after the links kept before it, exactly when it passes the test. |
| DiceApply.KeptLinks | autoApplyDice.js:73-85 | The links kept from a search page: none when the card wait timed out (the `continue`), else `slice(0, 10)` of the job-detail links. Its properties are those of `DiceApply.KeptLinksSpec`. |
| DiceApply.KeptLinksSpec | autoApplyDice.js:83-85 | At most ten links per page, the front of its job-detail links, and none after a card-wait timeout. |
| DiceApply.StatusOf | autoApplyDice.js:48-60 | "Easy Apply" exactly when the button is found, "No Easy Apply" exactly when it is not, and "Error" with the message exactly when the probe throws. |
| DiceApply.ProcessLink | autoApplyDice.js:32-64 | Exactly one entry is appended, with the link, page and status. The detail page opened is closed right after. |
| DiceApply.FirstSightingsLinks | autoApplyDice.js:89-94 | The first sightings cover exactly the links sighted. |
| DiceApply.FirstSightingsDistinct | autoApplyDice.js:89-94 | No link is processed twice. |
| DiceApply.FirstSightingsEarliest | autoApplyDice.js:89-94 | Each processed sighting is the earliest sighting of its link. |
| DiceApply.DistinctLinksCount | autoApplyDice.js:89-94 | With distinct links, there are as many links as entries. |
| DiceApply.SightingsPages | autoApplyDice.js:66 | Sightings carry page numbers 1 to `n`, in non-decreasing order. |
| DiceApply.TimedOutPage | autoApplyDice.js:75-80 | A page whose card wait times out contributes no links. |
| DiceApply.VisitLink | autoApplyDice.js:90-93 | A link already visited changes nothing. A new link is added to `visited`, then processed once. |
| DiceApply.VisitPage | autoApplyDice.js:89-94 | After a page, `results` and `visited` are the specification's, extended by the page's kept links. |
| DiceApply.Crawl | autoApplyDice.js:66-98 | `results` is one entry per first sighting over pages 1 to 5, and `visited` the set of all kept links. Pages 1 to 5 are loaded in order by their addresses. The detail pages opened are exactly the entries' links, each closed at once. |
| DiceApply.CrawlCoversVisited | autoApplyDice.js:89-94 | `results.length == visited.size`, the entries' links are pairwise distinct, and every kept link of pages 1 to 5 is visited. |
| DiceApply.EntryOfFirstPage | autoApplyDice.js:89-93 | Each entry carries the first page whose kept links include its link, and the status its probe gives. |
| DiceApply.RepeatedLinkOnce | autoApplyDice.js:89-94 | A link kept on pages 1 and 2 is processed once, with page 1. |
| LinkedInTop100.ViewLinks | scrapeLinkedInTop100.js:42-43 | The in-page filter keeps exactly the non-empty `href`s containing "/jobs/view/". |
| LinkedInTop100.AddedSpec | scrapeLinkedInTop100.js:46 | Adding the found links keeps the earlier links in place, adds exactly the found ones, and keeps the set free of repeats. |
| LinkedInTop100.AddFound | scrapeLinkedInTop100.js:46 | The `forEach` of `links.add` adds the found links in order. |
| LinkedInTop100.AttemptsFrom | scrapeLinkedInTop100.js:40-57 | The loop makes at most 30 attempts, holds fewer than 100 links before each one, and stops early only with 100 in hand. |
| LinkedInTop100.GatheredSpec | scrapeLinkedInTop100.js:38-57 | The set holds exactly the links some attempt found, without repeats. Each attempt keeps the earlier links in first-seen order. |
| LinkedInTop100.CollectLinks | scrapeLinkedInTop100.js:36-59 | The loop's attempt count and `jobLinks` are the specification's. |
| LinkedInTop100.JobLinksSpec | scrapeLinkedInTop100.js:38-59 | `jobLinks` has at most 100 distinct links, in first-seen order. The loop made at most 30 attempts and stopped early only with 100 links. When no more than 100 were gathered, every link found is kept. |
| LinkedInTop100.JobLinksAreViewLinks | scrapeLinkedInTop100.js:42-59 | Every collected link is a job link. |
| LinkedInTop100.FailedScanAddsNothing | scrapeLinkedInTop100.js:42-44 | A failing query contributes nothing. |
| LinkedInTop100.FirstMatch | scrapeLinkedInTop100.js:80-84 | Of two selectors, the first that matches gives the trimmed text, even when it is empty. |
| LinkedInTop100.OrNull | scrapeLinkedInTop100.js:78 | `x \|\| null` turns the empty string into `null` and keeps any other text. |
| LinkedInTop100.TryBoth | scrapeLinkedInTop100.js:82-84 | The `try` / `catch` pair over two selectors gives `LinkedInTop100.FirstMatch`. |
| LinkedInTop100.TitleOf | scrapeLinkedInTop100.js:72-78 | The title: the trimmed text of `h1`, or of the fallback when `h1` is missing, cut to 500 characters, with an empty result turned into `null`. |
| LinkedInTop100.CompanyOf | scrapeLinkedInTop100.js:80-85 | The company from its two selectors, with an empty result turned into `null`. |
| LinkedInTop100.LocationOf | scrapeLinkedInTop100.js:87-92 | The location from its two selectors, with an empty result turned into `null`. |
| LinkedInTop100.PostedOf | scrapeLinkedInTop100.js:94-95 | `posted`: the trimmed text when its selector matches, kept even when empty, and absent otherwise. |
| LinkedInTop100.DescriptionOf | scrapeLinkedInTop100.js:97-105 | The description from its selectors, falling back to `main`, with an empty result turned into `null`. |
| LinkedInTop100.GatedOf | scrapeLinkedInTop100.js:107-115 | `gated`: false with a description; without one, whether the gate element is there, and absent when that look-up throws. |
| LinkedInTop100.ErrorOf | scrapeLinkedInTop100.js:107-122 | `error`: the message of a throwing gate look-up, which happens only without a description. |
| LinkedInTop100.JobFrom | scrapeLinkedInTop100.js:63-128 | The record `extractJob` returns: the link and the fields above. Its properties are those of `LinkedInTop100.TitleSpec`, `LinkedInTop100.FallbackSpec` and `LinkedInTop100.GatedSpec`. |
| LinkedInTop100.ExtractJob | scrapeLinkedInTop100.js:63-128 | The record assigned field by field is the one the field-wise specification gives for the page. |
| LinkedInTop100.TitleSpec | scrapeLinkedInTop100.js:72-78 | The title is never empty and at most 500 characters long. It comes from the `h1` when there is one, else from the fallback element, and is `null` when neither exists. |
| LinkedInTop100.TitleKept | scrapeLinkedInTop100.js:74 | A non-empty `h1` title is kept when within 500 characters, and cut to exactly 500 otherwise. |
| LinkedInTop100.FallbackSpec | scrapeLinkedInTop100.js:80-92 | Company and location come from the first of their two selectors that matches, trimmed. They are `null` exactly when neither matches or the first match is empty. |
| LinkedInTop100.GatedSpec | scrapeLinkedInTop100.js:97-125 | `gated` is true exactly when no description was found and the gate element is there, and false whenever a description exists. It is missing exactly when the gate look-up threw, which is exactly when `error` is set. |
| LinkedInTop100.ProcessAll | scrapeLinkedInTop100.js:131-137 | One record per link, in link order, each the extraction of its link's page. Each record keeps its link, so distinct links give distinct records. |
| LinkedInTop100.Select | scrapeLinkedInTop100.js:148-159 | A bucket holds exactly the records that pass its test. |
| LinkedInTop100.Categorize | scrapeLinkedInTop100.js:148-169 | Each bucket is the results passing its test, in order, `totalCollected == results.length`, and `all_jobs` is `results`. |
| LinkedInTop100.BostonPartition | scrapeLinkedInTop100.js:153-155 | The Boston and other-state buckets split the results: together they are the results, counted with multiplicity. |
| LinkedInTop100.BucketsDisjoint | scrapeLinkedInTop100.js:153-155 | No record is in both location buckets. |
| LinkedInTop100.NoLocationIsOther | scrapeLinkedInTop100.js:151-155 | A record without a location goes to `other_state_jobs`. |
| LinkedInTop100.CambridgeAnalyst | scrapeLinkedInTop100.js:145-158 | A "Data Analyst II" record at "Cambridge, MA" is a Boston record and an analyst record. |
| LinkedInTop100.ScrapeTop100 | scrapeLinkedInTop100.js:36-169 | The whole run: at most 100 records, one per collected link in order, with the four buckets over them and `totalCollected` their number. |

## Left out

- Playwright itself is replaced by data: launching, navigation, waits and delays, scrolling, clicks, `$eval`/`$$eval` scripts and screenshots. Their results are inputs.
- Cookie-banner dismissal is left out; it changes no data.
- Output is left out: CSV and JSON files, console logging, `Date.now` / `toISOString` timestamps, screenshot names and the `screenshot` fields. `processLink`'s `idx` and `extractJob`'s `idx` serve only those names.
- The initial navigation and the uncaught card waits (scrapeDice.js:13 and 36, ScrapeDiseAI.js:23 and 40, autoApplyDice.js:15-24) are left out. They abort the run and are not part of the logic.
- Fatal failures are left out: a `browser.newPage()` that rejects (autoApplyDice.js:33, scrapeLinkedInTop100.js:65) or a `$$eval` that throws (autoApplyDice.js:83). So is the partial-result dump at scrapeLinkedInTop100.js:174-177.
- Advancing a page is one atomic step. The `Promise.all` of `waitForNavigation` and `click` (scrapeDice.js:70-73) is not modelled as concurrency.
- `parseInt` is exact on the digit run. Numbers beyond double precision are not modelled.
- `slice(0, 500)` counts characters, not UTF-16 code units.
- Records are values. `job.category = …` through a filtered array is modelled by positions into `allResults`, not by shared references.
- The `posted` field has no lemma of its own. It is set only when its selector matches, is not turned into `null`, and is fixed by `LinkedInTop100.ExtractJob`.
- `process.exit` and the top-level script invocations are left out.

## Findings

| source | as written | input that shows it | evidently intended | confidence | as-written member | corrected member |
|---|---|---|---|---|---|---|
| ScrapeDiseAI.js:32 | `/of\\s+(\\d+)/` in a regex literal matches "of", a backslash, then `s`s… and `parseInt` of a capture that starts with a backslash is NaN. | the label "Page 1 of 11" gives 1, so each call scrapes one page and never reads "Next" | `/of\s+(\d+)/` as in scrapeDice.js:24, giving 11 | not executed | DiceAI.DetectTotalPages, DiceAI.SampleLabelIgnored | DiceScrape.DetectTotalPages, DiceScrape.DetectTotalPagesOfLabel |

The AI runner keeps the as-written probe, because that is what its calls do. The corrected probe is the one the first Dice scraper uses, and the rest of the Dice pagination model is built on it.

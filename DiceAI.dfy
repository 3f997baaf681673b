/** The AI-jobs runner of ScrapeDiseAI.js: a second copy of the Dice
    pagination scraper that also keeps each card's full text, run for seven
    keywords in Boston and seven across the United States, followed by three
    category passes that write a single `category` field, the last write
    winning. */
module DiceAI {
  import opened JsText
  import opened Patterns
  import opened Browser
  import opened Pagination
  import DiceScrape

  /** One scraped job. `description` is the card's whole inner text;
      `category` is missing until a pass assigns it. */
  datatype AIJob = AIJob(title: Option<string>, company: Option<string>,
                         location: Option<string>, link: Option<string>,
                         description: string, category: Option<string>)

  /** A JavaScript number as far as the page bound can see it. */
  datatype PageTotal = Finite(n: int) | NotANumber

  /** The total page count as this copy detects it. Its pattern, written
      `/of\\s+(\\d+)/`, needs a literal backslash, so an ordinary label never
      matches and the count stays 1; a label that does match captures text
      starting with a backslash, which `parseInt` turns into NaN. */
  function DetectTotalPages(ariaLabel: Option<string>): (total: PageTotal)
    ensures total == Finite(1) || total == NotANumber
    ensures total.NotANumber? <==> ariaLabel.Some? && HasBackslashOfCount(ariaLabel.value)
  {
    match ariaLabel
    case None => Finite(1)
    case Some(text) => if HasBackslashOfCount(text) then NotANumber else Finite(1)
  }

  /** The label that the other copy reads as 11 pages is read here as 1. */
  lemma SampleLabelIgnored()
    ensures DetectTotalPages(Some("Page 1 of 11")) == Finite(1)
    ensures DiceScrape.DetectTotalPages(Section("Page 1 of 11")) == 11
  {
    var s := "Page 1 of 11";
    assert forall k :: 0 <= k < |s| ==> s[k] != '\\';
    BackslashPatternNeedsBackslash(s);
    PageCountOfSampleLabel();
  }

  /** `pageCount <= Math.min(maxPages, totalPages)`; every comparison with NaN
      is false. */
  predicate WithinBound(pageCount: int, maxPages: int, total: PageTotal) {
    total.Finite? && pageCount <= Min(maxPages, total.n)
  }

  /** `pageCount < Math.min(maxPages, totalPages)`. */
  predicate BelowBound(pageCount: int, maxPages: int, total: PageTotal) {
    total.Finite? && pageCount < Min(maxPages, total.n)
  }

  /** The integer bound the loop behaves as if it had: a NaN bound admits no
      page, like the bound 0. */
  function EffectiveBound(maxPages: int, total: PageTotal): int {
    if total.NotANumber? then 0 else Min(maxPages, total.n)
  }

  function IndicatorLabel(indicator: PageIndicator): Option<string> {
    if indicator.Section? then Some(indicator.ariaLabel) else None
  }

  function CallBound(pages: Pages, maxPages: int): int {
    EffectiveBound(maxPages, DetectTotalPages(IndicatorLabel(pages(0).indicator)))
  }

  /** The record of one card. */
  function MapCard(c: Card): (j: AIJob)
    ensures j.title.None? <==> c.titleLink.None?
    ensures j.link.None? <==> c.titleLink.None?
    ensures j.company.None? <==> c.companyText.None?
    ensures j.location.None? <==> c.locationText.None?
    ensures j.link.Some? ==> j.link.value == c.titleLink.value.href
    ensures j.title.Some? ==> j.title.value == Trim(c.titleLink.value.text)
    ensures j.company.Some? ==> j.company.value == Trim(c.companyText.value)
    ensures j.location.Some? ==> j.location.value == Trim(c.locationText.value)
    ensures var d := DiceScrape.MapCard(c);
      j.title == d.title && j.company == d.company && j.location == d.location && j.link == d.link
    ensures j.description == c.text && j.category.None?
  {
    AIJob(
      if c.titleLink.Some? then Some(Trim(c.titleLink.value.text)) else None,
      if c.companyText.Some? then Some(Trim(c.companyText.value)) else None,
      if c.locationText.Some? then Some(Trim(c.locationText.value)) else None,
      if c.titleLink.Some? then Some(c.titleLink.value.href) else None,
      c.text, None)
  }

  function PageJobs(s: Snapshot): (r: seq<AIJob>)
    ensures |r| == |s.cards| && forall i :: 0 <= i < |r| ==> r[i] == MapCard(s.cards[i])
  {
    seq(|s.cards|, i requires 0 <= i < |s.cards| => MapCard(s.cards[i]))
  }

  /** The records of the pages one call scrapes, in page and card order. */
  function Scraped(pages: Pages, maxPages: int): seq<AIJob> {
    Collected(pages, PageJobs, PagesScraped(pages, CallBound(pages, maxPages)))
  }

  /** What one call returns: nothing when the page-count probe throws (the
      call rejects and, uncaught, ends the run), else the records it scraped. */
  function CallResult(pages: Pages, maxPages: int): Option<seq<AIJob>> {
    if pages(0).indicator.EvalError? then None else Some(Scraped(pages, maxPages))
  }

  /** The pagination loop of this copy. */
  method ScrapeDice(pages: Pages, maxPages: int) returns (result: Option<seq<AIJob>>, lookedUp: seq<int>)
    ensures result == CallResult(pages, maxPages)
    ensures var bound := CallBound(pages, maxPages); var n := PagesScraped(pages, bound);
      result.Some? ==>
        lookedUp == PageNumbers(|lookedUp|) && (forall p :: p in lookedUp <==> 1 <= p <= n && p < bound)
  {
    lookedUp := [];
    if pages(0).indicator.EvalError? {
      result := None;
      return;
    }
    var allJobs: seq<AIJob> := [];
    var pageCount := 1;
    var totalPages := DetectTotalPages(IndicatorLabel(pages(0).indicator));
    ghost var bound := EffectiveBound(maxPages, totalPages);
    var current := 0;
    while WithinBound(pageCount, maxPages, totalPages)
      invariant 1 <= pageCount && (pageCount <= bound ==> current == pageCount - 1)
      invariant bound > 0 ==> pageCount <= bound + 1
      invariant bound <= 0 ==> pageCount == 1
      invariant forall p :: 0 <= p < pageCount - 1 && p < bound - 1 ==> !Stops(pages(p).next)
      invariant allJobs == Collected(pages, PageJobs, pageCount - 1)
      invariant lookedUp == PageNumbers(if pageCount <= bound then pageCount - 1 else if bound > 0 then bound - 1 else 0)
      decreases bound + 1 - pageCount
    {
      var snapshot := pages(current);
      allJobs := allJobs + PageJobs(snapshot);
      if BelowBound(pageCount, maxPages, totalPages) {
        lookedUp := lookedUp + [pageCount];
        match snapshot.next
        case Absent =>
          break;
        case Present(ariaDisabled) =>
          if ariaDisabled == Some("true") {
            break;
          }
          current := current + 1;
      }
      pageCount := pageCount + 1;
    }
    ghost var n := if bound <= 0 then 0 else if pageCount > bound then bound else pageCount;
    assert IsPagesScraped(pages, bound, n);
    PagesScrapedUnique(pages, bound, n);
    PageNumbersMembers(|lookedUp|);
    result := Some(allJobs);
  }

  /** As written, a call scrapes at most one page and never looks up the
      "Next" control: the detected count is 1 or NaN, so no page lies below
      the bound. With an ordinary label and `maxPages >= 1` it scrapes exactly
      the first page. */
  lemma AtMostOnePage(pages: Pages, maxPages: int)
    ensures PagesScraped(pages, CallBound(pages, maxPages)) <= 1
    ensures CallBound(pages, maxPages) <= 1
    ensures maxPages >= 1 && !(pages(0).indicator.Section? && HasBackslashOfCount(pages(0).indicator.ariaLabel)) ==>
      PagesScraped(pages, CallBound(pages, maxPages)) == 1 &&
      Collected(pages, PageJobs, 1) == PageJobs(pages(0))
  {
  }

  /** No record leaves a call with a category. */
  lemma {:induction false} CollectedUncategorised(pages: Pages, n: nat)
    ensures forall j :: j in Collected(pages, PageJobs, n) ==> j.category.None?
  {
    if n > 0 {
      CollectedUncategorised(pages, n - 1);
      var page := PageJobs(pages(n - 1));
      forall j | j in Collected(pages, PageJobs, n) ensures j.category.None? {
        if j in page {
          var i :| 0 <= i < |page| && page[i] == j;
          assert j == MapCard(pages(n - 1).cards[i]);
        }
      }
    }
  }

  // ----- the runner

  /** The seven search keywords, in the order both passes search them. */
  const AiKeywords: seq<string> := ["AI", "Artificial Intelligence", "Machine Learning",
    "Deep Learning", "NLP", "Generative AI", "Data Scientist"]

  const BostonMA := "Boston, MA"
  const UnitedStates := "United States"

  /** The `maxPages` of every call the runner makes. */
  const CallPages := 3

  /** The site as data: the results pages of the search for a keyword in a
      location. */
  type Search = (string, string) -> Pages

  /** The record with its single `category` field set to `c`. */
  function WithCategory(j: AIJob, c: string): (r: AIJob)
    ensures r.category == Some(c)
    ensures r.(category := j.category) == j
  {
    j.(category := Some(c))
  }

  /** `!job.location?.includes("Boston")`, case-sensitive; a `null` location
      makes the optional chain `undefined` and the test true. */
  predicate OutsideBoston(j: AIJob) {
    j.location.None? || !Contains(j.location.value, "Boston")
  }

  /** `job.title + " " + job.description`; a `null` title is converted to the
      text "null". */
  function C2CText(j: AIJob): string {
    (if j.title.Some? then j.title.value else "null") + " " + j.description
  }

  /** The test of the C2C pass. */
  predicate IsC2C(j: AIJob) {
    MentionsC2C(C2CText(j))
  }

  /** What each pass does to one record. */
  function BostonTag(j: AIJob): AIJob {
    WithCategory(j, "Boston AI")
  }

  function UsTag(j: AIJob): AIJob {
    if OutsideBoston(j) then WithCategory(j, "Other US AI") else j
  }

  function C2CTag(j: AIJob): AIJob {
    if IsC2C(j) then WithCategory(j, "C2C") else j
  }

  function Map(f: AIJob -> AIJob, s: seq<AIJob>): (r: seq<AIJob>)
    ensures |r| == |s| && forall i :: 0 <= i < |s| ==> r[i] == f(s[i])
  {
    seq(|s|, i requires 0 <= i < |s| => f(s[i]))
  }

  /** The records of the first `n` keyword calls of one pass, each changed by
      the pass's `tag`, appended in call order without deduplication. */
  function Pass(search: Search, location: string, tag: AIJob -> AIJob, n: nat): seq<AIJob>
    requires n <= |AiKeywords|
  {
    if n == 0 then []
    else Pass(search, location, tag, n - 1) + Map(tag, Scraped(search(AiKeywords[n - 1], location), CallPages))
  }

  function BostonPass(search: Search): seq<AIJob> {
    Pass(search, BostonMA, BostonTag, |AiKeywords|)
  }

  function UsPass(search: Search): seq<AIJob> {
    Pass(search, UnitedStates, UsTag, |AiKeywords|)
  }

  /** `allResults` after the C2C pass. */
  function FinalResults(search: Search): seq<AIJob> {
    Map(C2CTag, BostonPass(search) + UsPass(search))
  }

  /** The number of records the first `n` calls for `location` return. */
  function CallTotal(search: Search, location: string, n: nat): nat
    requires n <= |AiKeywords|
  {
    if n == 0 then 0
    else CallTotal(search, location, n - 1) + |Scraped(search(AiKeywords[n - 1], location), CallPages)|
  }

  predicate CallFails(search: Search, keyword: string, location: string) {
    search(keyword, location)(0).indicator.EvalError?
  }

  /** One of the first `n` calls for `location` rejects. */
  predicate SomeCallFails(search: Search, location: string, n: nat)
    requires n <= |AiKeywords|
  {
    n > 0 && (SomeCallFails(search, location, n - 1) || CallFails(search, AiKeywords[n - 1], location))
  }

  /** A rejected call stays rejected as the pass goes on. */
  lemma {:induction false} SomeCallFailsLater(search: Search, location: string, m: nat, n: nat)
    requires m <= n <= |AiKeywords| && SomeCallFails(search, location, m)
    ensures SomeCallFails(search, location, n)
    decreases n
  {
    if m < n {
      SomeCallFailsLater(search, location, m, n - 1);
    }
  }

  /** Some call of the pass for `location` rejects. */
  predicate PassFails(search: Search, location: string) {
    SomeCallFails(search, location, |AiKeywords|)
  }

  /** Some call of the run rejects. */
  predicate RunFails(search: Search) {
    PassFails(search, BostonMA) || PassFails(search, UnitedStates)
  }

  predicate IsBostonAI(j: AIJob) {
    j.category == Some("Boston AI")
  }

  predicate IsOtherUSAI(j: AIJob) {
    j.category == Some("Other US AI")
  }

  predicate IsLabelledC2C(j: AIJob) {
    j.category == Some("C2C")
  }

  /** `s.filter(p).length`. */
  function Count(s: seq<AIJob>, p: AIJob -> bool): (n: nat)
    ensures n <= |s|
  {
    if s == [] then 0 else Count(s[..|s| - 1], p) + (if p(s[|s| - 1]) then 1 else 0)
  }

  /** `jobs.filter(keep)` as the positions of the records it keeps: the filtered
      array shares its records with `jobs`, so a write through it lands there. */
  function Matching(jobs: seq<AIJob>, keep: AIJob -> bool): (idx: seq<nat>)
    ensures forall k :: 0 <= k < |idx| ==> idx[k] < |jobs| && keep(jobs[idx[k]])
    ensures forall k, l :: 0 <= k < l < |idx| ==> idx[k] < idx[l]
    ensures forall i :: 0 <= i < |jobs| && keep(jobs[i]) ==> i in idx
    ensures |idx| == Count(jobs, keep)
  {
    if jobs == [] then []
    else
      var prev := Matching(jobs[..|jobs| - 1], keep);
      assert forall i :: 0 <= i < |jobs| - 1 ==> jobs[..|jobs| - 1][i] == jobs[i];
      if keep(jobs[|jobs| - 1]) then prev + [|jobs| - 1] else prev
  }

  /** `selected.forEach((job) => (job.category = c))` on the records at the
      positions `selected`. */
  method AssignCategory(jobs: seq<AIJob>, selected: seq<nat>, c: string) returns (r: seq<AIJob>)
    requires forall k :: 0 <= k < |selected| ==> selected[k] < |jobs|
    ensures |r| == |jobs|
    ensures forall i :: 0 <= i < |jobs| ==> r[i] == if i in selected then WithCategory(jobs[i], c) else jobs[i]
  {
    r := jobs;
    for k := 0 to |selected|
      invariant |r| == |jobs|
      invariant forall i :: 0 <= i < |jobs| ==> r[i] == if i in selected[..k] then WithCategory(jobs[i], c) else jobs[i]
    {
      assert selected[..k + 1] == selected[..k] + [selected[k]];
      r := r[selected[k] := WithCategory(r[selected[k]], c)];
    }
    assert selected[..|selected|] == selected;
  }

  /** `results.forEach((job) => (job.category = "Boston AI"))`. */
  method LabelBoston(results: seq<AIJob>) returns (r: seq<AIJob>)
    ensures r == Map(BostonTag, results)
  {
    var everyone := seq(|results|, k => k);
    forall k | 0 <= k < |results| ensures k in everyone {
      assert everyone[k] == k;
    }
    r := AssignCategory(results, everyone, "Boston AI");
  }

  /** The records outside Boston filtered out of `results` and labelled
      "Other US AI"; `results` keeps every record. */
  method LabelOutsideBoston(results: seq<AIJob>) returns (r: seq<AIJob>)
    ensures r == Map(UsTag, results)
  {
    var outside := Matching(results, OutsideBoston);
    r := AssignCategory(results, outside, "Other US AI");
  }

  /** The C2C pass: the records whose text passes the C2C test, labelled "C2C"
      over whatever label they had, and how many there were. */
  method LabelC2C(allResults: seq<AIJob>) returns (r: seq<AIJob>, c2c: nat)
    ensures r == Map(C2CTag, allResults)
    ensures c2c == Count(allResults, IsC2C)
  {
    var c2cResults := Matching(allResults, IsC2C);
    c2c := |c2cResults|;
    r := AssignCategory(allResults, c2cResults, "C2C");
  }

  /** `scrapeDice(keyword, location, 3)`: `None` when it rejects. */
  method SearchCall(search: Search, keyword: string, location: string) returns (r: Option<seq<AIJob>>)
    ensures r.None? <==> CallFails(search, keyword, location)
    ensures r.Some? ==> r.value == Scraped(search(keyword, location), CallPages)
  {
    var lookedUp;
    r, lookedUp := ScrapeDice(search(keyword, location), CallPages);
  }

  /** The counts the runner reports. */
  datatype Report = Report(allResults: seq<AIJob>, totalCollected: nat,
                           bostonAI: nat, otherUSAI: nat, c2c: nat)

  /** The Boston pass: for each keyword in turn, the call's records all
      labelled "Boston AI" and appended. */
  method BostonSearches(search: Search) returns (r: Option<seq<AIJob>>)
    ensures r.None? <==> PassFails(search, BostonMA)
    ensures r.Some? ==> r.value == BostonPass(search)
  {
    var allResults: seq<AIJob> := [];
    for i := 0 to |AiKeywords|
      invariant allResults == Pass(search, BostonMA, BostonTag, i)
      invariant !SomeCallFails(search, BostonMA, i)
    {
      var results := SearchCall(search, AiKeywords[i], BostonMA);
      if results.None? {
        SomeCallFailsLater(search, BostonMA, i + 1, |AiKeywords|);
        return None;
      }
      var labelled := LabelBoston(results.value);
      allResults := allResults + labelled;
    }
    r := Some(allResults);
  }

  /** The United States pass: for each keyword in turn, the call's records
      outside Boston labelled "Other US AI", and all of its records appended. */
  method UsSearches(search: Search) returns (r: Option<seq<AIJob>>)
    ensures r.None? <==> PassFails(search, UnitedStates)
    ensures r.Some? ==> r.value == UsPass(search)
  {
    var allResults: seq<AIJob> := [];
    for i := 0 to |AiKeywords|
      invariant allResults == Pass(search, UnitedStates, UsTag, i)
      invariant !SomeCallFails(search, UnitedStates, i)
    {
      var results := SearchCall(search, AiKeywords[i], UnitedStates);
      if results.None? {
        SomeCallFailsLater(search, UnitedStates, i + 1, |AiKeywords|);
        return None;
      }
      var labelled := LabelOutsideBoston(results.value);
      allResults := allResults + labelled;
    }
    r := Some(allResults);
  }

  /** The runner: the Boston pass, the United States pass, then the C2C pass
      over everything, with the counts taken afterwards. Nothing is returned
      when a call rejects. */
  method Run(search: Search) returns (report: Option<Report>)
    ensures report.None? <==> RunFails(search)
    ensures report.Some? ==> var all := FinalResults(search);
      report.value == Report(all, |all|, Count(all, IsBostonAI), Count(all, IsOtherUSAI), Count(all, IsC2C))
  {
    var boston := BostonSearches(search);
    if boston.None? {
      return None;
    }
    var us := UsSearches(search);
    if us.None? {
      return None;
    }
    var both := boston.value + us.value;
    var allResults, c2c := LabelC2C(both);
    C2CTextKept(both);
    var bostonAI := |Matching(allResults, IsBostonAI)|;
    var otherUSAI := |Matching(allResults, IsOtherUSAI)|;
    report := Some(Report(allResults, |allResults|, bostonAI, otherUSAI, c2c));
  }

  /** The C2C pass changes no record's C2C test. */
  lemma {:induction false} C2CTextKept(s: seq<AIJob>)
    ensures Count(Map(C2CTag, s), IsC2C) == Count(s, IsC2C)
    decreases |s|
  {
    if s != [] {
      var init := s[..|s| - 1];
      assert Map(C2CTag, s)[..|s| - 1] == Map(C2CTag, init);
      C2CTextKept(init);
    }
  }

  // ----- counting

  lemma {:induction false} CountAppend(a: seq<AIJob>, b: seq<AIJob>, p: AIJob -> bool)
    ensures Count(a + b, p) == Count(a, p) + Count(b, p)
    decreases |b|
  {
    if b != [] {
      assert (a + b)[..|a + b| - 1] == a + b[..|b| - 1];
      CountAppend(a, b[..|b| - 1], p);
    } else {
      assert a + b == a;
    }
  }

  /** Two sequences of the same length whose tests agree position by position
      have the same count. */
  lemma {:induction false} CountPointwise(s: seq<AIJob>, t: seq<AIJob>, p: AIJob -> bool, q: AIJob -> bool)
    requires |s| == |t| && forall i :: 0 <= i < |s| ==> p(s[i]) == q(t[i])
    ensures Count(s, p) == Count(t, q)
    decreases |s|
  {
    if s != [] {
      CountPointwise(s[..|s| - 1], t[..|t| - 1], p, q);
    }
  }

  /** A test that always fails with its complement. */
  lemma {:induction false} CountComplement(s: seq<AIJob>, p: AIJob -> bool, q: AIJob -> bool)
    requires forall i :: 0 <= i < |s| ==> q(s[i]) == !p(s[i])
    ensures Count(s, q) == |s| - Count(s, p)
    decreases |s|
  {
    if s != [] {
      CountComplement(s[..|s| - 1], p, q);
    }
  }

  lemma {:induction false} CountNone(s: seq<AIJob>, p: AIJob -> bool)
    requires forall i :: 0 <= i < |s| ==> !p(s[i])
    ensures Count(s, p) == 0
    decreases |s|
  {
    if s != [] {
      CountNone(s[..|s| - 1], p);
    }
  }

  // ----- what the passes leave behind

  /** Every record is labelled "Boston AI". */
  predicate LabelledBoston(s: seq<AIJob>) {
    forall i :: 0 <= i < |s| ==> IsBostonAI(s[i])
  }

  /** Every record outside Boston is labelled "Other US AI", every other one
      has no category. */
  predicate LabelledOutsideBoston(s: seq<AIJob>) {
    forall i :: 0 <= i < |s| ==> s[i].category == if OutsideBoston(s[i]) then Some("Other US AI") else None
  }

  lemma LabelledAppend(a: seq<AIJob>, b: seq<AIJob>)
    ensures LabelledBoston(a) && LabelledBoston(b) ==> LabelledBoston(a + b)
    ensures LabelledOutsideBoston(a) && LabelledOutsideBoston(b) ==> LabelledOutsideBoston(a + b)
  {
    if LabelledBoston(a) && LabelledBoston(b) {
      forall i | 0 <= i < |a + b| ensures IsBostonAI((a + b)[i]) {
        if i >= |a| { assert (a + b)[i] == b[i - |a|]; }
      }
    }
    if LabelledOutsideBoston(a) && LabelledOutsideBoston(b) {
      forall i | 0 <= i < |a + b|
        ensures (a + b)[i].category == if OutsideBoston((a + b)[i]) then Some("Other US AI") else None
      {
        if i >= |a| { assert (a + b)[i] == b[i - |a|]; }
      }
    }
  }

  /** Every record of the Boston pass is labelled "Boston AI". */
  lemma {:induction false} BostonPassLabels(search: Search, n: nat)
    requires n <= |AiKeywords|
    ensures LabelledBoston(Pass(search, BostonMA, BostonTag, n))
  {
    if n > 0 {
      BostonPassLabels(search, n - 1);
      var tagged := Map(BostonTag, Scraped(search(AiKeywords[n - 1], BostonMA), CallPages));
      assert LabelledBoston(tagged);
      LabelledAppend(Pass(search, BostonMA, BostonTag, n - 1), tagged);
    }
  }

  /** A record of the United States pass is labelled "Other US AI" when its
      location is outside Boston, and has no category otherwise. */
  lemma {:induction false} UsPassLabels(search: Search, n: nat)
    requires n <= |AiKeywords|
    ensures LabelledOutsideBoston(Pass(search, UnitedStates, UsTag, n))
  {
    if n > 0 {
      UsPassLabels(search, n - 1);
      var pages := search(AiKeywords[n - 1], UnitedStates);
      var raw := Scraped(pages, CallPages);
      CollectedUncategorised(pages, PagesScraped(pages, CallBound(pages, CallPages)));
      var tagged := Map(UsTag, raw);
      forall i | 0 <= i < |tagged|
        ensures tagged[i].category == if OutsideBoston(tagged[i]) then Some("Other US AI") else None
      {
        assert raw[i] in raw;
      }
      LabelledAppend(Pass(search, UnitedStates, UsTag, n - 1), tagged);
    }
  }

  /** Every record appended: the run keeps as many records as its fourteen
      calls return, with no deduplication. */
  lemma {:induction false} PassLength(search: Search, location: string, tag: AIJob -> AIJob, n: nat)
    requires n <= |AiKeywords|
    ensures |Pass(search, location, tag, n)| == CallTotal(search, location, n)
  {
    if n > 0 {
      PassLength(search, location, tag, n - 1);
    }
  }

  lemma TotalCollected(search: Search)
    ensures |FinalResults(search)| == CallTotal(search, BostonMA, |AiKeywords|) + CallTotal(search, UnitedStates, |AiKeywords|)
  {
    PassLength(search, BostonMA, BostonTag, |AiKeywords|);
    PassLength(search, UnitedStates, UsTag, |AiKeywords|);
  }

  /** The category a record ends with after the C2C pass over `b + u`. */
  lemma CategoryAfterC2C(b: seq<AIJob>, u: seq<AIJob>, i: nat)
    requires LabelledBoston(b) && LabelledOutsideBoston(u) && i < |b| + |u|
    ensures var j := Map(C2CTag, b + u)[i];
      j.category ==
        if IsC2C(j) then Some("C2C")
        else if i < |b| then Some("Boston AI")
        else if OutsideBoston(j) then Some("Other US AI")
        else None
  {
    if i >= |b| {
      assert (b + u)[i] == u[i - |b|];
    }
  }

  /** The category each record of the run ends with: "C2C" when its text
      passes the C2C test, whatever it had before; otherwise "Boston AI" for a
      record of the Boston pass, "Other US AI" for a record of the other pass
      outside Boston, and none for the rest. */
  lemma FinalCategory(search: Search, i: nat)
    requires i < |FinalResults(search)|
    ensures var j := FinalResults(search)[i];
      j.category ==
        if IsC2C(j) then Some("C2C")
        else if i < |BostonPass(search)| then Some("Boston AI")
        else if OutsideBoston(j) then Some("Other US AI")
        else None
  {
    BostonPassLabels(search, |AiKeywords|);
    UsPassLabels(search, |AiKeywords|);
    CategoryAfterC2C(BostonPass(search), UsPass(search), i);
  }

  predicate StaysOtherUSAI(j: AIJob) {
    OutsideBoston(j) && !IsC2C(j)
  }

  predicate NotC2C(j: AIJob) {
    !IsC2C(j)
  }

  lemma MapAppend(f: AIJob -> AIJob, a: seq<AIJob>, b: seq<AIJob>)
    ensures Map(f, a + b) == Map(f, a) + Map(f, b)
  {
    assert forall i :: 0 <= i < |a| + |b| ==> Map(f, a + b)[i] == (Map(f, a) + Map(f, b))[i];
  }

  lemma BostonSurvivors(b: seq<AIJob>)
    requires LabelledBoston(b)
    ensures Count(Map(C2CTag, b), IsBostonAI) == |b| - Count(b, IsC2C)
  {
    var tb := Map(C2CTag, b);
    forall i | 0 <= i < |b| ensures IsBostonAI(tb[i]) == NotC2C(b[i]) {
      assert tb[i] == C2CTag(b[i]);
    }
    CountPointwise(tb, b, IsBostonAI, NotC2C);
    CountComplement(b, IsC2C, NotC2C);
  }

  lemma NoBostonAIOutsideBostonPass(u: seq<AIJob>)
    requires LabelledOutsideBoston(u)
    ensures Count(Map(C2CTag, u), IsBostonAI) == 0
  {
    var tu := Map(C2CTag, u);
    forall i | 0 <= i < |u| ensures !IsBostonAI(tu[i]) {
      assert tu[i] == C2CTag(u[i]);
    }
    CountNone(tu, IsBostonAI);
  }

  lemma BostonAICountOf(b: seq<AIJob>, u: seq<AIJob>)
    requires LabelledBoston(b) && LabelledOutsideBoston(u)
    ensures Count(Map(C2CTag, b + u), IsBostonAI) == |b| - Count(b, IsC2C)
  {
    MapAppend(C2CTag, b, u);
    CountAppend(Map(C2CTag, b), Map(C2CTag, u), IsBostonAI);
    BostonSurvivors(b);
    NoBostonAIOutsideBostonPass(u);
  }

  lemma NoOtherUSAIInBostonPass(b: seq<AIJob>)
    requires LabelledBoston(b)
    ensures Count(Map(C2CTag, b), IsOtherUSAI) == 0
  {
    var tb := Map(C2CTag, b);
    forall i | 0 <= i < |b| ensures !IsOtherUSAI(tb[i]) {
      assert tb[i] == C2CTag(b[i]);
    }
    CountNone(tb, IsOtherUSAI);
  }

  lemma OtherUSSurvivors(u: seq<AIJob>)
    requires LabelledOutsideBoston(u)
    ensures Count(Map(C2CTag, u), IsOtherUSAI) == Count(u, StaysOtherUSAI)
  {
    var tu := Map(C2CTag, u);
    forall i | 0 <= i < |u| ensures IsOtherUSAI(tu[i]) == StaysOtherUSAI(u[i]) {
      assert tu[i] == C2CTag(u[i]);
    }
    CountPointwise(tu, u, IsOtherUSAI, StaysOtherUSAI);
  }

  lemma OtherUSAICountOf(b: seq<AIJob>, u: seq<AIJob>)
    requires LabelledBoston(b) && LabelledOutsideBoston(u)
    ensures Count(Map(C2CTag, b + u), IsOtherUSAI) == Count(u, StaysOtherUSAI)
  {
    MapAppend(C2CTag, b, u);
    CountAppend(Map(C2CTag, b), Map(C2CTag, u), IsOtherUSAI);
    NoOtherUSAIInBostonPass(b);
    OtherUSSurvivors(u);
  }

  /** The reported counts, taken after the C2C pass: "Boston AI" is every
      Boston record but those relabelled "C2C", "Other US AI" every record of
      the other pass outside Boston that the C2C test does not claim, and the
      C2C count is the number of records labelled "C2C". */
  lemma ReportedCounts(search: Search)
    ensures var all, b, u := FinalResults(search), BostonPass(search), UsPass(search);
      Count(all, IsBostonAI) == |b| - Count(b, IsC2C) &&
      Count(all, IsOtherUSAI) == Count(u, StaysOtherUSAI) &&
      Count(all, IsLabelledC2C) == Count(all, IsC2C)
  {
    var all, b, u := FinalResults(search), BostonPass(search), UsPass(search);
    BostonPassLabels(search, |AiKeywords|);
    UsPassLabels(search, |AiKeywords|);
    BostonAICountOf(b, u);
    OtherUSAICountOf(b, u);
    forall i | 0 <= i < |all| ensures IsLabelledC2C(all[i]) == IsC2C(all[i]) {
      CategoryAfterC2C(b, u, i);
    }
    CountPointwise(all, all, IsLabelledC2C, IsC2C);
  }
}

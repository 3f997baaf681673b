/** The Dice search scraper of scrapeDice.js: read the total page count off
    the first results page, then walk the pages through the "Next" control,
    keeping one record per job card. */
module DiceScrape {
  import opened JsText
  import opened Patterns
  import opened Browser
  import opened Pagination

  /** One scraped job; each field is `null` when the card lacks its element. */
  datatype DiceJob = DiceJob(title: Option<string>, company: Option<string>,
                             location: Option<string>, link: Option<string>)

  /** The total page count detected on the first page: the number in the
      label's "of N" when the pattern `of\s+(\d+)` matches, and 1 when the
      section is missing, the pattern does not match, or the probe throws (the
      `catch` keeps the initial value). */
  function DetectTotalPages(indicator: PageIndicator): (total: int)
    ensures total >= 0
    ensures total != 1 ==> indicator.Section? && PageCountMatch(indicator.ariaLabel) == Some(total)
    ensures indicator.Section? && PageCountMatch(indicator.ariaLabel).Some? ==>
      total == PageCountMatch(indicator.ariaLabel).value
    ensures !(indicator.Section? && PageCountMatch(indicator.ariaLabel).Some?) ==> total == 1
  {
    match indicator
    case NoSection => 1
    case EvalError => 1
    case Section(ariaLabel) =>
      match PageCountMatch(ariaLabel)
      case None => 1
      case Some(n) => n
  }

  /** The label the page shows, "Page 1 of 11", gives 11 pages; every other
      shape of the indicator that does not match gives 1. */
  lemma DetectTotalPagesOfLabel(p: string, ws: string, digits: string, rest: string)
    requires forall k :: 0 <= k < |p| ==> !StartsAt(p, k, "of")
    requires ws != [] && forall k :: 0 <= k < |ws| ==> IsSpace(ws[k])
    requires digits != [] && AllDigits(digits)
    requires rest == [] || !IsDigit(rest[0])
    ensures DetectTotalPages(Section(p + "of" + ws + digits + rest)) == DecimalValue(digits)
    ensures DetectTotalPages(Section("Page 1 of 11")) == 11
    ensures DetectTotalPages(NoSection) == 1 && DetectTotalPages(EvalError) == 1
  {
    PageCountOfLabel(p, ws, digits, rest);
    PageCountOfSampleLabel();
  }

  /** The record of one card: title, company and location are the trimmed
      inner texts of their elements, the link is the title element's `href`. */
  function MapCard(c: Card): (j: DiceJob)
    ensures j.title.None? <==> c.titleLink.None?
    ensures j.link.None? <==> c.titleLink.None?
    ensures j.company.None? <==> c.companyText.None?
    ensures j.location.None? <==> c.locationText.None?
    ensures j.link.Some? ==> j.link.value == c.titleLink.value.href
    ensures j.title.Some? ==> j.title.value == Trim(c.titleLink.value.text)
    ensures j.company.Some? ==> j.company.value == Trim(c.companyText.value)
    ensures j.location.Some? ==> j.location.value == Trim(c.locationText.value)
  {
    DiceJob(
      if c.titleLink.Some? then Some(Trim(c.titleLink.value.text)) else None,
      if c.companyText.Some? then Some(Trim(c.companyText.value)) else None,
      if c.locationText.Some? then Some(Trim(c.locationText.value)) else None,
      if c.titleLink.Some? then Some(c.titleLink.value.href) else None)
  }

  /** The records of one page, one per card in card order. */
  function PageJobs(s: Snapshot): (r: seq<DiceJob>)
    ensures |r| == |s.cards| && forall i :: 0 <= i < |r| ==> r[i] == MapCard(s.cards[i])
  {
    seq(|s.cards|, i requires 0 <= i < |s.cards| => MapCard(s.cards[i]))
  }

  /** The page bound of the loop: `Math.min(maxPages, totalPages)`. */
  function Bound(pages: Pages, maxPages: int): int {
    Min(maxPages, DetectTotalPages(pages(0).indicator))
  }

  /** The counter's value when the loop ends after scraping `n` pages under
      `bound`: it stays 1 when no page is allowed, is one past the bound when
      the loop runs out, and stays on the page it broke on. */
  function FinalPageCount(bound: int, n: nat): int {
    if bound <= 0 then 1 else if n == bound then bound + 1 else n
  }

  /** One call: detect the total page count, then paginate. `allJobs` holds
      the records of the pages scraped, in page order; `pageCount` is the
      counter's final value; `lookedUp` lists the pages on which the "Next"
      control was looked up. */
  method ScrapeDice(pages: Pages, maxPages: int)
    returns (allJobs: seq<DiceJob>, pageCount: int, lookedUp: seq<nat>)
    ensures var bound, n := Bound(pages, maxPages), PagesScraped(pages, Bound(pages, maxPages));
      allJobs == Collected(pages, PageJobs, n) &&
      pageCount == FinalPageCount(bound, n) &&
      lookedUp == PageNumbers(|lookedUp|) &&
      (forall p :: p in lookedUp <==> 1 <= p <= n && p < bound)
  {
    var totalPages := DetectTotalPages(pages(0).indicator);
    allJobs, pageCount, lookedUp := Paginate(pages, maxPages, totalPages);
  }

  /** The pagination loop under `Math.min(maxPages, totalPages)`. */
  method Paginate(pages: Pages, maxPages: int, totalPages: int)
    returns (allJobs: seq<DiceJob>, pageCount: int, lookedUp: seq<nat>)
    ensures var bound := Min(maxPages, totalPages); var n := PagesScraped(pages, bound);
      allJobs == Collected(pages, PageJobs, n) &&
      pageCount == FinalPageCount(bound, n) &&
      lookedUp == PageNumbers(|lookedUp|) &&
      (forall p :: p in lookedUp <==> 1 <= p <= n && p < bound)
  {
    ghost var bound := Min(maxPages, totalPages);
    allJobs := [];
    pageCount := 1;
    lookedUp := [];
    var current: nat := 0;
    while pageCount <= Min(maxPages, totalPages)
      invariant 1 <= pageCount && (pageCount <= bound ==> current == pageCount - 1)
      invariant bound > 0 ==> pageCount <= bound + 1
      invariant bound <= 0 ==> pageCount == 1
      invariant forall p :: 0 <= p < pageCount - 1 && p < bound - 1 ==> !Stops(pages(p).next)
      invariant allJobs == Collected(pages, PageJobs, pageCount - 1)
      invariant lookedUp == PageNumbers(if pageCount <= bound then pageCount - 1 else if bound > 0 then bound - 1 else 0)
    {
      var snapshot := pages(current);
      var jobs := PageJobs(snapshot);
      allJobs := allJobs + jobs;
      if pageCount < Min(maxPages, totalPages) {
        lookedUp := lookedUp + [pageCount];
        match snapshot.next
        case Absent =>
          break;
        case Present(ariaDisabled) =>
          if ariaDisabled == Some("true") {
            break;
          }
          // the click and the wait for the navigation it starts: one advance
          current := current + 1;
      }
      pageCount := pageCount + 1;
    }
    ghost var n := if bound <= 0 then 0 else if pageCount > bound then bound else pageCount;
    assert IsPagesScraped(pages, bound, n);
    PagesScrapedUnique(pages, bound, n);
    PageNumbersMembers(|lookedUp|);
  }

  /** The number of pages the closing summary reports, `pageCount - 1`: the
      pages scraped when the loop ran out, one fewer when it broke on a missing
      or disabled "Next" control. */
  lemma ReportedPages(pages: Pages, maxPages: int)
    ensures var bound, n := Bound(pages, maxPages), PagesScraped(pages, Bound(pages, maxPages));
      (n == bound || bound <= 0 ==> FinalPageCount(bound, n) - 1 == n) &&
      (n < bound ==> FinalPageCount(bound, n) - 1 == n - 1 && Stops(pages(n - 1).next))
  {
  }

  /** No page allowed (`maxPages` or the detected total not positive): no page
      is scraped and nothing is kept. */
  lemma NothingWithoutPages(pages: Pages, maxPages: int)
    requires Bound(pages, maxPages) <= 0
    ensures PagesScraped(pages, Bound(pages, maxPages)) == 0
    ensures Collected(pages, PageJobs, PagesScraped(pages, Bound(pages, maxPages))) == []
  {
  }

  /** A card with every element present. */
  function SampleCard(i: nat): Card {
    Card(Some(Anchor("Data Analyst", "https://www.dice.com/job-detail/" + DecimalString(i))),
         Some("Acme"), Some("Boston, MA"), "Data Analyst\nAcme\nBoston, MA")
  }

  /** A session of three pages with 10, 10 and 5 cards whose third page has a
      disabled "Next" control and whose label reads "Page 1 of 11". */
  function ThreePageSession(): Pages {
    k =>
      if k == 0 then Snapshot(Section("Page 1 of 11"), seq(10, i requires 0 <= i => SampleCard(i)), Present(None))
      else if k == 1 then Snapshot(NoSection, seq(10, i requires 0 <= i => SampleCard(10 + i)), Present(Some("false")))
      else Snapshot(NoSection, seq(5, i requires 0 <= i => SampleCard(20 + i)), Present(Some("true")))
  }

  /** With `maxPages` 3 the loop keeps 25 records from 3 pages and reports 3
      pages: the third page is the last one allowed, so its disabled control is
      never looked up. */
  lemma ThreePageScenario()
    ensures var pages := ThreePageSession();
      var n := PagesScraped(pages, Bound(pages, 3));
      n == 3 && |Collected(pages, PageJobs, n)| == 25 &&
      FinalPageCount(Bound(pages, 3), n) - 1 == 3
  {
    var pages := ThreePageSession();
    ThreePageBound();
    ThreePageCount();
    ThreePageRecords();
  }

  lemma ThreePageBound()
    ensures Bound(ThreePageSession(), 3) == 3
  {
    PageCountOfSampleLabel();
    assert ThreePageSession()(0).indicator == Section("Page 1 of 11");
  }

  lemma ThreePageCount()
    ensures PagesScraped(ThreePageSession(), 3) == 3
  {
    var pages := ThreePageSession();
    assert !Stops(pages(0).next) && !Stops(pages(1).next);
    assert IsPagesScraped(pages, 3, 3);
    PagesScrapedUnique(pages, 3, 3);
  }

  lemma ThreePageRecords()
    ensures |Collected(ThreePageSession(), PageJobs, 3)| == 25
  {
    var pages := ThreePageSession();
    assert |pages(0).cards| == 10 && |pages(1).cards| == 10 && |pages(2).cards| == 5;
    assert |Collected(pages, PageJobs, 1)| == 10;
    assert |Collected(pages, PageJobs, 2)| == 20;
  }
}

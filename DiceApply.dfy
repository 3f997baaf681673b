/** The Easy Apply survey of autoApplyDice.js: visit the first five search
    pages through the `page` query parameter, keep up to ten job-detail links
    from each, and open every link not seen before exactly once, recording
    whether its detail page offers an Easy Apply button. */
module DiceApply {
  import opened JsText

  /** A search page as the crawl sees it: the wait for job cards timed out,
      or the `href`s of the links inside the cards, in document order. */
  datatype SearchView = CardsTimedOut | CardLinks(hrefs: seq<string>)

  /** The look-up of an Easy Apply button on a detail page: found, not found,
      or an exception with its message. */
  datatype DetailProbe = EasyApplyButton | NoEasyApplyButton | ProbeThrew(message: string)

  datatype Status = EasyApply | NoEasyApply | Error(message: string)

  /** One entry of `results`. */
  datatype ApplyEntry = ApplyEntry(link: string, page: nat, status: Status)

  /** The browser steps the crawl takes, in order. */
  datatype Action = LoadSearch(url: string) | OpenDetail(link: string) | CloseDetail(link: string)

  /** A link as it appears in the kept list of a search page. */
  datatype Sighting = Sighting(link: string, page: nat)

  const SearchUrl := "https://www.dice.com/jobs?q=Data+Analyst&location=Boston%2C%20MA"

  /** The number of search pages visited. */
  const PageLimit := 5

  /** The number of links kept from one search page. */
  const LinksPerPage := 10

  /** The address of search page `pageNum`. */
  function SearchPageUrl(pageNum: nat): string {
    SearchUrl + "&page=" + DecimalString(pageNum)
  }

  /** Different pages have different addresses. */
  lemma SearchPageUrlInjective(m: nat, n: nat)
    requires SearchPageUrl(m) == SearchPageUrl(n)
    ensures m == n
  {
    var p := SearchUrl + "&page=";
    assert SearchPageUrl(m)[|p|..] == DecimalString(m);
    assert SearchPageUrl(n)[|p|..] == DecimalString(n);
    DecimalStringInjective(m, n);
  }

  /** The test of the link filter: `h && h.includes('/job-detail/')`. */
  predicate IsJobDetail(h: string) {
    h != "" && Contains(h, "/job-detail/")
  }

  /** The job-detail links among `hrefs`, in order. */
  function JobDetailLinks(hrefs: seq<string>): (r: seq<string>)
    ensures |r| <= |hrefs|
    ensures forall k :: 0 <= k < |r| ==> IsJobDetail(r[k]) && r[k] in hrefs
    ensures forall h :: h in hrefs && IsJobDetail(h) ==> h in r
  {
    if hrefs == [] then []
    else
      var init := JobDetailLinks(hrefs[..|hrefs| - 1]);
      var h := hrefs[|hrefs| - 1];
      assert forall g :: g in hrefs ==> g in hrefs[..|hrefs| - 1] || g == h;
      if IsJobDetail(h) then init + [h] else init
  }

  /** The filter keeps order and multiplicity: filtering a concatenation is
      concatenating the filtered parts (with `JobDetailLinksStep` this fixes the
      filter's result on every list). */
  lemma {:induction false} JobDetailLinksAppend(a: seq<string>, b: seq<string>)
    ensures JobDetailLinks(a + b) == JobDetailLinks(a) + JobDetailLinks(b)
    decreases |b|
  {
    if b == [] {
      assert a + b == a;
    } else {
      var b', h := b[..|b| - 1], b[|b| - 1];
      var t := if IsJobDetail(h) then [h] else [];
      assert b == b' + [h];
      assert a + b == (a + b') + [h];
      JobDetailLinksAppend(a, b');
      JobDetailLinksStep(a + b', h);
      JobDetailLinksStep(b', h);
      assert JobDetailLinks(a + b) == (JobDetailLinks(a) + JobDetailLinks(b')) + t;
      assert JobDetailLinks(b) == JobDetailLinks(b') + t;
    }
  }

  /** One step of the filter: a link appended at the end is kept exactly when
      it passes the test, after the links kept before it. */
  lemma JobDetailLinksStep(init: seq<string>, h: string)
    ensures JobDetailLinks(init + [h]) == JobDetailLinks(init) + if IsJobDetail(h) then [h] else []
  {
    var s := init + [h];
    assert s[..|s| - 1] == init;
    assert s[|s| - 1] == h;
  }

  /** The links kept from a search page: none when the card wait timed out,
      else the first ten job-detail links. */
  function KeptLinks(v: SearchView): seq<string> {
    match v
    case CardsTimedOut => []
    case CardLinks(hrefs) => Prefix(JobDetailLinks(hrefs), LinksPerPage)
  }

  /** What the kept list holds: at most ten links, each a job-detail link of
      the page, taken from the front of the page's job-detail links. */
  lemma KeptLinksSpec(v: SearchView)
    ensures |KeptLinks(v)| <= LinksPerPage
    ensures v.CardsTimedOut? ==> KeptLinks(v) == []
    ensures v.CardLinks? ==> (KeptLinks(v) <= JobDetailLinks(v.hrefs) &&
      (|JobDetailLinks(v.hrefs)| <= LinksPerPage ==> KeptLinks(v) == JobDetailLinks(v.hrefs)))
    ensures forall k :: 0 <= k < |KeptLinks(v)| ==> IsJobDetail(KeptLinks(v)[k]) && KeptLinks(v)[k] in v.hrefs
  {
    if v.CardLinks? {
      var all := JobDetailLinks(v.hrefs);
      forall k | 0 <= k < |KeptLinks(v)| ensures IsJobDetail(KeptLinks(v)[k]) && KeptLinks(v)[k] in v.hrefs {
        assert KeptLinks(v)[k] == all[k];
      }
    }
  }

  /** The status `processLink` records for a probe outcome. */
  function StatusOf(p: DetailProbe): (s: Status)
    ensures s.EasyApply? <==> p.EasyApplyButton?
    ensures s.NoEasyApply? <==> p.NoEasyApplyButton?
    ensures s.Error? <==> p.ProbeThrew?
    ensures s.Error? ==> s.message == p.message
  {
    match p
    case EasyApplyButton => EasyApply
    case NoEasyApplyButton => NoEasyApply
    case ProbeThrew(message) => Error(message)
  }

  function EntryOf(s: Sighting, probe: string -> DetailProbe): ApplyEntry {
    ApplyEntry(s.link, s.page, StatusOf(probe(s.link)))
  }

  /** `processLink(link, pageNum, idx)`: open a detail page, record exactly one
      entry for the link, and close the page on every path out. The look-up
      of the button is the only step whose failure is not swallowed. */
  method ProcessLink(results: seq<ApplyEntry>, link: string, pageNum: nat, probe: DetailProbe)
    returns (after: seq<ApplyEntry>, actions: seq<Action>)
    ensures after == results + [ApplyEntry(link, pageNum, StatusOf(probe))]
    ensures actions == [OpenDetail(link), CloseDetail(link)]
  {
    actions := [OpenDetail(link)];
    match probe {
      case EasyApplyButton =>
        after := results + [ApplyEntry(link, pageNum, EasyApply)];
      case NoEasyApplyButton =>
        after := results + [ApplyEntry(link, pageNum, NoEasyApply)];
      case ProbeThrew(message) =>
        after := results + [ApplyEntry(link, pageNum, Error(message))];
    }
    // the `finally` block
    actions := actions + [CloseDetail(link)];
  }

  // ----- the specification of the crawl

  /** Links, each with the number of the page they were kept from. */
  function Tagged(links: seq<string>, p: nat): (r: seq<Sighting>)
    ensures |r| == |links|
    ensures forall k :: 0 <= k < |r| ==> r[k] == Sighting(links[k], p)
  {
    seq(|links|, k requires 0 <= k < |links| => Sighting(links[k], p))
  }

  /** The kept links of every search page. */
  function KeptPages(view: nat -> SearchView): nat -> seq<string> {
    (p: nat) => KeptLinks(view(p))
  }

  /** Every kept link of pages 1 to `n`, in the order the crawl meets them. */
  function Sightings(kept: nat -> seq<string>, n: nat): seq<Sighting> {
    if n == 0 then [] else Sightings(kept, n - 1) + Tagged(kept(n), n)
  }

  /** The links of a list of sightings. */
  function Links(s: seq<Sighting>): set<string> {
    if s == [] then {} else Links(s[..|s| - 1]) + {s[|s| - 1].link}
  }

  predicate DistinctLinks(s: seq<Sighting>) {
    forall i, j :: 0 <= i < j < |s| ==> s[i].link != s[j].link
  }

  /** The sightings that find their link not yet visited, in order. */
  function FirstSightings(s: seq<Sighting>): seq<Sighting> {
    if s == [] then []
    else
      var d := FirstSightings(s[..|s| - 1]);
      if s[|s| - 1].link in Links(d) then d else d + [s[|s| - 1]]
  }

  /** Every link of the list is visited, and only those. */
  lemma {:induction false} FirstSightingsLinks(s: seq<Sighting>)
    ensures Links(FirstSightings(s)) == Links(s)
    decreases |s|
  {
    if s != [] {
      var init, x := s[..|s| - 1], s[|s| - 1];
      FirstSightingsLinks(init);
      LinksAppend(FirstSightings(init), x);
    }
  }

  /** No link is processed twice. */
  lemma {:induction false} FirstSightingsDistinct(s: seq<Sighting>)
    ensures DistinctLinks(FirstSightings(s))
    decreases |s|
  {
    if s != [] {
      var init, x := s[..|s| - 1], s[|s| - 1];
      var d := FirstSightings(init);
      FirstSightingsDistinct(init);
      if x.link !in Links(d) {
        LinksMembers(d, x.link);
      }
    }
  }

  lemma LinksAppend(s: seq<Sighting>, x: Sighting)
    ensures Links(s + [x]) == Links(s) + {x.link}
  {
    assert (s + [x])[..|s|] == s;
  }

  /** A link is among the links of a list exactly when some sighting has it. */
  lemma {:induction false} LinksMembers(s: seq<Sighting>, l: string)
    ensures l in Links(s) <==> exists k :: 0 <= k < |s| && s[k].link == l
    decreases |s|
  {
    if s != [] {
      var init := s[..|s| - 1];
      LinksMembers(init, l);
      if l in Links(init) {
        var k :| 0 <= k < |init| && init[k].link == l;
        assert s[k].link == l;
      }
      if exists k :: 0 <= k < |s| && s[k].link == l {
        var k :| 0 <= k < |s| && s[k].link == l;
        if k < |init| {
          assert init[k].link == l;
        }
      }
    }
  }

  /** The entries the crawl records for a list of first sightings. */
  function Entries(d: seq<Sighting>, probe: string -> DetailProbe): (r: seq<ApplyEntry>)
    ensures |r| == |d| && forall k :: 0 <= k < |d| ==> r[k] == EntryOf(d[k], probe)
  {
    seq(|d|, k requires 0 <= k < |d| => EntryOf(d[k], probe))
  }

  function ResultLinks(results: seq<ApplyEntry>): (r: seq<string>)
    ensures |r| == |results| && forall k :: 0 <= k < |r| ==> r[k] == results[k].link
  {
    seq(|results|, k requires 0 <= k < |results| => results[k].link)
  }

  /** The addresses of search pages 1 to `n`, in order. */
  function SearchUrls(n: nat): (r: seq<string>)
    ensures |r| == n && forall k :: 0 <= k < n ==> r[k] == SearchPageUrl(k + 1)
  {
    seq(n, k requires 0 <= k < n => SearchPageUrl(k + 1))
  }

  lemma SearchUrlsStep(n: nat)
    requires n >= 1
    ensures SearchUrls(n) == SearchUrls(n - 1) + [SearchPageUrl(n)]
  {
  }

  /** A page whose card wait timed out adds no sighting. */
  lemma TimedOutPage(view: nat -> SearchView, n: nat)
    requires n >= 1 && view(n).CardsTimedOut?
    ensures Sightings(KeptPages(view), n) == Sightings(KeptPages(view), n - 1)
  {
    assert KeptPages(view)(n) == [];
  }

  /** The search pages loaded, in order. */
  function Loads(t: seq<Action>): seq<string> {
    if t == [] then []
    else Loads(t[..|t| - 1]) + (if t[|t| - 1].LoadSearch? then [t[|t| - 1].url] else [])
  }

  /** The detail pages opened, in order. */
  function Opened(t: seq<Action>): seq<string> {
    if t == [] then []
    else Opened(t[..|t| - 1]) + (if t[|t| - 1].OpenDetail? then [t[|t| - 1].link] else [])
  }

  /** Every detail page is closed by the very next step. */
  predicate ClosedAfterOpen(t: seq<Action>) {
    forall i :: 0 <= i < |t| && t[i].OpenDetail? ==> i + 1 < |t| && t[i + 1] == CloseDetail(t[i].link)
  }

  lemma LoadStep(t: seq<Action>, url: string)
    requires ClosedAfterOpen(t)
    ensures Loads(t + [LoadSearch(url)]) == Loads(t) + [url]
    ensures Opened(t + [LoadSearch(url)]) == Opened(t)
    ensures ClosedAfterOpen(t + [LoadSearch(url)])
  {
    assert (t + [LoadSearch(url)])[..|t|] == t;
  }

  lemma DetailStep(t: seq<Action>, link: string)
    requires ClosedAfterOpen(t)
    ensures Loads(t + [OpenDetail(link), CloseDetail(link)]) == Loads(t)
    ensures Opened(t + [OpenDetail(link), CloseDetail(link)]) == Opened(t) + [link]
    ensures ClosedAfterOpen(t + [OpenDetail(link), CloseDetail(link)])
  {
    var t1 := t + [OpenDetail(link)];
    var t2 := t + [OpenDetail(link), CloseDetail(link)];
    assert t1[..|t|] == t;
    assert t2[..|t1|] == t1;
  }

  /** One sighting more: a link already visited adds nothing; a new link adds
      one entry and is visited. */
  lemma SightingStep(seen: seq<Sighting>, x: Sighting, probe: string -> DetailProbe)
    ensures x.link in Links(seen) ==> FirstSightings(seen + [x]) == FirstSightings(seen)
    ensures x.link !in Links(seen) ==>
      Entries(FirstSightings(seen + [x]), probe) == Entries(FirstSightings(seen), probe) + [EntryOf(x, probe)]
    ensures Links(seen + [x]) == Links(seen) + {x.link}
  {
    assert (seen + [x])[..|seen|] == seen;
    FirstSightingsLinks(seen);
  }

  // ----- the crawl

  /** One pass of the inner loop: skip a link already in `visited`; otherwise
      add it, then process it. `now` is every sighting before this one. */
  method VisitLink(results: seq<ApplyEntry>, visited: set<string>, trace: seq<Action>,
                   x: Sighting, probe: string -> DetailProbe, ghost now: seq<Sighting>)
    returns (results': seq<ApplyEntry>, visited': set<string>, trace': seq<Action>)
    requires results == Entries(FirstSightings(now), probe) && visited == Links(now)
    requires Opened(trace) == ResultLinks(results) && ClosedAfterOpen(trace)
    ensures results' == Entries(FirstSightings(now + [x]), probe) && visited' == Links(now + [x])
    ensures Loads(trace') == Loads(trace)
    ensures Opened(trace') == ResultLinks(results') && ClosedAfterOpen(trace')
  {
    SightingStep(now, x, probe);
    var link := x.link;
    if link in visited {
      return results, visited, trace;
    }
    visited' := visited + {link};
    var actions;
    results', actions := ProcessLink(results, link, x.page, probe(link));
    DetailStep(trace, link);
    trace' := trace + actions;
    ResultLinksAppend(results, results'[|results|]);
  }

  lemma ResultLinksAppend(results: seq<ApplyEntry>, e: ApplyEntry)
    ensures ResultLinks(results + [e]) == ResultLinks(results) + [e.link]
  {
  }

  /** The inner loop over the kept links of one page. `seen` is every
      sighting before this page. */
  method VisitPage(results: seq<ApplyEntry>, visited: set<string>, trace: seq<Action>,
                   linksOnPage: seq<string>, pageNum: nat, probe: string -> DetailProbe, ghost seen: seq<Sighting>)
    returns (results': seq<ApplyEntry>, visited': set<string>, trace': seq<Action>)
    requires results == Entries(FirstSightings(seen), probe) && visited == Links(seen)
    requires Opened(trace) == ResultLinks(results) && ClosedAfterOpen(trace)
    ensures var seen' := seen + Tagged(linksOnPage, pageNum);
      results' == Entries(FirstSightings(seen'), probe) && visited' == Links(seen')
    ensures Loads(trace') == Loads(trace)
    ensures Opened(trace') == ResultLinks(results') && ClosedAfterOpen(trace')
  {
    results', visited', trace' := results, visited, trace;
    ghost var page := Tagged(linksOnPage, pageNum);
    ExtendSlice(seen, page, 0);
    for idx := 0 to |linksOnPage|
      invariant results' == Entries(FirstSightings(seen + page[..idx]), probe)
      invariant visited' == Links(seen + page[..idx])
      invariant Loads(trace') == Loads(trace)
      invariant Opened(trace') == ResultLinks(results') && ClosedAfterOpen(trace')
    {
      ghost var now := seen + page[..idx];
      ExtendSlice(seen, page, idx);
      results', visited', trace' := VisitLink(results', visited', trace', Sighting(linksOnPage[idx], pageNum), probe, now);
    }
    ExtendSlice(seen, page, |page|);
  }

  lemma ExtendSlice<T>(a: seq<T>, b: seq<T>, i: nat)
    requires i <= |b|
    ensures i == 0 ==> a + b[..i] == a
    ensures i == |b| ==> a + b[..i] == a + b
    ensures i < |b| ==> a + b[..i + 1] == (a + b[..i]) + [b[i]]
  {
    if i < |b| {
      assert b[..i + 1] == b[..i] + [b[i]];
    }
  }

  /** The page loop: for pages 1 to 5, load the page by its address; skip it
      when its card wait times out; otherwise visit its kept links.
      `visited` and `results` are the crawl's set and array, `trace` the
      browser steps. */
  method Crawl(view: nat -> SearchView, probe: string -> DetailProbe)
    returns (results: seq<ApplyEntry>, visited: set<string>, trace: seq<Action>)
    ensures results == Entries(FirstSightings(Sightings(KeptPages(view), PageLimit)), probe)
    ensures visited == Links(Sightings(KeptPages(view), PageLimit))
    ensures Loads(trace) == SearchUrls(PageLimit)
    ensures Opened(trace) == ResultLinks(results)
    ensures ClosedAfterOpen(trace)
  {
    results, visited, trace := [], {}, [];
    for pageNum := 1 to PageLimit + 1
      invariant results == Entries(FirstSightings(Sightings(KeptPages(view), pageNum - 1)), probe)
      invariant visited == Links(Sightings(KeptPages(view), pageNum - 1))
      invariant Loads(trace) == SearchUrls(pageNum - 1)
      invariant Opened(trace) == ResultLinks(results)
      invariant ClosedAfterOpen(trace)
    {
      LoadStep(trace, SearchPageUrl(pageNum));
      trace := trace + [LoadSearch(SearchPageUrl(pageNum))];
      SearchUrlsStep(pageNum);
      if view(pageNum).CardsTimedOut? {
        TimedOutPage(view, pageNum);
        continue;
      }
      var linksOnPage := KeptLinks(view(pageNum));
      results, visited, trace := VisitPage(results, visited, trace, linksOnPage, pageNum, probe, Sightings(KeptPages(view), pageNum - 1));
    }
  }

  // ----- what the crawl promises

  /** Distinct links: as many links as sightings. */
  lemma {:induction false} DistinctLinksCount(d: seq<Sighting>)
    requires DistinctLinks(d)
    ensures |Links(d)| == |d|
    decreases |d|
  {
    if d != [] {
      var init := d[..|d| - 1];
      assert DistinctLinks(init);
      DistinctLinksCount(init);
      LinksMembers(init, d[|d| - 1].link);
    }
  }

  /** Each first sighting is the earliest sighting of its link. */
  lemma {:induction false} FirstSightingsEarliest(s: seq<Sighting>, i: nat)
    requires i < |FirstSightings(s)|
    ensures exists j :: 0 <= j < |s| && FirstSightings(s)[i] == s[j] &&
                         (forall k :: 0 <= k < j ==> s[k].link != s[j].link)
    decreases |s|
  {
    var init := s[..|s| - 1];
    var d := FirstSightings(init);
    if i < |d| {
      FirstSightingsEarliest(init, i);
      var j :| 0 <= j < |init| && d[i] == init[j] && forall k :: 0 <= k < j ==> init[k].link != init[j].link;
      assert s[j] == init[j];
      assert forall k :: 0 <= k < j ==> s[k] == init[k];
    } else {
      var j := |s| - 1;
      FirstSightingsLinks(init);
      LinksMembers(init, s[j].link);
      assert forall k :: 0 <= k < j ==> s[k] == init[k];
    }
  }

  /** The sightings of pages 1 to `n` carry page numbers 1 to `n`, in
      non-decreasing order. */
  lemma {:induction false} SightingsPages(kept: nat -> seq<string>, n: nat)
    ensures forall k :: 0 <= k < |Sightings(kept, n)| ==> 1 <= Sightings(kept, n)[k].page <= n
    ensures forall a, b :: 0 <= a < b < |Sightings(kept, n)| ==> Sightings(kept, n)[a].page <= Sightings(kept, n)[b].page
    decreases n
  {
    if n > 0 {
      SightingsPages(kept, n - 1);
      var prev, page := Sightings(kept, n - 1), Tagged(kept(n), n);
      assert forall k :: |prev| <= k < |prev| + |page| ==> Sightings(kept, n)[k] == page[k - |prev|];
    }
  }

  /** Every kept link of a page from 1 to `n` is sighted with that page. */
  lemma {:induction false} SightingsMember(kept: nat -> seq<string>, n: nat, p: nat, link: string)
    ensures 1 <= p <= n && link in kept(p) ==>
      exists k :: 0 <= k < |Sightings(kept, n)| && Sightings(kept, n)[k] == Sighting(link, p)
    decreases n
  {
    if 1 <= p <= n && link in kept(p) {
      var prev, page := Sightings(kept, n - 1), Tagged(kept(n), n);
      if p < n {
        SightingsMember(kept, n - 1, p, link);
        var k :| 0 <= k < |prev| && prev[k] == Sighting(link, p);
        assert Sightings(kept, n)[k] == prev[k];
      } else {
        var m := TaggedMember(kept(p), p, link);
        assert Sightings(kept, n)[|prev| + m] == page[m];
      }
    }
  }

  lemma TaggedMember(links: seq<string>, p: nat, link: string) returns (m: nat)
    requires link in links
    ensures m < |links| && Tagged(links, p)[m] == Sighting(link, p)
  {
    m :| 0 <= m < |links| && links[m] == link;
  }

  /** The crawl visits every kept link of pages 1 to 5 and records exactly
      one entry per visited link: the entries' links are distinct, and there
      are as many entries as visited links. */
  lemma CrawlCoversVisited(kept: nat -> seq<string>, probe: string -> DetailProbe)
    ensures var s := Sightings(kept, PageLimit); var r := Entries(FirstSightings(s), probe);
      |r| == |Links(s)| &&
      (forall i, j :: 0 <= i < j < |r| ==> r[i].link != r[j].link) &&
      (forall p, link :: 1 <= p <= PageLimit && link in kept(p) ==> link in Links(s))
  {
    var s := Sightings(kept, PageLimit);
    var d := FirstSightings(s);
    FirstSightingsDistinct(s);
    FirstSightingsLinks(s);
    DistinctLinksCount(d);
    forall p, link | 1 <= p <= PageLimit && link in kept(p) ensures link in Links(s) {
      SightingsMember(kept, PageLimit, p, link);
      LinksMembers(s, link);
    }
  }

  /** Each entry names the first page, from 1 to 5, whose kept links include
      its link, and the status its detail page's probe gives. */
  lemma EntryOfFirstPage(kept: nat -> seq<string>, n: nat, probe: string -> DetailProbe, i: nat)
    requires i < |FirstSightings(Sightings(kept, n))|
    ensures var e := Entries(FirstSightings(Sightings(kept, n)), probe)[i];
      1 <= e.page <= n && e.link in kept(e.page) &&
      (forall p :: 1 <= p < e.page ==> e.link !in kept(p)) &&
      e.status == StatusOf(probe(e.link))
  {
    var s := Sightings(kept, n);
    var d := FirstSightings(s);
    FirstSightingsEarliest(s, i);
    var j :| 0 <= j < |s| && d[i] == s[j] && forall k :: 0 <= k < j ==> s[k].link != s[j].link;
    SightingsPages(kept, n);
    SightingsFrom(kept, n, j);
    EarliestPage(s, j);
    forall p | 1 <= p < d[i].page ensures d[i].link !in kept(p) {
      SightingsMember(kept, n, p, d[i].link);
    }
  }

  /** In a list sorted by page, the first sighting of a link has the least
      page among the sightings of that link. */
  lemma EarliestPage(s: seq<Sighting>, j: nat)
    requires j < |s|
    requires forall a, b :: 0 <= a < b < |s| ==> s[a].page <= s[b].page
    requires forall k :: 0 <= k < j ==> s[k].link != s[j].link
    ensures forall k :: 0 <= k < |s| && s[k].link == s[j].link ==> s[j].page <= s[k].page
  {
  }

  /** A sighting comes from the kept links of its page. */
  lemma {:induction false} SightingsFrom(kept: nat -> seq<string>, n: nat, k: nat)
    requires k < |Sightings(kept, n)|
    ensures Sightings(kept, n)[k].link in kept(Sightings(kept, n)[k].page)
    decreases n
  {
    var prev, page := Sightings(kept, n - 1), Tagged(kept(n), n);
    if k < |prev| {
      SightingsFrom(kept, n - 1, k);
      assert Sightings(kept, n)[k] == prev[k];
    } else {
      assert Sightings(kept, n)[k] == page[k - |prev|];
    }
  }

  /** The kept links of a crawl where one link is kept on pages 1 and 2 and
      nothing anywhere else. */
  function RepeatedLink(link: string): nat -> seq<string> {
    (p: nat) => if p == 1 || p == 2 then [link] else []
  }

  /** Such a link is opened once, and recorded with page 1. */
  lemma RepeatedLinkOnce(link: string, probe: string -> DetailProbe)
    ensures Entries(FirstSightings(Sightings(RepeatedLink(link), PageLimit)), probe) ==
            [ApplyEntry(link, 1, StatusOf(probe(link)))]
  {
    var first := [Sighting(link, 1)];
    var both := first + [Sighting(link, 2)];
    RepeatedLinkSightings(link);
    assert first[..0] == [];
    assert FirstSightings(first) == first;
    assert Links(first) == {link};
    assert both[..1] == first;
    assert FirstSightings(both) == first;
  }

  lemma RepeatedLinkSightings(link: string)
    ensures Sightings(RepeatedLink(link), PageLimit) == [Sighting(link, 1), Sighting(link, 2)]
  {
    var kept := RepeatedLink(link);
    assert Tagged(kept(1), 1) == [Sighting(link, 1)];
    assert Tagged(kept(2), 2) == [Sighting(link, 2)];
    assert Tagged(kept(3), 3) == [] && Tagged(kept(4), 4) == [] && Tagged(kept(5), 5) == [];
    assert Sightings(kept, 2) == [Sighting(link, 1), Sighting(link, 2)];
  }
}

/** The LinkedIn collector of scrapeLinkedInTop100.js: gather up to 100
    distinct job links from the search results in at most 30 scroll
    attempts, open each one in turn and read its fields through lists of
    fallback selectors, then sort the records into Boston and other-state
    buckets and into possibly overlapping AI and analyst buckets. */
module LinkedInTop100 {
  import opened JsText
  import opened Patterns

  /** The number of links wanted. */
  const MaxWanted := 100

  /** The number of scroll attempts allowed. */
  const MaxAttempts := 30

  /** The length a title is cut to. */
  const TitleLimit := 500

  // ----- collecting the links

  /** The test of the link filter: `h && h.includes('/jobs/view/')`. */
  predicate IsViewLink(h: string) {
    h != "" && Contains(h, "/jobs/view/")
  }

  /** The job links among `hrefs`, in order. */
  function ViewLinks(hrefs: seq<string>): (r: seq<string>)
    ensures forall k :: 0 <= k < |r| ==> IsViewLink(r[k])
    ensures forall h :: h in r <==> h in hrefs && IsViewLink(h)
  {
    if hrefs == [] then []
    else
      var init := ViewLinks(hrefs[..|hrefs| - 1]);
      var h := hrefs[|hrefs| - 1];
      assert forall g :: g in hrefs <==> g in hrefs[..|hrefs| - 1] || g == h;
      if IsViewLink(h) then init + [h] else init
  }

  /** What one attempt finds: the job links of the result-list anchors, or
      nothing when the query fails (its `catch` yields `[]`). `scan` is the
      anchors' `href`s, or `None` when the query throws. */
  function Found(scan: Option<seq<string>>): seq<string> {
    match scan
    case None => []
    case Some(hrefs) => ViewLinks(hrefs)
  }

  predicate Distinct(s: seq<string>) {
    forall i, j :: 0 <= i < j < |s| ==> s[i] != s[j]
  }

  /** `links.add(h)` on a set that keeps insertion order. */
  function Insert(links: seq<string>, h: string): seq<string> {
    if h in links then links else links + [h]
  }

  /** `found.forEach(h => links.add(h))`. */
  function Added(links: seq<string>, found: seq<string>): seq<string> {
    if found == [] then links
    else Insert(Added(links, found[..|found| - 1]), found[|found| - 1])
  }

  /** Adding keeps the links already held, in their place, adds exactly the
      found links, and keeps the links distinct. */
  lemma {:induction false} AddedSpec(links: seq<string>, found: seq<string>)
    ensures links <= Added(links, found)
    ensures forall h :: h in Added(links, found) <==> h in links || h in found
    ensures Distinct(links) ==> Distinct(Added(links, found))
    decreases |found|
  {
    if found != [] {
      var init := found[..|found| - 1];
      AddedSpec(links, init);
      assert forall h :: h in found <==> h in init || h == found[|found| - 1];
    }
  }

  /** What each attempt finds. */
  function FoundBy(scans: nat -> Option<seq<string>>): nat -> seq<string> {
    (k: nat) => Found(scans(k))
  }

  /** The set after `k` attempts; `found(m)` is what attempt `m` finds. */
  function Gathered(found: nat -> seq<string>, k: nat): seq<string> {
    if k == 0 then [] else Added(Gathered(found, k - 1), found(k - 1))
  }

  /** The number of attempts the loop makes when it is at attempt `k`: it
      stops at the 30th attempt or as soon as 100 links are held. */
  function AttemptsFrom(found: nat -> seq<string>, k: nat): (n: nat)
    requires k <= MaxAttempts
    ensures k <= n <= MaxAttempts
    ensures forall m :: k <= m < n ==> |Gathered(found, m)| < MaxWanted
    ensures n < MaxAttempts ==> |Gathered(found, n)| >= MaxWanted
    decreases MaxAttempts - k
  {
    if k == MaxAttempts || |Gathered(found, k)| >= MaxWanted then k
    else AttemptsFrom(found, k + 1)
  }

  function Attempts(scans: nat -> Option<seq<string>>): nat {
    AttemptsFrom(FoundBy(scans), 0)
  }

  /** `Array.from(links).slice(0, maxWanted)`. */
  function JobLinks(scans: nat -> Option<seq<string>>): seq<string> {
    Prefix(Gathered(FoundBy(scans), Attempts(scans)), MaxWanted)
  }

  /** The set only grows, and what it holds is what was found in order: each
      attempt keeps the earlier links in place. */
  lemma {:induction false} GatheredSpec(found: nat -> seq<string>, k: nat)
    ensures Distinct(Gathered(found, k))
    ensures forall h :: h in Gathered(found, k) <==> exists m :: 0 <= m < k && h in found(m)
    ensures forall m :: 0 <= m <= k ==> Gathered(found, m) <= Gathered(found, k)
    decreases k
  {
    if k > 0 {
      GatheredSpec(found, k - 1);
      AddedSpec(Gathered(found, k - 1), found(k - 1));
    }
  }

  /** `found.forEach(h => links.add(h))` on the collection's set. */
  method AddFound(links: seq<string>, found: seq<string>) returns (links': seq<string>)
    ensures links' == Added(links, found)
  {
    links' := links;
    for i := 0 to |found|
      invariant links' == Added(links, found[..i])
    {
      assert found[..i + 1][..i] == found[..i];
      links' := if found[i] in links' then links' else links' + [found[i]];
    }
    assert found[..|found|] == found;
  }

  /** The collection loop (lines 36-59): `attempts` is the counter's final value. */
  method CollectLinks(scans: nat -> Option<seq<string>>) returns (jobLinks: seq<string>, attempts: nat)
    ensures attempts == Attempts(scans)
    ensures jobLinks == JobLinks(scans)
  {
    ghost var found := FoundBy(scans);
    var links: seq<string> := [];
    attempts := 0;
    while |links| < MaxWanted && attempts < MaxAttempts
      invariant attempts <= MaxAttempts
      invariant links == Gathered(found, attempts)
      invariant AttemptsFrom(found, attempts) == Attempts(scans)
      decreases MaxAttempts - attempts
    {
      var foundNow := Found(scans(attempts));
      assert foundNow == found(attempts);
      links := AddFound(links, foundNow);
      // the scroll and the wait change nothing the model reads
      attempts := attempts + 1;
    }
    jobLinks := Prefix(links, MaxWanted);
  }

  /** What the collected list is: at most 100 distinct job links, each found
      by some attempt, in first-seen order; the loop made at most 30
      attempts, and stopped early only with 100 links in hand; when no more
      than 100 were gathered, every link any attempt found is in the list. */
  lemma JobLinksSpec(scans: nat -> Option<seq<string>>)
    ensures var links, n, g := JobLinks(scans), Attempts(scans), Gathered(FoundBy(scans), Attempts(scans));
      n <= MaxAttempts && |links| <= MaxWanted && Distinct(links) &&
      (forall k :: 0 <= k < n ==> |Gathered(FoundBy(scans), k)| < MaxWanted) &&
      (n < MaxAttempts ==> |links| == MaxWanted) &&
      links <= g &&
      (|g| <= MaxWanted ==> forall m, h :: 0 <= m < n && h in Found(scans(m)) ==> h in links)
  {
    var found := FoundBy(scans);
    var n := Attempts(scans);
    GatheredSpec(found, n);
    forall m, h | 0 <= m < n && h in Found(scans(m)) ensures h in Gathered(found, n) {
      assert h in found(m);
    }
  }

  /** Every collected link is a job link. */
  lemma JobLinksAreViewLinks(scans: nat -> Option<seq<string>>)
    ensures forall k :: 0 <= k < |JobLinks(scans)| ==> IsViewLink(JobLinks(scans)[k])
  {
    var found := FoundBy(scans);
    var n := Attempts(scans);
    var g := Gathered(found, n);
    GatheredSpec(found, n);
    forall k | 0 <= k < |JobLinks(scans)| ensures IsViewLink(JobLinks(scans)[k]) {
      var h := g[k];
      assert JobLinks(scans)[k] == h && h in g;
      var m :| 0 <= m < n && h in found(m);
      assert h in Found(scans(m));
    }
  }

  /** A failed query adds nothing. */
  lemma FailedScanAddsNothing(scans: nat -> Option<seq<string>>, k: nat)
    requires scans(k).None?
    ensures Gathered(FoundBy(scans), k + 1) == Gathered(FoundBy(scans), k)
  {
  }

  // ----- extracting one job

  /** What a detail page offers: for each selector of the fallback lists, the
      inner text of its first matching element, `None` when nothing matches
      (so that `$eval` throws); and the outcome of the sign-in gate look-up. */
  datatype DetailPage = DetailPage(
    h1: Option<string>, titleFallback: Option<string>,
    companyLink: Option<string>, companyFlavor: Option<string>,
    locationBullet: Option<string>, locationSubtitle: Option<string>,
    postedTime: Option<string>,
    descriptionMarkup: Option<string>, main: Option<string>,
    gate: GateProbe)

  /** `p.$('div[role="dialog"], .sign-in-outlet, .sign-in-form')`: an element,
      `null`, or an exception with its message. */
  datatype GateProbe = GateFound | NoGate | GateThrew(message: string)

  /** One record of `results`. `posted`, `gated` and `error` are `None` when
      the object lacks the key; the other fields are `None` when `null`. */
  datatype LinkedInJob = LinkedInJob(
    link: string, title: Option<string>, company: Option<string>,
    location: Option<string>, posted: Option<string>,
    description: Option<string>, gated: Option<bool>, error: Option<string>)

  /** Two selectors tried in turn, each text trimmed: the first that matches
      wins, even when its text is empty. */
  function FirstMatch(primary: Option<string>, fallback: Option<string>): (r: Option<string>)
    ensures r.None? <==> primary.None? && fallback.None?
    ensures primary.Some? ==> r == Some(Trim(primary.value))
    ensures primary.None? && fallback.Some? ==> r == Some(Trim(fallback.value))
  {
    match primary
    case Some(t) => Some(Trim(t))
    case None =>
      match fallback
      case Some(t) => Some(Trim(t))
      case None => None
  }

  /** `x || null` on a string or `null`: the empty string becomes `null`. */
  function OrNull(x: Option<string>): (r: Option<string>)
    ensures r.None? <==> x.None? || x.value == ""
    ensures r.Some? ==> r == x
  {
    if x.Some? && x.value != "" then x else None
  }

  function TitleOf(d: DetailPage): Option<string> {
    OrNull(match FirstMatch(d.h1, d.titleFallback)
           case None => None
           case Some(t) => Some(Prefix(t, TitleLimit)))
  }

  function CompanyOf(d: DetailPage): Option<string> {
    OrNull(FirstMatch(d.companyLink, d.companyFlavor))
  }

  function LocationOf(d: DetailPage): Option<string> {
    OrNull(FirstMatch(d.locationBullet, d.locationSubtitle))
  }

  /** The `posted` key is set only when its selector matches, and is not
      turned into `null` when empty. */
  function PostedOf(d: DetailPage): Option<string> {
    match d.postedTime
    case None => None
    case Some(t) => Some(Trim(t))
  }

  /** The description selectors, then the `main` element; none of them gives
      `null`. */
  function DescriptionOf(d: DetailPage): Option<string> {
    OrNull(FirstMatch(d.descriptionMarkup, d.main))
  }

  /** The gate is looked up only when no description was found; its look-up
      is the one step whose exception reaches the outer `catch`. */
  function GatedOf(d: DetailPage): Option<bool> {
    if DescriptionOf(d).Some? then Some(false)
    else
      match d.gate
      case GateFound => Some(true)
      case NoGate => Some(false)
      case GateThrew(_) => None
  }

  function ErrorOf(d: DetailPage): Option<string> {
    if DescriptionOf(d).None? && d.gate.GateThrew? then Some(d.gate.message) else None
  }

  /** The record `extractJob(link, idx)` returns for a page. */
  function JobFrom(link: string, d: DetailPage): LinkedInJob {
    LinkedInJob(link, TitleOf(d), CompanyOf(d), LocationOf(d), PostedOf(d),
                DescriptionOf(d), GatedOf(d), ErrorOf(d))
  }

  /** A `try` on the first selector with a `catch` that tries the second:
      the trimmed text of the first that matches. */
  method TryBoth(primary: Option<string>, fallback: Option<string>) returns (text: Option<string>)
    ensures text == FirstMatch(primary, fallback)
  {
    text := None;
    match primary {
      case Some(t) => text := Some(Trim(t));
      case None =>
        match fallback {
          case Some(t) => text := Some(Trim(t));
          case None =>
        }
    }
  }

  /** `extractJob`: the fields assigned one by one, each from its list of
      selectors; the sign-in gate is looked up only without a description. */
  method ExtractJob(link: string, d: DetailPage) returns (job: LinkedInJob)
    ensures job == JobFrom(link, d)
  {
    job := LinkedInJob(link, None, None, None, None, None, None, None);
    var found := TryBoth(d.h1, d.titleFallback);
    var title := if found.Some? then Prefix(found.value, TitleLimit) else "";
    job := job.(title := if title != "" then Some(title) else None);
    var company := TryBoth(d.companyLink, d.companyFlavor);
    job := job.(company := OrNull(company));
    var location := TryBoth(d.locationBullet, d.locationSubtitle);
    job := job.(location := OrNull(location));
    if d.postedTime.Some? {
      job := job.(posted := Some(Trim(d.postedTime.value)));
    }
    var description := TryBoth(d.descriptionMarkup, d.main);
    job := job.(description := OrNull(description));
    if description.None? || description.value == "" {
      match d.gate {
        case GateFound => job := job.(gated := Some(true));
        case NoGate => job := job.(gated := Some(false));
        case GateThrew(message) => job := job.(error := Some(message));
      }
    } else {
      job := job.(gated := Some(false));
    }
  }

  /** The title: the trimmed `h1` text when there is an `h1`, else the trimmed
      fallback text, cut to 500 characters; `null` when that is empty or
      neither element exists. */
  lemma TitleSpec(d: DetailPage)
    ensures var t := TitleOf(d);
      (t.Some? ==> t.value != "" && |t.value| <= TitleLimit) &&
      (d.h1.Some? ==> t == OrNull(Some(Prefix(Trim(d.h1.value), TitleLimit)))) &&
      (d.h1.None? && d.titleFallback.Some? ==> t == OrNull(Some(Prefix(Trim(d.titleFallback.value), TitleLimit)))) &&
      (d.h1.None? && d.titleFallback.None? ==> t.None?)
  {
  }

  /** A title already trimmed and no longer than 500 characters is kept as it
      is, and a longer one keeps its first 500 characters. */
  lemma TitleKept(d: DetailPage)
    requires d.h1.Some? && Trim(d.h1.value) != ""
    ensures TitleOf(d).Some? && TitleOf(d).value <= Trim(d.h1.value)
    ensures |Trim(d.h1.value)| <= TitleLimit ==> TitleOf(d) == Some(Trim(d.h1.value))
    ensures |Trim(d.h1.value)| > TitleLimit ==> |TitleOf(d).value| == TitleLimit
  {
  }

  /** The gate flag is true exactly when no description was found and the
      gate element is there, false whenever a description exists, and missing
      exactly when the gate look-up threw, which is also exactly when the
      record carries an error. */
  lemma GatedSpec(link: string, d: DetailPage)
    ensures var j := JobFrom(link, d);
      (j.gated == Some(true) <==> j.description.None? && d.gate.GateFound?) &&
      (j.description.Some? ==> j.gated == Some(false)) &&
      (j.gated.None? <==> j.error.Some?) &&
      (j.error.Some? <==> j.description.None? && d.gate.GateThrew?)
  {
  }

  /** Company and location come from the first of their two selectors that
      matches, trimmed; an empty text or no match gives `null`. */
  lemma FallbackSpec(d: DetailPage)
    ensures CompanyOf(d).Some? ==> (CompanyOf(d).value != "" &&
      CompanyOf(d).value == Trim(if d.companyLink.Some? then d.companyLink.value else d.companyFlavor.value))
    ensures CompanyOf(d).None? <==>
      (d.companyLink.None? && d.companyFlavor.None?) || FirstMatch(d.companyLink, d.companyFlavor) == Some("")
    ensures LocationOf(d).Some? ==> (LocationOf(d).value != "" &&
      LocationOf(d).value == Trim(if d.locationBullet.Some? then d.locationBullet.value else d.locationSubtitle.value))
    ensures LocationOf(d).None? <==>
      (d.locationBullet.None? && d.locationSubtitle.None?) || FirstMatch(d.locationBullet, d.locationSubtitle) == Some("")
  {
  }

  // ----- the sequential processing loop

  /** The loop of lines 131-137: each link's record, in link order. `detail`
      gives the detail page each link opens. */
  method ProcessAll(jobLinks: seq<string>, detail: string -> DetailPage) returns (results: seq<LinkedInJob>)
    ensures |results| == |jobLinks|
    ensures forall i :: 0 <= i < |jobLinks| ==> results[i] == JobFrom(jobLinks[i], detail(jobLinks[i]))
    ensures forall i :: 0 <= i < |results| ==> results[i].link == jobLinks[i]
    ensures Distinct(jobLinks) ==> forall i, j :: 0 <= i < j < |results| ==> results[i] != results[j]
  {
    results := [];
    for i := 0 to |jobLinks|
      invariant |results| == i
      invariant forall k :: 0 <= k < i ==> results[k] == JobFrom(jobLinks[k], detail(jobLinks[k]))
    {
      var job := ExtractJob(jobLinks[i], detail(jobLinks[i]));
      results := results + [job];
    }
  }

  // ----- categorization and the report

  /** `(x || '') + ''`. */
  function OrEmpty(x: Option<string>): string {
    if x.Some? then x.value else ""
  }

  predicate IsBostonJob(j: LinkedInJob) {
    NamesBoston(OrEmpty(j.location))
  }

  predicate IsOtherStateJob(j: LinkedInJob) {
    !IsBostonJob(j)
  }

  predicate IsAiJob(j: LinkedInJob) {
    MentionsAi(OrEmpty(j.title)) || MentionsAi(OrEmpty(j.description))
  }

  predicate IsAnalystJob(j: LinkedInJob) {
    MentionsAnalyst(OrEmpty(j.title))
  }

  /** The records of `s` that pass `keep`, in order. */
  function Select(s: seq<LinkedInJob>, keep: LinkedInJob -> bool): (r: seq<LinkedInJob>)
    ensures |r| <= |s|
    ensures forall j :: j in r <==> j in s && keep(j)
  {
    if s == [] then []
    else
      var init := Select(s[..|s| - 1], keep);
      var x := s[|s| - 1];
      assert forall j :: j in s <==> j in s[..|s| - 1] || j == x;
      if keep(x) then init + [x] else init
  }

  /** The output object without its timestamp. */
  datatype Report = Report(totalCollected: nat, bostonJobs: seq<LinkedInJob>,
                           otherStateJobs: seq<LinkedInJob>, aiJobs: seq<LinkedInJob>,
                           analystJobs: seq<LinkedInJob>, allJobs: seq<LinkedInJob>)

  /** The loop of lines 148-159 and the object of lines 161-169. */
  method Categorize(results: seq<LinkedInJob>) returns (out: Report)
    ensures out.totalCollected == |results| && out.allJobs == results
    ensures out.bostonJobs == Select(results, IsBostonJob)
    ensures out.otherStateJobs == Select(results, IsOtherStateJob)
    ensures out.aiJobs == Select(results, IsAiJob)
    ensures out.analystJobs == Select(results, IsAnalystJob)
  {
    var boston, other, ai, analyst := [], [], [], [];
    for i := 0 to |results|
      invariant boston == Select(results[..i], IsBostonJob)
      invariant other == Select(results[..i], IsOtherStateJob)
      invariant ai == Select(results[..i], IsAiJob)
      invariant analyst == Select(results[..i], IsAnalystJob)
    {
      var j := results[i];
      assert results[..i + 1][..i] == results[..i];
      var title, desc, loc := OrEmpty(j.title), OrEmpty(j.description), OrEmpty(j.location);
      if NamesBoston(loc) {
        boston := boston + [j];
      } else {
        other := other + [j];
      }
      if MentionsAi(title) || MentionsAi(desc) {
        ai := ai + [j];
      }
      if MentionsAnalyst(title) {
        analyst := analyst + [j];
      }
    }
    assert results[..|results|] == results;
    out := Report(|results|, boston, other, ai, analyst, results);
  }

  /** Every record lands in exactly one of the Boston and other-state
      buckets, and the two together are the records, counted with
      multiplicity. */
  lemma BostonPartition(s: seq<LinkedInJob>)
    ensures multiset(Select(s, IsBostonJob)) + multiset(Select(s, IsOtherStateJob)) == multiset(s)
    ensures |Select(s, IsBostonJob)| + |Select(s, IsOtherStateJob)| == |s|
  {
    SelectPartition(s, IsBostonJob, IsOtherStateJob);
  }

  /** A test and its negation split a list between them. */
  lemma {:induction false} SelectPartition(s: seq<LinkedInJob>, keep: LinkedInJob -> bool, drop: LinkedInJob -> bool)
    requires forall j :: drop(j) == !keep(j)
    ensures multiset(Select(s, keep)) + multiset(Select(s, drop)) == multiset(s)
    ensures |Select(s, keep)| + |Select(s, drop)| == |s|
    decreases |s|
  {
    if s != [] {
      var init, x := s[..|s| - 1], s[|s| - 1];
      SelectPartition(init, keep, drop);
      assert s == init + [x];
      assert multiset(s) == multiset(init) + multiset{x};
      if keep(x) {
        assert Select(s, keep) == Select(init, keep) + [x];
        assert Select(s, drop) == Select(init, drop);
      } else {
        assert Select(s, keep) == Select(init, keep);
        assert Select(s, drop) == Select(init, drop) + [x];
      }
    }
  }

  /** A record is in no more than one of the two location buckets. */
  lemma BucketsDisjoint(s: seq<LinkedInJob>)
    ensures forall j :: !(j in Select(s, IsBostonJob) && j in Select(s, IsOtherStateJob))
  {
  }

  /** A record without a location goes to the other-state bucket. */
  lemma NoLocationIsOther(j: LinkedInJob)
    requires j.location.None?
    ensures IsOtherStateJob(j)
  {
  }

  /** A record at "Cambridge, MA" titled "Data Analyst II". */
  function SampleJob(): LinkedInJob {
    LinkedInJob("https://www.linkedin.com/jobs/view/1", Some("Data Analyst II"), None,
                Some("Cambridge, MA"), None, None, Some(false), None)
  }

  /** The state code makes it a Boston record; the title makes it an analyst
      record. */
  lemma CambridgeAnalyst()
    ensures IsBostonJob(SampleJob()) && IsAnalystJob(SampleJob())
  {
    var j := SampleJob();
    StateCodeNeedsBoundaries();
    AnalystIsAWord();
    assert OrEmpty(j.location) == "Cambridge, MA" && WordAt(OrEmpty(j.location), 11, "ma");
    assert OrEmpty(j.title) == "Data Analyst II";
  }

  // ----- the whole run

  /** One run: collect the links, extract every job in order, categorize. */
  method ScrapeTop100(scans: nat -> Option<seq<string>>, detail: string -> DetailPage) returns (out: Report)
    ensures var links := JobLinks(scans);
      out.totalCollected == |out.allJobs| == |links| <= MaxWanted &&
      (forall i :: 0 <= i < |links| ==> out.allJobs[i] == JobFrom(links[i], detail(links[i]))) &&
      out.bostonJobs == Select(out.allJobs, IsBostonJob) &&
      out.otherStateJobs == Select(out.allJobs, IsOtherStateJob) &&
      out.aiJobs == Select(out.allJobs, IsAiJob) &&
      out.analystJobs == Select(out.allJobs, IsAnalystJob)
  {
    var jobLinks, attempts := CollectLinks(scans);
    JobLinksSpec(scans);
    var results := ProcessAll(jobLinks, detail);
    out := Categorize(results);
  }
}

/** The browser, replaced by data. A search-results session is the sequence
    of result pages the browser would show: `pages(k)` is the page on screen
    after the "Next" control has been activated `k` times. Each snapshot holds
    what the scrapers read off the page: the pagination section's label, the
    job cards, and the "Next" control. */
module Browser {
  import opened JsText

  /** The pagination section `section[aria-label*="Page"]` as the page-count
      probe sees it: missing, present with its `aria-label`, or the in-page
      evaluation itself failing. */
  datatype PageIndicator = NoSection | Section(ariaLabel: string) | EvalError

  /** The `span[aria-label="Next"][role="link"]` control, with its
      `aria-disabled` attribute when it is present. */
  datatype NextControl = Absent | Present(ariaDisabled: Option<string>)

  /** A link element: its visible text and its resolved `href`. */
  datatype Anchor = Anchor(text: string, href: string)

  /** One `[data-testid="job-card"]` element: its title link, the inner text of
      its company and location elements when they exist, and the card's whole
      inner text. */
  datatype Card = Card(titleLink: Option<Anchor>, companyText: Option<string>,
                       locationText: Option<string>, text: string)

  datatype Snapshot = Snapshot(indicator: PageIndicator, cards: seq<Card>, next: NextControl)

  /** The results pages of one search, indexed by the number of advances. */
  type Pages = nat -> Snapshot
}

/** The stopping rule shared by both copies of the Dice pagination loop:
    page numbers run from 1 to the bound; on every page below the bound the
    "Next" control is looked up, and a missing or disabled control ends the
    loop after that page's jobs have been kept. */
module Pagination {
  import opened JsText
  import opened Browser

  function Min(a: int, b: int): int {
    if a <= b then a else b
  }

  /** The loop `break`s on this control: it is missing, or its
      `aria-disabled` attribute is the string "true". */
  predicate Stops(c: NextControl) {
    c.Absent? || c.ariaDisabled == Some("true")
  }

  /** `n` is the number of pages scraped under `bound`: none when the bound is
      not positive; otherwise every page before page `n` was advanced past, and
      the loop either reached the bound or stopped on page `n`. */
  predicate IsPagesScraped(pages: Pages, bound: int, n: nat) {
    (bound <= 0 ==> n == 0) &&
    (bound > 0 ==>
      1 <= n <= bound &&
      (forall p :: 0 <= p < n - 1 ==> !Stops(pages(p).next)) &&
      (n < bound ==> Stops(pages(n - 1).next)))
  }

  /** The last page scraped when the loop is on page `k`. */
  function LastPageFrom(pages: Pages, bound: int, k: nat): (n: nat)
    requires 1 <= k <= bound
    ensures k <= n <= bound
    ensures forall p :: k - 1 <= p < n - 1 ==> !Stops(pages(p).next)
    ensures n < bound ==> Stops(pages(n - 1).next)
    decreases bound - k
  {
    if k == bound || Stops(pages(k - 1).next) then k
    else LastPageFrom(pages, bound, k + 1)
  }

  /** The number of pages the loop scrapes under `bound`. */
  function PagesScraped(pages: Pages, bound: int): (n: nat)
    ensures IsPagesScraped(pages, bound, n)
  {
    if bound <= 0 then 0 else LastPageFrom(pages, bound, 1)
  }

  /** The characterisation pins the number down. */
  lemma PagesScrapedUnique(pages: Pages, bound: int, m: nat)
    requires IsPagesScraped(pages, bound, m)
    ensures m == PagesScraped(pages, bound)
  {
  }

  /** Everything extracted from the first `n` pages, page by page in page order
      and, within a page, in the extractor's order. */
  function Collected<T>(pages: Pages, extract: Snapshot -> seq<T>, n: nat): (r: seq<T>)
  {
    if n == 0 then [] else Collected(pages, extract, n - 1) + extract(pages(n - 1))
  }

  /** Scraping more pages only adds at the end. */
  lemma {:induction false} CollectedPrefix<T>(pages: Pages, extract: Snapshot -> seq<T>, m: nat, n: nat)
    requires m <= n
    ensures Collected(pages, extract, m) <= Collected(pages, extract, n)
    decreases n
  {
    if m < n {
      CollectedPrefix(pages, extract, m, n - 1);
    }
  }

  /** Where an element of the collected sequence came from: the page and the
      position on it. */
  lemma {:induction false} CollectedOrigin<T>(pages: Pages, extract: Snapshot -> seq<T>, n: nat, j: nat)
    requires j < |Collected(pages, extract, n)|
    ensures exists p, k ::
      0 <= p < n && 0 <= k < |extract(pages(p))| && Collected(pages, extract, n)[j] == extract(pages(p))[k]
    decreases n
  {
    var prev := Collected(pages, extract, n - 1);
    if j < |prev| {
      CollectedOrigin(pages, extract, n - 1, j);
    } else {
      assert Collected(pages, extract, n)[j] == extract(pages(n - 1))[j - |prev|];
    }
  }

  /** The page numbers `1, 2, ..., k`. */
  function PageNumbers(k: nat): (r: seq<nat>)
    ensures |r| == k && forall i :: 0 <= i < k ==> r[i] == i + 1
  {
    seq(k, i => i + 1)
  }

  lemma PageNumbersMembers(k: nat)
    ensures forall p :: p in PageNumbers(k) <==> 1 <= p <= k
  {
    forall p | 1 <= p <= k ensures p in PageNumbers(k) {
      assert PageNumbers(k)[p - 1] == p;
    }
  }
}

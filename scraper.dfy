/**
  src/app/utils/scraper.ts: picking the top search results out of a Google
  result page, and the page scraper (at present a constant placeholder).

  The HTTP request and the cheerio parse are not modelled: the page arrives
  as `Some(headings)`, the `h3` elements in document order with the text of
  each and the `href` of its parent, or as `None` when the request or the
  parse threw.
 */
module Scraper {
  import opened Wrappers

  /** One `h3` of the result page: its text and its parent's `href`, if any. */
  datatype Heading = Heading(title: string, link: Option<string>)

  datatype SearchResult = SearchResult(title: string, link: string)

  /** `$("h3").eq(i)`: past the last heading cheerio gives an empty
      selection, whose text is "" and which has no `href`. */
  function HeadingAt(headings: seq<Heading>, i: nat): (h: Heading)
    ensures i < |headings| ==> h == headings[i]
    ensures i >= |headings| ==> h.title == "" && h.link == None
  {
    if i < |headings| then headings[i] else Heading("", None)
  }

  /** `title && link`: both are non-empty strings. */
  predicate Kept(h: Heading)
  {
    h.title != "" && h.link.Some? && h.link.value != ""
  }

  function ToResult(h: Heading): SearchResult
    requires Kept(h)
  {
    SearchResult(h.title, h.link.value)
  }

  /** The kept headings, as search results, in document order. */
  function KeptResults(headings: seq<Heading>): seq<SearchResult>
  {
    if headings == [] then []
    else if Kept(headings[0]) then [ToResult(headings[0])] + KeptResults(headings[1..])
    else KeptResults(headings[1..])
  }

  /** How many headings the loop `for (i = 0; i < filter; i++)` can see. */
  function Scanned(headings: seq<Heading>, filter: int): (n: nat)
    ensures n <= |headings|
    ensures filter <= 0 ==> n == 0
    ensures 0 <= filter <= |headings| ==> n == filter
  {
    if filter <= 0 then 0 else if filter < |headings| then filter else |headings|
  }

  /** What getTopResultsFromGoogle returns: the kept headings among the
      first `filter`, or nothing when the page could not be fetched or parsed. */
  function TopResults(page: Option<seq<Heading>>, filter: int): seq<SearchResult>
  {
    match page
    case None => []
    case Some(headings) => KeptResults(headings[..Scanned(headings, filter)])
  }

  lemma {:induction false} KeptResultsAppend(headings: seq<Heading>, h: Heading)
    ensures KeptResults(headings + [h]) == KeptResults(headings) + (if Kept(h) then [ToResult(h)] else [])
  {
    if headings != [] {
      assert (headings + [h])[1..] == headings[1..] + [h];
      KeptResultsAppend(headings[1..], h);
    } else {
      assert [h][1..] == [];
    }
  }

  /** The search-result loop of getTopResultsFromGoogle. */
  method GetTopResultsFromGoogle(page: Option<seq<Heading>>, filter: int) returns (searchResults: seq<SearchResult>)
    ensures searchResults == TopResults(page, filter)
  {
    if page.None? {
      return [];
    }
    var headings := page.value;
    searchResults := [];
    var i: nat := 0;
    while i < filter
      invariant filter <= 0 ==> i == 0
      invariant filter > 0 ==> i <= filter
      invariant searchResults == KeptResults(headings[..Scanned(headings, i)])
    {
      var h := HeadingAt(headings, i);
      if Kept(h) {
        searchResults := searchResults + [ToResult(h)];
      }
      if i < |headings| {
        assert headings[..i + 1] == headings[..i] + [h];
        KeptResultsAppend(headings[..i], h);
      }
      i := i + 1;
    }
  }

  // ----- what the selection promises -----

  /** Never more results than `filter` asks for, nor than there are
      headings; none at all for `filter <= 0` or a failed fetch. */
  lemma {:induction false} TopResultsBounds(page: Option<seq<Heading>>, filter: int)
    ensures |TopResults(page, filter)| <= if filter <= 0 then 0 else filter
    ensures page.Some? ==> |TopResults(page, filter)| <= |page.value|
    ensures page.None? ==> TopResults(page, filter) == []
  {
    if page.Some? {
      KeptResultsLength(page.value[..Scanned(page.value, filter)]);
    }
  }

  lemma {:induction false} KeptResultsLength(headings: seq<Heading>)
    ensures |KeptResults(headings)| <= |headings|
  {
    if headings != [] {
      KeptResultsLength(headings[1..]);
    }
  }

  /** Every result has a non-empty title and a non-empty link. */
  lemma {:induction false} KeptResultsWellFormed(headings: seq<Heading>)
    ensures forall r :: r in KeptResults(headings) ==> r.title != "" && r.link != ""
  {
    if headings != [] {
      KeptResultsWellFormed(headings[1..]);
    }
  }

  lemma TopResultsWellFormed(page: Option<seq<Heading>>, filter: int)
    ensures forall r :: r in TopResults(page, filter) ==> r.title != "" && r.link != ""
  {
    if page.Some? {
      KeptResultsWellFormed(page.value[..Scanned(page.value, filter)]);
    }
  }

  /** Every position moved one place to the right. */
  function Shift(positions: seq<nat>): (r: seq<nat>)
    ensures |r| == |positions|
    ensures forall k :: 0 <= k < |r| ==> r[k] == positions[k] + 1
  {
    if positions == [] then [] else [positions[0] + 1] + Shift(positions[1..])
  }

  /** The positions of the kept headings. */
  function KeptPositions(headings: seq<Heading>): seq<nat>
  {
    if headings == [] then []
    else if Kept(headings[0]) then [0] + Shift(KeptPositions(headings[1..]))
    else Shift(KeptPositions(headings[1..]))
  }

  /** The k-th result comes from the heading at the k-th kept position. */
  lemma {:induction false} KeptPositionsMatchResults(headings: seq<Heading>)
    ensures |KeptPositions(headings)| == |KeptResults(headings)|
    ensures forall k :: 0 <= k < |KeptPositions(headings)| ==>
      KeptPositions(headings)[k] < |headings| && Kept(headings[KeptPositions(headings)[k]]) &&
      KeptResults(headings)[k] == ToResult(headings[KeptPositions(headings)[k]])
  {
    if headings != [] {
      var tail := headings[1..];
      KeptPositionsMatchResults(tail);
      var positions := KeptPositions(headings);
      var results := KeptResults(headings);
      var skip := if Kept(headings[0]) then 1 else 0;
      assert positions[skip..] == Shift(KeptPositions(tail));
      assert results[skip..] == KeptResults(tail);
      forall k | skip <= k < |positions|
        ensures positions[k] < |headings| && Kept(headings[positions[k]])
        ensures results[k] == ToResult(headings[positions[k]])
      {
        assert positions[k] == KeptPositions(tail)[k - skip] + 1;
        assert headings[positions[k]] == tail[KeptPositions(tail)[k - skip]];
      }
    }
  }

  /** The kept positions strictly increase: results keep document order. */
  lemma {:induction false} KeptPositionsIncrease(headings: seq<Heading>)
    ensures forall k, l :: 0 <= k < l < |KeptPositions(headings)| ==> KeptPositions(headings)[k] < KeptPositions(headings)[l]
  {
    if headings != [] {
      KeptPositionsIncrease(headings[1..]);
    }
  }

  /** No kept heading is missed. */
  lemma {:induction false} KeptPositionsComplete(headings: seq<Heading>)
    ensures forall j :: 0 <= j < |headings| && Kept(headings[j]) ==> j in KeptPositions(headings)
  {
    if headings != [] {
      var tail := headings[1..];
      KeptPositionsComplete(tail);
      var shifted := Shift(KeptPositions(tail));
      forall j | 1 <= j < |headings| && Kept(headings[j])
        ensures j in shifted
      {
        assert tail[j - 1] == headings[j];
        var k :| 0 <= k < |KeptPositions(tail)| && KeptPositions(tail)[k] == j - 1;
        assert shifted[k] == j;
      }
    }
  }

  /** getTopResultsFromGoogle keeps exactly the well-formed headings among
      the first `filter`, in the order they appear on the page. */
  lemma TopResultsSelection(headings: seq<Heading>, filter: int)
    ensures var scanned := headings[..Scanned(headings, filter)];
      var positions := KeptPositions(scanned);
      && |TopResults(Some(headings), filter)| == |positions|
      && (forall k :: 0 <= k < |positions| ==>
            positions[k] < Scanned(headings, filter) && Kept(headings[positions[k]]) &&
            TopResults(Some(headings), filter)[k] == ToResult(headings[positions[k]]))
      && (forall k, l :: 0 <= k < l < |positions| ==> positions[k] < positions[l])
      && (forall j :: 0 <= j < Scanned(headings, filter) && Kept(headings[j]) ==> j in positions)
  {
    var scanned := headings[..Scanned(headings, filter)];
    KeptPositionsMatchResults(scanned);
    KeptPositionsIncrease(scanned);
    KeptPositionsComplete(scanned);
  }

  /** Asking for more results than there are headings changes nothing: the
      indices past the end read as empty headings and are skipped. */
  lemma TopResultsPastEnd(headings: seq<Heading>, filter: int)
    requires filter >= |headings|
    ensures TopResults(Some(headings), filter) == KeptResults(headings)
  {
    assert headings[..Scanned(headings, filter)] == headings;
  }

  // ----- scrapeWebPage -----

  const Placeholder: string := "This is a placeholder for the scraped content"

  /** scrapeWebPage: the browser code is commented out; every URL gets the
      same non-empty placeholder, well under the 5000-character cut. */
  function ScrapeWebPage(url: string): (content: string)
    ensures content != "" && |content| <= 5000
  {
    Placeholder
  }

  lemma ScrapeWebPageIgnoresUrl(url1: string, url2: string)
    ensures ScrapeWebPage(url1) == ScrapeWebPage(url2) == Placeholder
  {
  }
}

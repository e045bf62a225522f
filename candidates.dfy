/**
 * The ordered candidate walk shared by the retrieval tools: fetch the
 * candidate URLs one after another and stop at the first result that is
 * successful and carries non-empty markdown (src/mastra/tools/shadcn-svelte-get.ts
 * for documentation sections, src/mastra/tools/shadcn-svelte-utility.ts for the
 * migration guide's alternate path).
 */
module Candidates {
  import opened Wrappers
  import opened DocFetcher

  /** Where a walk stopped: the last result fetched (none for no candidates) and how many were fetched. */
  datatype Walk = Walk(last: Option<ScrapeResult>, tried: nat)

  /** The walk over `urls`, earliest candidate first. */
  function Resolve(scraper: Scraper, urls: seq<string>, options: ScrapeOptions): (w: Walk)
    ensures w.tried <= |urls|
    ensures |urls| == 0 ==> w == Walk(None, 0)
    ensures |urls| > 0 ==> 1 <= w.tried && w.last == Some(Fetch(scraper, urls[w.tried - 1], options))
    ensures forall i :: 0 <= i < w.tried - 1 ==> !Usable(Fetch(scraper, urls[i], options))
    ensures w.tried < |urls| ==> w.last.Some? && Usable(w.last.value)
    decreases |urls|
  {
    if |urls| == 0 then Walk(None, 0)
    else
      var first := Fetch(scraper, urls[0], options);
      if Usable(first) || |urls| == 1 then Walk(Some(first), 1)
      else
        var rest := Resolve(scraper, urls[1..], options);
        Walk(rest.last, rest.tried + 1)
  }

  /** The first usable candidate is the one returned, and nothing after it is fetched. */
  lemma {:induction false} EarliestUsableWins(scraper: Scraper, urls: seq<string>, options: ScrapeOptions, k: nat)
    requires k < |urls|
    requires Usable(Fetch(scraper, urls[k], options))
    requires forall j :: 0 <= j < k ==> !Usable(Fetch(scraper, urls[j], options))
    ensures Resolve(scraper, urls, options) == Walk(Some(Fetch(scraper, urls[k], options)), k + 1)
    decreases k
  {
    if k > 0 {
      assert !Usable(Fetch(scraper, urls[0], options));
      assert urls[1..][k - 1] == urls[k];
      EarliestUsableWins(scraper, urls[1..], options, k - 1);
    }
  }

  /** When no candidate is usable, all are fetched and the last result is kept. */
  lemma {:induction false} NoneUsable(scraper: Scraper, urls: seq<string>, options: ScrapeOptions)
    requires |urls| > 0
    requires forall j :: 0 <= j < |urls| ==> !Usable(Fetch(scraper, urls[j], options))
    ensures Resolve(scraper, urls, options) == Walk(Some(Fetch(scraper, urls[|urls| - 1], options)), |urls|)
    decreases |urls|
  {
    if |urls| > 1 {
      assert !Usable(Fetch(scraper, urls[0], options));
      assert urls[1..][|urls| - 2] == urls[|urls| - 1];
      NoneUsable(scraper, urls[1..], options);
    }
  }

  /** The walk ends with a usable result exactly when some candidate is usable. */
  lemma {:induction false} UsableIffSomeCandidate(scraper: Scraper, urls: seq<string>, options: ScrapeOptions)
    ensures var w := Resolve(scraper, urls, options);
            (w.last.Some? && Usable(w.last.value)) <==> exists i :: 0 <= i < |urls| && Usable(Fetch(scraper, urls[i], options))
  {
    var w := Resolve(scraper, urls, options);
    if exists i :: 0 <= i < |urls| && Usable(Fetch(scraper, urls[i], options)) {
      var i :| 0 <= i < |urls| && Usable(Fetch(scraper, urls[i], options));
      assert w.tried < |urls| || i == w.tried - 1 || i < w.tried - 1;
    }
  }
}

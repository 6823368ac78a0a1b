/**
 The `Spider` crawler object: its link-filtering pipeline and its visit
 bookkeeping.

 The URL library the spider calls (`urlparse(...).netloc`, the authority
 of section 3.2 of RFC 3986, and `urljoin`, reference resolution of
 section 5.2 of RFC 3986) is not re-derived: the object carries the two
 library functions as constants, assumed total and pure, so every
 property below holds for any such implementation of them. The network
 fetch is abstracted into a `FetchOutcome` given to `DownloadPage`, and
 the HTML parser into a function given to `DownloadUrls`.
 */
module Crawler {
  import opened Lists
  import opened Text

  datatype Option<T> = None | Some(value: T)

  /** The body of a fetched page, as bytes. */
  type Page = seq<bv8>

  /** The three ways a request can end: the body, a timeout, or any other transport error. */
  datatype FetchOutcome = Success(body: Page) | Timeout | Error(cause: string)

  class Spider {
    /** The seed URL the crawl starts from. */
    const url: string
    /** When false, only links on the seed's host are followed. */
    const spanHosts: bool
    /** When true, only links containing the seed URL are followed. */
    const noParent: bool
    /** The authority (`netloc`) of a URL, "" when it has none. */
    const netloc: string -> string
    /** Resolution of a reference against a base URL. */
    const urljoin: (string, string) -> string
    /** The authority of the seed URL. */
    const baseUrl: string

    /** Every URL a fetch was attempted for, whatever its outcome. */
    var visitedUrls: set<string>
    /** Every URL whose fetch returned a body. */
    var successVisitedUrls: set<string>

    ghost predicate Valid()
      reads this
    {
      successVisitedUrls <= visitedUrls
    }

    constructor (url: string, spanHosts: bool, noParent: bool,
                 netloc: string -> string, urljoin: (string, string) -> string)
      ensures this.url == url && this.spanHosts == spanHosts && this.noParent == noParent
      ensures this.netloc == netloc && this.urljoin == urljoin
      ensures baseUrl == netloc(url)
      ensures visitedUrls == {} && successVisitedUrls == {}
      ensures Valid()
    {
      this.url := url;
      this.spanHosts := spanHosts;
      this.noParent := noParent;
      this.netloc := netloc;
      this.urljoin := urljoin;
      this.baseUrl := netloc(url);
      visitedUrls := {};
      successVisitedUrls := {};
    }

    // ---------------------------------------------------------------
    // Filter stages
    // ---------------------------------------------------------------

    /** The host-scope stage: the links on the seed's host, in input order. */
    function FilterOnlyHostLinks(links: seq<string>): (r: seq<string>)
      ensures IsSubsequence(r, links)
      ensures forall l :: l in r <==> l in links && netloc(l) == baseUrl
      ensures forall l :: multiset(r)[l] == if netloc(l) == baseUrl then multiset(links)[l] else 0
    {
      var onHost := l => netloc(l) == baseUrl;
      KeepIsSubsequence(links, onHost);
      KeepCounts(links, onHost);
      Keep(links, onHost)
    }

    /** The "no-parent" stage: the links that contain the seed URL as a substring, in input order. */
    function RemoveNotParentLinks(links: seq<string>): (r: seq<string>)
      ensures IsSubsequence(r, links)
      ensures forall l :: l in r <==> l in links && Contains(l, url)
      ensures forall l :: multiset(r)[l] == if Contains(l, url) then multiset(links)[l] else 0
    {
      var underSeed := l => Contains(l, url);
      KeepIsSubsequence(links, underSeed);
      KeepCounts(links, underSeed);
      Keep(links, underSeed)
    }

    /** The visited-exclusion stage: the links not yet visited, in input order. */
    function RemoveVisitedUrls(links: seq<string>): (r: seq<string>)
      reads this
      ensures IsSubsequence(r, links)
      ensures forall l :: l in r <==> l in links && l !in visitedUrls
      ensures forall l :: multiset(r)[l] == if l !in visitedUrls then multiset(links)[l] else 0
    {
      var visited := visitedUrls;
      var unvisited := l => l !in visited;
      KeepIsSubsequence(links, unvisited);
      KeepCounts(links, unvisited);
      Keep(links, unvisited)
    }

    lemma FilterOnlyHostLinksIdempotent(links: seq<string>)
      ensures FilterOnlyHostLinks(FilterOnlyHostLinks(links)) == FilterOnlyHostLinks(links)
    {
      KeepIdempotent(links, l => netloc(l) == baseUrl);
    }

    lemma RemoveNotParentLinksIdempotent(links: seq<string>)
      ensures RemoveNotParentLinks(RemoveNotParentLinks(links)) == RemoveNotParentLinks(links)
    {
      KeepIdempotent(links, l => Contains(l, url));
    }

    lemma RemoveVisitedUrlsIdempotent(links: seq<string>)
      ensures RemoveVisitedUrls(RemoveVisitedUrls(links)) == RemoveVisitedUrls(links)
    {
      var visited := visitedUrls;
      KeepIdempotent(links, l => l !in visited);
    }

    /** The two scope stages give the same list whichever runs first. */
    lemma ScopeStagesCommute(links: seq<string>)
      ensures RemoveNotParentLinks(FilterOnlyHostLinks(links))
           == FilterOnlyHostLinks(RemoveNotParentLinks(links))
    {
      KeepCommutes(links, l => netloc(l) == baseUrl, l => Contains(l, url));
    }

    // ---------------------------------------------------------------
    // Normalization
    // ---------------------------------------------------------------

    /** One href made absolute: kept when it names an authority, resolved against `base` otherwise. */
    function NormalizeLink(link: string, base: string): string
    {
      if netloc(link) == "" then urljoin(base, link) else link
    }

    /** The list `normalize_relative_links` builds, link by link. */
    function Normalized(links: seq<string>, base: string): (r: seq<string>)
      ensures |r| == |links|
      ensures forall i :: 0 <= i < |links| && netloc(links[i]) != "" ==> r[i] == links[i]
      ensures forall i :: 0 <= i < |links| && netloc(links[i]) == "" ==> r[i] == urljoin(base, links[i])
    {
      seq(|links|, i requires 0 <= i < |links| => NormalizeLink(links[i], base))
    }

    /** Normalization works link by link: a batch split in two normalizes to the two halves joined. */
    lemma NormalizedConcat(a: seq<string>, b: seq<string>, base: string)
      ensures Normalized(a + b, base) == Normalized(a, base) + Normalized(b, base)
    {
    }

    /** Links that already name an authority come through normalization unchanged. */
    lemma NormalizedAbsolute(links: seq<string>, base: string)
      requires forall l :: l in links ==> netloc(l) != ""
      ensures Normalized(links, base) == links
    {
    }

    /** Resolves every href of `links` that has no authority against `pageUrl`, or against the seed when `pageUrl` is `None`. */
    method NormalizeRelativeLinks(links: seq<string>, pageUrl: Option<string>) returns (normLinks: seq<string>)
      ensures normLinks == Normalized(links, if pageUrl.Some? then pageUrl.value else url)
      ensures |normLinks| == |links|
      ensures forall i :: 0 <= i < |links| && netloc(links[i]) != "" ==> normLinks[i] == links[i]
    {
      var base := if pageUrl.None? then url else pageUrl.value;
      normLinks := [];
      for i := 0 to |links|
        invariant |normLinks| == i
        invariant forall k :: 0 <= k < i ==> normLinks[k] == NormalizeLink(links[k], base)
      {
        var link := links[i];
        if netloc(link) == "" {
          link := urljoin(base, link);
        }
        normLinks := normLinks + [link];
      }
    }

    // ---------------------------------------------------------------
    // The pipeline
    // ---------------------------------------------------------------

    /** The conditions a normalized link must meet to leave the pipeline, given the switches. */
    predicate Admits(link: string)
      reads this
    {
      && (spanHosts || netloc(link) == baseUrl)
      && (!noParent || Contains(link, url))
      && link !in visitedUrls
    }

    /**
     The list `filter_links` returns for the hrefs `links` found on `pageUrl`:
     normalize, then the host stage unless `spanHosts`, then the no-parent
     stage if `noParent`, then visited exclusion.
     */
    function Filtered(links: seq<string>, pageUrl: string): (r: seq<string>)
      reads this
      ensures IsSubsequence(r, Normalized(links, pageUrl))
    {
      var normalized := Normalized(links, pageUrl);
      var hosted := if spanHosts then normalized else FilterOnlyHostLinks(normalized);
      var parented := if noParent then RemoveNotParentLinks(hosted) else hosted;
      var r := RemoveVisitedUrls(parented);
      SubsequenceReflexive(normalized);
      SubsequenceReflexive(hosted);
      SubsequenceTransitive(r, parented, hosted);
      SubsequenceTransitive(r, hosted, normalized);
      r
    }

    /**
     A link occurs in the pipeline's output exactly as often as among the
     normalized hrefs when the switches admit it, and not at all otherwise:
     a stage that is switched off imposes nothing, and duplicates are kept.
     */
    lemma FilteredCount(links: seq<string>, pageUrl: string, l: string)
      ensures multiset(Filtered(links, pageUrl))[l]
           == if Admits(l) then multiset(Normalized(links, pageUrl))[l] else 0
    {
      var normalized := Normalized(links, pageUrl);
      var hosted := if spanHosts then normalized else FilterOnlyHostLinks(normalized);
      assert multiset(hosted)[l] == if spanHosts || netloc(l) == baseUrl then multiset(normalized)[l] else 0;
      var parented := if noParent then RemoveNotParentLinks(hosted) else hosted;
      assert multiset(parented)[l] == if !noParent || Contains(l, url) then multiset(hosted)[l] else 0;
      assert Filtered(links, pageUrl) == RemoveVisitedUrls(parented);
    }

    /** A link is in the pipeline's output if and only if it is a normalized href the switches admit. */
    lemma FilteredMembership(links: seq<string>, pageUrl: string, l: string)
      ensures l in Filtered(links, pageUrl) <==> l in Normalized(links, pageUrl) && Admits(l)
    {
      FilteredCount(links, pageUrl, l);
    }

    /**
     When the host stage runs and the seed has an authority, filtering a
     second time removes nothing more: every survivor is already absolute,
     on the seed's host, in scope and unvisited.
     */
    lemma FilteredIdempotent(links: seq<string>, pageUrl: string)
      requires !spanHosts && baseUrl != ""
      ensures Filtered(Filtered(links, pageUrl), pageUrl) == Filtered(links, pageUrl)
    {
      var r := Filtered(links, pageUrl);
      forall i | 0 <= i < |r| ensures Admits(r[i]) {
        FilteredMembership(links, pageUrl, r[i]);
      }
      NormalizedAbsolute(r, pageUrl);
      KeepAll(r, l => netloc(l) == baseUrl);
      if noParent {
        KeepAll(r, l => Contains(l, url));
      }
      var visited := visitedUrls;
      KeepAll(r, l => l !in visited);
    }

    /** Runs the hrefs found on `pageUrl` through the configured stages. */
    method FilterLinks(links: seq<string>, pageUrl: string) returns (r: seq<string>)
      ensures r == Filtered(links, pageUrl)
      ensures IsSubsequence(r, Normalized(links, pageUrl))
      ensures forall l :: l in r ==> l !in visitedUrls
      ensures !spanHosts ==> forall l :: l in r ==> netloc(l) == baseUrl
      ensures noParent ==> forall l :: l in r ==> Contains(l, url)
    {
      r := NormalizeRelativeLinks(links, Some(pageUrl));
      if !spanHosts {
        r := FilterOnlyHostLinks(r);
      }
      if noParent {
        r := RemoveNotParentLinks(r);
      }
      r := RemoveVisitedUrls(r);
    }

    // ---------------------------------------------------------------
    // Visit bookkeeping
    // ---------------------------------------------------------------

    /**
     Records one fetch of `pageUrl` whose result was `outcome`: the URL is
     always marked visited, and marked succeeded and its body returned only
     when the fetch produced one.
     */
    method DownloadPage(pageUrl: string, outcome: FetchOutcome) returns (page: Option<Page>)
      modifies this
      ensures old(Valid()) ==> Valid()
      ensures visitedUrls == old(visitedUrls) + {pageUrl}
      ensures successVisitedUrls == if outcome.Success? then old(successVisitedUrls) + {pageUrl}
                                    else old(successVisitedUrls)
      ensures page == if outcome.Success? then Some(outcome.body) else None
      ensures |visitedUrls| <= old(|visitedUrls|) + 1
      ensures |successVisitedUrls| <= old(|successVisitedUrls|) + 1
    {
      match outcome {
        case Timeout =>
          page := None;
        case Error(_) =>
          page := None;
        case Success(body) =>
          successVisitedUrls := successVisitedUrls + {pageUrl};
          page := Some(body);
      }
      visitedUrls := visitedUrls + {pageUrl};
    }

    /**
     One step of the recursive crawl from `pageUrl`, without the task
     spawning: fetch it, and unless the fetch failed or gave an empty body,
     return the filtered links of the page, for which the crawl would start
     one task each. `extractLinks` stands for the HTML parser.
     */
    method DownloadUrls(pageUrl: string, outcome: FetchOutcome, extractLinks: Page -> seq<string>)
      returns (children: seq<string>)
      modifies this
      ensures old(Valid()) ==> Valid()
      ensures visitedUrls == old(visitedUrls) + {pageUrl}
      ensures successVisitedUrls == if outcome.Success? then old(successVisitedUrls) + {pageUrl}
                                    else old(successVisitedUrls)
      ensures children == if outcome.Success? && outcome.body != [] then Filtered(extractLinks(outcome.body), pageUrl)
                          else []
      ensures pageUrl !in children
      ensures forall c :: c in children ==> c !in visitedUrls
    {
      var page := DownloadPage(pageUrl, outcome);
      if page.None? || page.value == [] {
        return [];
      }
      var allLinks := extractLinks(page.value);
      children := FilterLinks(allLinks, pageUrl);
    }
  }
}

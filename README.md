# SpiderWarmCache crawler core in Dafny

SpiderWarmCache is a recursive web crawler that warms a site's cache. It
starts from a seed URL and fetches the page. It extracts the page's
hrefs and filters them. Then it fetches every surviving link the same way.
This project models the part of the `Spider` class that can be stated as
behaviour:

- the four filter stages and the pipeline `filter_links` that chains them;
- the `span_hosts` and `no_parent` switches that decide which stages run;
- the visit bookkeeping of `download_page`, with its two sets `visited_urls`
  and `success_visited_urls`.

Files:

- `lists.dfy` (module `Lists`): `Keep`, the list comprehension
  `[x for x in s if p(x)]` that every filter stage is, and the facts all
  stages share. These are subsequence (order preserved), exact occurrence
  counts, idempotence and commutation.
- `text.dfy` (module `Text`): Python's substring test `needle in hay`, which
  the no-parent stage uses. It is proved equal to the definition "occurs at
  some position".
- `spider.dfy` (module `Crawler`): the `Spider` class. The seed URL, the two
  switches and `base_url` are `const` fields, because no method changes
  them. `visitedUrls` and `successVisitedUrls` are `set` fields that
  `DownloadPage` updates. The object invariant `Valid()` is
  `successVisitedUrls <= visitedUrls`.
- `scenarios.dfy` (module `Scenarios`): concrete runs of the stages, taken
  from the repository's tests, from the substring semantics of the no-parent
  stage, and from the pipeline's keeping of duplicates.

The URL library is taken as given. `urlparse(u).netloc` is the authority of
section 3.2 of RFC 3986, and `urljoin` is reference resolution per section 5.2
of RFC 3986. The constructor takes both as functions and stores them as the
constants `netloc` and `urljoin`. The two are assumed total and pure, and
nothing else is assumed about them. So every property here holds for any
total, pure implementation of them, and the model does not re-derive URL
parsing.

The network fetch is a parameter of `DownloadPage`. It is a `FetchOutcome`:
success with the body's bytes, timeout, or any other error. The HTML link
extractor is a function parameter of `DownloadUrls`.

Two behaviours of the code are worth stating plainly:

- `filter_links` keeps duplicates within a batch. It has no query-stripping
  stage and no set of already-scheduled URLs. A root-relative href and the
  absolute href it resolves to both survive, as
  `Scenarios.FilterKeepsDuplicates` shows.
- The no-parent stage is a substring test against the whole seed URL, not a
  path-ancestry test. From the seed `https://host/dir/page` the sibling
  `https://host/dir/sub` is dropped (`Scenarios.NoParentDropsSibling`), and
  from the seed `https://host/dir` the link `https://host/dirX` is kept
  (`Scenarios.NoParentAdmitsLongerSegment`).

## Model

| member | source | states |
|---|---|---|
| `Crawler.Spider.constructor` | spider.py:34-52 | the seed, the switches and the URL library are stored; `baseUrl` is the netloc of the seed; both sets start empty, so the invariant succeeded ⊆ visited holds |
| `Lists.Keep` | spider.py:79-98 | the list comprehension keeps exactly the elements satisfying the condition and is never longer than its input |
| `Lists.KeepIsSubsequence` | spider.py:79-98 | a comprehension's result is a subsequence of its input, so the input order is kept |
| `Lists.KeepCount` | spider.py:79-98 | every occurrence of an admitted element survives and no occurrence of another one does, so duplicates are neither added nor removed |
| `Lists.KeepIdempotent` | spider.py:79-98 | filtering a second time with the same condition changes nothing |
| `Lists.KeepCommutes` | spider.py:103-106 | two comprehensions give the same list in either order |
| `Lists.SubsequenceTransitive` | spider.py:100-108 | a subsequence of a subsequence is a subsequence, so chained stages keep the input order |
| `Crawler.Spider.FilterOnlyHostLinks` | spider.py:79-80 | the result is a subsequence of the input; a link is in it iff it is in the input and its netloc equals `baseUrl`; each such link appears exactly as often as in the input |
| `Crawler.Spider.FilterOnlyHostLinksIdempotent` | spider.py:79-80 | applying the host stage twice equals applying it once |
| `Crawler.Spider.RemoveNotParentLinks` | spider.py:92-94 | the result is a subsequence of the input; a link is in it iff it is in the input and contains the seed URL as a substring; counts are kept for such links |
| `Crawler.Spider.RemoveNotParentLinksIdempotent` | spider.py:92-94 | applying the no-parent stage twice equals applying it once |
| `Crawler.Spider.RemoveVisitedUrls` | spider.py:96-98 | the result is a subsequence of the input; a link is in it iff it is in the input and not in `visitedUrls`, so the result is disjoint from the visited set; the visited set is only read |
| `Crawler.Spider.RemoveVisitedUrlsIdempotent` | spider.py:96-98 | applying visited exclusion twice equals applying it once |
| `Crawler.Spider.ScopeStagesCommute` | spider.py:103-106 | the host stage and the no-parent stage give the same list whichever runs first |
| `Crawler.Spider.Normalized` | spider.py:82-90 | normalization keeps the length; element i is the input link when that link has a non-empty netloc, and otherwise `urljoin(base, link)` |
| `Crawler.Spider.NormalizedConcat` | spider.py:86-89 | normalization works link by link: normalizing a concatenation gives the concatenation of the normalized parts |
| `Crawler.Spider.NormalizedAbsolute` | spider.py:87-88 | links that all name an authority come through normalization unchanged |
| `Crawler.Spider.NormalizeRelativeLinks` | spider.py:82-90 | the loop builds exactly the normalized list; the base is the given page URL, or the seed URL when none is given; length is kept and absolute links are unchanged |
| `Crawler.Spider.Filtered` | spider.py:100-108 | the pipeline's result is a subsequence of the normalized hrefs |
| `Crawler.Spider.FilteredCount` | spider.py:100-108 | a link occurs in the result exactly as often as among the normalized hrefs when it is admitted, and never otherwise. Admitted means: on the seed's host unless `span_hosts`, containing the seed URL if `no_parent`, and not visited. So a switched-off stage imposes nothing |
| `Crawler.Spider.FilteredMembership` | spider.py:100-108 | a link is in the result iff it is a normalized href that is admitted, in both directions |
| `Crawler.Spider.FilteredIdempotent` | spider.py:100-108 | with the host stage on and a seed that has an authority, filtering the result again leaves it unchanged |
| `Crawler.Spider.FilterLinks` | spider.py:100-108 | the method returns the pipeline's list, which is a subsequence of the normalized hrefs with no visited URL in it; with `span_hosts` off, every link is on the seed's host; with `no_parent` on, every link contains the seed URL |
| `Crawler.Spider.DownloadPage` | spider.py:54-68 | the URL is added to `visitedUrls` on every outcome; it is added to `successVisitedUrls`, and the body returned, only on success, and nothing is returned otherwise; succeeded ⊆ visited is preserved when it held before; each set grows by at most one |
| `Crawler.Spider.DownloadUrls` | spider.py:110-117 | after the download, a failed fetch or an empty body yields no child links; otherwise the children are the filtered links of the page; the page's own URL is never among its children, and no child is visited |
| `Text.ContainsLength` | spider.py:94 | a string only contains strings no longer than itself |
| `Text.ContainsIffOccurs` | spider.py:94 | the recursive substring test holds iff the needle occurs at some position of the string, in both directions |
| `Scenarios.HostFilterExample` | tests/filter_test.py:14-23 | for a spider seeded at `https://www.google.com`, the host stage keeps the two google links and drops `https://www.bla.com/` |
| `Scenarios.NormalizeExample` | tests/filter_test.py:26-34 | an absolute link is kept and `/search` is resolved against the seed |
| `Scenarios.NoParentDropsSibling` | spider.py:92-94 | from the seed `https://host/dir/page`, the no-parent stage drops the sibling `https://host/dir/sub` as well as `https://host/other` |
| `Scenarios.NoParentAdmitsLongerSegment` | spider.py:92-94 | from the seed `https://host/dir`, the no-parent stage keeps `https://host/dirX` |
| `Scenarios.FilterKeepsDuplicates` | spider.py:100-108 | a root-relative href and the absolute href it resolves to both survive the pipeline, and the external link is dropped |

## Left out

- Task spawning in `download_urls` with `asyncio.create_task` and `gather` (spider.py:117-121), and `run_spider`'s session lifecycle and summary (spider.py:70-77). These are asynchronous concurrency and network I/O. `DownloadUrls` returns the list of links for which one task each would be started.
- The aiohttp request, the client timeout and the session (spider.py:43, 45, 57-58, 72). Only the three outcomes of a request are modelled, as `FetchOutcome`, and the `timeout` argument is not kept.
- `get_all_links_from_page` (spider.py:123-130). It wraps an HTML parser that is not part of this model, so `DownloadUrls` takes the extractor as a function parameter.
- The internals of `urlparse` and `urljoin`. They are the constructor's function parameters `netloc` and `urljoin`, assumed total and pure, with no other property assumed.
- NormalizeRelativeLinks, FilterOnlyHostLinks, FilterLinks and the constructor: the `ValueError` that `urlparse` raises for some hrefs (an unbalanced bracket such as `http://[oops` gives "Invalid IPv6 URL") is not modelled. In the source, one such href makes `get_base_url` (spider.py:52, 80, 87) raise inside `normalize_relative_links` and `filter_links` (spider.py:102), and the error passes through `download_urls` and `asyncio.gather` (spider.py:115, 121) to `run_spider` (spider.py:74), which stops the crawl. In the model, `netloc` and `urljoin` are total, so every stage returns a list for every input.
- DownloadPage and DownloadUrls treat the fetch as one atomic step. In the source, sibling tasks run while the request at spider.py:57-58 is awaited, and they add to both sets. So `old(...)` in these contracts stands for the state after the request returns, and "each set grows by at most one" counts only this call's own additions.
- `args_parse`, the `__main__` block and all printing (spider.py:12-30, 60, 62, 64, 71, 75-77, 133-142). These are the command line and console output.
- The switches are tested with `is False` and `is True` (spider.py:103, 105). The model's switches are `bool`, so a non-boolean value such as `None`, for which neither stage would run, is not modelled.
- The `copy` of the caller's list in `filter_links` (spider.py:101). Lists are `seq` values in the model, so the caller's list cannot be changed by construction.
- Python's set iteration order is unspecified. The tests pass sets to the stages, and the model's stages take sequences, so a test's set becomes one fixed order.

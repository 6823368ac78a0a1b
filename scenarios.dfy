/**
 Concrete runs of the filter stages. Each lemma fixes what the URL
 library answers for the handful of URLs involved and states what the
 spider then returns.
 */
module Scenarios {
  import opened Text
  import opened Crawler

  /** The host stage for a spider seeded at `https://www.google.com`. */
  lemma HostFilterExample(sp: Spider)
    requires sp.baseUrl == "www.google.com"
    requires sp.netloc("https://www.google.com") == "www.google.com"
    requires sp.netloc("https://www.bla.com/") == "www.bla.com"
    requires sp.netloc("https://www.google.com/search") == "www.google.com"
    ensures sp.FilterOnlyHostLinks(["https://www.google.com", "https://www.bla.com/", "https://www.google.com/search"])
         == ["https://www.google.com", "https://www.google.com/search"]
  {
    var links := ["https://www.google.com", "https://www.bla.com/", "https://www.google.com/search"];
    var r := sp.FilterOnlyHostLinks(links);
    assert |r| <= 3;
    assert "https://www.google.com" in r && "https://www.google.com/search" in r;
    assert "https://www.bla.com/" !in r;
    assert multiset(r)["https://www.google.com"] == 1;
    assert multiset(r)["https://www.google.com/search"] == 1;
  }

  /** Normalization against the seed: an absolute link is kept, a root-relative one is resolved. */
  lemma NormalizeExample(sp: Spider)
    requires sp.url == "https://www.google.com"
    requires sp.netloc("https://www.google.com/media/") == "www.google.com"
    requires sp.netloc("/search") == ""
    requires sp.urljoin("https://www.google.com", "/search") == "https://www.google.com/search"
    ensures sp.Normalized(["https://www.google.com/media/", "/search"], sp.url)
         == ["https://www.google.com/media/", "https://www.google.com/search"]
  {
  }

  /**
   The no-parent stage is a substring test on the whole seed URL, not a
   path-ancestry test: from the seed `https://host/dir/page`, a sibling
   page in the same directory is dropped as well as a page elsewhere.
   */
  lemma NoParentDropsSibling(sp: Spider)
    requires sp.url == "https://host/dir/page"
    ensures sp.RemoveNotParentLinks(["https://host/dir/sub", "https://host/other"]) == []
  {
    var links := ["https://host/dir/sub", "https://host/other"];
    if Contains(links[0], sp.url) {
      ContainsLength(links[0], sp.url);
    }
    if Contains(links[1], sp.url) {
      ContainsLength(links[1], sp.url);
    }
  }

  /** The same test also admits a path that merely extends the seed's last segment. */
  lemma NoParentAdmitsLongerSegment(sp: Spider)
    requires sp.url == "https://host/dir"
    ensures sp.RemoveNotParentLinks(["https://host/dirX"]) == ["https://host/dirX"]
  {
    var r := sp.RemoveNotParentLinks(["https://host/dirX"]);
    assert "https://host/dir" <= "https://host/dirX";
    assert Contains("https://host/dirX", sp.url);
    assert multiset(r)["https://host/dirX"] == 1;
    assert |r| <= 1;
  }

  /**
   The pipeline does not collapse duplicates within a batch: a
   root-relative href and the absolute href it resolves to both survive.
   */
  lemma FilterKeepsDuplicates(sp: Spider)
    requires !sp.spanHosts && !sp.noParent
    requires sp.visitedUrls == {}
    requires sp.baseUrl == "example.test"
    requires sp.netloc("/a") == ""
    requires sp.netloc("https://example.test/a") == "example.test"
    requires sp.netloc("https://external.test/x") == "external.test"
    requires sp.urljoin("https://example.test/", "/a") == "https://example.test/a"
    ensures sp.Filtered(["/a", "https://example.test/a", "https://external.test/x"], "https://example.test/")
         == ["https://example.test/a", "https://example.test/a"]
  {
    var links := ["/a", "https://example.test/a", "https://external.test/x"];
    var page := "https://example.test/";
    var normalized := sp.Normalized(links, page);
    assert normalized == ["https://example.test/a", "https://example.test/a", "https://external.test/x"];
    var r := sp.Filtered(links, page);
    sp.FilteredCount(links, page, "https://example.test/a");
    assert multiset(normalized)["https://example.test/a"] == 2;
    sp.FilteredMembership(links, page, "https://external.test/x");
    forall l | l in r ensures l == "https://example.test/a" {
      sp.FilteredMembership(links, page, l);
    }
    assert multiset(r) == multiset{"https://example.test/a", "https://example.test/a"};
    assert |r| == |multiset(r)| == 2;
    assert r[0] in r && r[1] in r;
  }
}

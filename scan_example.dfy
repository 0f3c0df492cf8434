/** The end-to-end scan scenario: seed `https://example.com` whose page links to `/about`,
    to `/contact#top` and to another domain. */
module ScanExample {
  import opened Text
  import opened Url
  import opened Harvest

  lemma ExampleHost(base: string)
    requires base == "example.com"
    ensures forall k :: 0 <= k < |base| ==> base[k] !in NetlocEnd
  {
  }

  lemma ExampleSeed(targetUrl: string, base: string)
    requires targetUrl == "https://example.com" && base == "example.com"
    ensures GetDomain(targetUrl) == base && Seed(targetUrl) == targetUrl
  {
    ExampleHost(base);
    assert targetUrl == "https://" + base + "";
    DomainOfHttpsUrl(base, "");
  }

  lemma NoCut(url: string)
    requires '#' !in url && '?' !in url
    ensures Clean(url) == url
  {
  }

  lemma AboutPlain(url: string)
    requires url == "https://example.com/about"
    ensures '#' !in url && '?' !in url
  {
  }

  lemma AboutDomain(url: string, base: string)
    requires url == "https://example.com/about" && base == "example.com"
    ensures GetDomain(url) == base
  {
    ExampleHost(base);
    assert url == "https://" + base + "/about";
    DomainOfHttpsUrl(base, "/about");
  }

  lemma ExampleAbout(url: string, base: string)
    requires url == "https://example.com/about" && base == "example.com"
    ensures Contribution(url, base) == {url}
  {
    AboutPlain(url);
    NoCut(url);
    AboutDomain(url, base);
  }

  lemma ContactCut(url: string)
    requires url == "https://example.com/contact#top"
    ensures CutAt(url, '#') == "https://example.com/contact"
  {
    assert forall k :: 0 <= k < 27 ==> url[k] != '#';
    assert url[27] == '#';
  }

  lemma ContactPlain(url: string)
    requires url == "https://example.com/contact"
    ensures '?' !in url
  {
  }

  lemma ExampleContact(url: string, base: string)
    requires url == "https://example.com/contact#top" && base == "example.com"
    ensures Contribution(url, base) == {"https://example.com/contact"}
  {
    ContactCut(url);
    var clean := "https://example.com/contact";
    ContactPlain(clean);
    assert CutAt(clean, '?') == clean;
    ContactDomain(url, base);
  }

  lemma ContactDomain(url: string, base: string)
    requires url == "https://example.com/contact#top" && base == "example.com"
    ensures GetDomain(url) == base
  {
    ExampleHost(base);
    assert url == "https://" + base + "/contact#top";
    DomainOfHttpsUrl(base, "/contact#top");
  }

  lemma ExampleOther(url: string, base: string)
    requires url == "https://other.com/x" && base == "example.com"
    ensures Contribution(url, base) == {}
  {
    var other := "other.com";
    assert forall k :: 0 <= k < |other| ==> other[k] !in NetlocEnd;
    assert url == "https://" + other + "/x";
    DomainOfHttpsUrl(other, "/x");
  }

  /** Three links harvest the union of what each of them contributes. */
  lemma HarvestedThree(links: seq<string>, base: string, s0: set<string>, s1: set<string>, s2: set<string>)
    requires |links| == 3
    requires Contribution(links[0], base) == s0
    requires Contribution(links[1], base) == s1
    requires Contribution(links[2], base) == s2
    ensures Harvested(links, base) == s0 + s1 + s2
  {
    var add := url => Contribution(url, base);
    GatheredStep(links, 0, add);
    GatheredStep(links, 1, add);
    GatheredStep(links, 2, add);
    assert links[..0] == [];
    assert links[..3] == links;
  }

  /** The three links harvest the about page and the contact page without its fragment. */
  lemma ExampleHarvest(links: seq<string>, base: string)
    requires links == ["https://example.com/about", "https://example.com/contact#top", "https://other.com/x"]
    requires base == "example.com"
    ensures Harvested(links, base) == {links[0], "https://example.com/contact"}
  {
    ExampleLinks(links, base);
    HarvestedThree(links, base, {links[0]}, {"https://example.com/contact"}, {});
  }

  /** What each of the three example links contributes. */
  lemma ExampleLinks(links: seq<string>, base: string)
    requires links == ["https://example.com/about", "https://example.com/contact#top", "https://other.com/x"]
    requires base == "example.com"
    ensures Contribution(links[0], base) == {links[0]}
    ensures Contribution(links[1], base) == {"https://example.com/contact"}
    ensures Contribution(links[2], base) == {}
  {
    ExampleAbout(links[0], base);
    ExampleContact(links[1], base);
    ExampleOther(links[2], base);
  }

  /** The scan keeps the seed and the two same-domain links, the second without its fragment. */
  lemma ExampleScan(targetUrl: string, links: seq<string>)
    requires targetUrl == "https://example.com"
    requires links == ["https://example.com/about", "https://example.com/contact#top", "https://other.com/x"]
    ensures ScanSet(targetUrl, links)
         == {"https://example.com", "https://example.com/about", "https://example.com/contact"}
  {
    var base := "example.com";
    ExampleSeed(targetUrl, base);
    ExampleHarvest(links, base);
  }
}

/** The same-domain link scan of the sitemap module (app.py:297-313), over links that are already
    resolved against the scanned page: the seed, the filter and clean-up of each link, and the
    cut of the resulting set to at most fifty entries. */
module Harvest {
  import opened Text
  import opened Url

  /** `st.session_state['sitemap_urls'] = list(found_links)[:50]`. */
  const MaxSitemapUrls: nat := 50

  /** `target_url.rstrip('/')`: the entry the scanned page itself contributes. */
  function Seed(targetUrl: string): (seed: string)
    ensures seed <= targetUrl
    ensures seed == [] || seed[|seed| - 1] != '/'
    ensures forall k :: |seed| <= k < |targetUrl| ==> targetUrl[k] == '/'
  {
    RStrip(targetUrl, '/')
  }

  /** Cutting at `#` and then at `?` stops only at one of the two. */
  lemma CutTwiceStops(url: string)
    ensures var r := CutAt(CutAt(url, '#'), '?');
            |r| < |url| ==> url[|r|] == '#' || url[|r|] == '?'
  {
    var m := CutAt(url, '#');
    var r := CutAt(m, '?');
    if |r| < |m| {
      assert m[|r|] == '?' && url[|r|] == m[|r|];
    } else {
      assert r == m;
    }
  }

  /** `full_url.split('#')[0].split('?')[0]`: the link without its fragment and query. */
  function Clean(url: string): (r: string)
    ensures r <= url
    ensures '#' !in r && '?' !in r
    ensures |r| < |url| ==> url[|r|] == '#' || url[|r|] == '?'
    ensures GetDomain(r) == GetDomain(url)
  {
    DomainOfCut(url, '#');
    DomainOfCut(CutAt(url, '#'), '?');
    CutTwiceStops(url);
    CutAt(CutAt(url, '#'), '?')
  }

  /** The two tests a resolved link must pass before its cleaned form is added. */
  predicate Keep(url: string, baseDomain: string)
  {
    GetDomain(url) == baseDomain && "http" <= Clean(url)
  }

  /** What every harvested link satisfies. */
  predicate Qualifies(url: string, baseDomain: string)
  {
    GetDomain(url) == baseDomain && '#' !in url && '?' !in url && "http" <= url
  }

  /** What one resolved link adds to `found_links`: its cleaned form when it passes both tests. */
  function Contribution(url: string, baseDomain: string): (added: set<string>)
    ensures added == {} || added == {Clean(url)}
    ensures added != {} <==> Keep(url, baseDomain)
  {
    if Keep(url, baseDomain) then {Clean(url)} else {}
  }

  /** The union of what each link of `links` adds, taken in loop order. */
  function Gathered(links: seq<string>, add: string -> set<string>): set<string>
    decreases |links|
  {
    if links == [] then {} else Gathered(links[..|links| - 1], add) + add(links[|links| - 1])
  }

  /** A value is gathered exactly when some link adds it. */
  lemma {:induction false} GatheredExactly(links: seq<string>, add: string -> set<string>, x: string)
    ensures x in Gathered(links, add) <==> exists i :: 0 <= i < |links| && x in add(links[i])
    decreases |links|
  {
    if links != [] {
      var n := |links| - 1;
      var init := links[..n];
      GatheredExactly(init, add, x);
      if x in Gathered(init, add) {
        var i :| 0 <= i < n && x in add(init[i]);
        assert init[i] == links[i];
      } else if x !in add(links[n]) {
        forall i | 0 <= i < |links| ensures x !in add(links[i]) {
          if i < n {
            assert init[i] == links[i];
          }
        }
      }
    }
  }

  /** The cleaned links added to `found_links` by the loop over `links`. */
  function Harvested(links: seq<string>, baseDomain: string): set<string>
  {
    Gathered(links, url => Contribution(url, baseDomain))
  }

  /** The harvested set holds the cleaned form of exactly the links that pass both tests. */
  lemma HarvestedExactly(links: seq<string>, baseDomain: string, x: string)
    ensures x in Harvested(links, baseDomain)
        <==> exists i :: 0 <= i < |links| && Keep(links[i], baseDomain) && Clean(links[i]) == x
  {
    GatheredExactly(links, url => Contribution(url, baseDomain), x);
  }

  /** Every harvested link has the seed's domain, starts with `http` and holds no `#` and no `?`. */
  lemma HarvestedQualify(links: seq<string>, baseDomain: string, x: string)
    requires x in Harvested(links, baseDomain)
    ensures Qualifies(x, baseDomain)
  {
    HarvestedExactly(links, baseDomain, x);
  }

  /** The whole set a successful scan of `targetUrl` produces: the seed and every harvested link. */
  function ScanSet(targetUrl: string, links: seq<string>): set<string>
  {
    {Seed(targetUrl)} + Harvested(links, GetDomain(targetUrl))
  }

  /** Taking one more link into the loop adds that link's contribution. */
  lemma GatheredStep(links: seq<string>, i: nat, add: string -> set<string>)
    requires i < |links|
    ensures Gathered(links[..i + 1], add) == Gathered(links[..i], add) + add(links[i])
  {
    assert links[..i + 1][..i] == links[..i];
  }

  /** One more pass of the loop adds the link's contribution to the set built so far. */
  lemma ScanStep(found: set<string>, seed: string, links: seq<string>, i: nat, baseDomain: string)
    requires i < |links|
    requires found == {seed} + Harvested(links[..i], baseDomain)
    ensures found + Contribution(links[i], baseDomain) == {seed} + Harvested(links[..i + 1], baseDomain)
  {
    GatheredStep(links, i, url => Contribution(url, baseDomain));
  }

  /** A pass whose link passes both tests adds the cleaned link. */
  lemma ScanStepKept(found: set<string>, seed: string, links: seq<string>, i: nat, baseDomain: string,
                     cleanUrl: string)
    requires i < |links|
    requires found == {seed} + Harvested(links[..i], baseDomain)
    requires GetDomain(links[i]) == baseDomain
    requires cleanUrl == CutAt(CutAt(links[i], '#'), '?') && "http" <= cleanUrl
    ensures found + {cleanUrl} == {seed} + Harvested(links[..i + 1], baseDomain)
  {
    ContributionAsWritten(links[i], baseDomain);
    ScanStep(found, seed, links, i, baseDomain);
  }

  /** A pass whose link fails either test leaves the set as it is. */
  lemma ScanStepSkipped(found: set<string>, seed: string, links: seq<string>, i: nat, baseDomain: string)
    requires i < |links|
    requires found == {seed} + Harvested(links[..i], baseDomain)
    requires !(GetDomain(links[i]) == baseDomain && "http" <= CutAt(CutAt(links[i], '#'), '?'))
    ensures found == {seed} + Harvested(links[..i + 1], baseDomain)
  {
    ContributionAsWritten(links[i], baseDomain);
    ScanStep(found, seed, links, i, baseDomain);
  }

  /** After the last pass the set is the scan set, with the seed in it and every other member qualifying. */
  lemma ScanDone(found: set<string>, targetUrl: string, links: seq<string>)
    requires found == {Seed(targetUrl)} + Harvested(links[..|links|], GetDomain(targetUrl))
    ensures found == ScanSet(targetUrl, links)
    ensures Seed(targetUrl) in found
    ensures forall x :: x in found ==> x == Seed(targetUrl) || Qualifies(x, GetDomain(targetUrl))
  {
    assert links[..|links|] == links;
    ScanSetQualifies(targetUrl, links);
  }

  /** The loop body's two tests, as written, decide a link's contribution. */
  lemma ContributionAsWritten(fullUrl: string, baseDomain: string)
    ensures Contribution(fullUrl, baseDomain)
         == if GetDomain(fullUrl) == baseDomain && "http" <= CutAt(CutAt(fullUrl, '#'), '?')
            then {CutAt(CutAt(fullUrl, '#'), '?')} else {}
  {
  }

  /** Every member of a scan's set is the seed or a link that qualifies. */
  lemma ScanSetQualifies(targetUrl: string, links: seq<string>)
    ensures forall x :: x in ScanSet(targetUrl, links) ==> x == Seed(targetUrl) || Qualifies(x, GetDomain(targetUrl))
  {
    forall x | x in ScanSet(targetUrl, links) && x != Seed(targetUrl) ensures Qualifies(x, GetDomain(targetUrl)) {
      HarvestedQualify(links, GetDomain(targetUrl), x);
    }
  }

  /** The loop of app.py:299-307 that fills `found_links`. */
  method HarvestLinks(targetUrl: string, links: seq<string>) returns (found: set<string>)
    ensures found == ScanSet(targetUrl, links)
    ensures Seed(targetUrl) in found
    ensures forall x :: x in found ==> x == Seed(targetUrl) || Qualifies(x, GetDomain(targetUrl))
  {
    var baseDomain := GetDomain(targetUrl);
    found := {RStrip(targetUrl, '/')};
    for i := 0 to |links|
      invariant found == {Seed(targetUrl)} + Harvested(links[..i], baseDomain)
    {
      var fullUrl := links[i];
      if GetDomain(fullUrl) == baseDomain {
        var cleanUrl := CutAt(CutAt(fullUrl, '#'), '?');
        if "http" <= cleanUrl {
          ScanStepKept(found, Seed(targetUrl), links, i, baseDomain, cleanUrl);
          found := found + {cleanUrl};
        } else {
          ScanStepSkipped(found, Seed(targetUrl), links, i, baseDomain);
        }
      } else {
        ScanStepSkipped(found, Seed(targetUrl), links, i, baseDomain);
      }
    }
    ScanDone(found, targetUrl, links);
  }

  /** What `list(found)[:limit]` may give: `limit` distinct members of `found`, or all of them when
      there are no more than `limit`. Python's set order is unspecified, so which members is left open. */
  predicate ListedFrom(urls: seq<string>, found: set<string>, limit: nat)
  {
    && |urls| == (if |found| < limit then |found| else limit)
    && (forall i :: 0 <= i < |urls| ==> urls[i] in found)
    && (forall i, j :: 0 <= i < j < |urls| ==> urls[i] != urls[j])
    && (|found| <= limit ==> forall x :: x in found ==> x in urls)
  }

  /** `list(found)[:limit]`: up to `limit` distinct members of `found`, picked in no particular order. */
  method ListPrefix(found: set<string>, limit: nat) returns (urls: seq<string>)
    ensures ListedFrom(urls, found, limit)
  {
    urls := [];
    var remaining := found;
    while |urls| < limit && remaining != {}
      invariant remaining <= found
      invariant |urls| + |remaining| == |found|
      invariant |urls| <= limit
      invariant forall i :: 0 <= i < |urls| ==> urls[i] in found && urls[i] !in remaining
      invariant forall i, j :: 0 <= i < j < |urls| ==> urls[i] != urls[j]
      invariant forall x :: x in found ==> x in remaining || x in urls
      decreases |remaining|
    {
      var x :| x in remaining;
      urls := urls + [x];
      remaining := remaining - {x};
    }
  }

  /** A set holding `seed` has a second member exactly when something in it is not `seed`. */
  lemma SecondMember(seed: string, others: set<string>)
    ensures |{seed} + others| >= 2 <==> exists x :: x in others && x != seed
  {
    if x :| x in others && x != seed {
      var rest := others - {seed};
      assert x in rest;
      assert {seed} + others == {seed} + rest;
      assert {seed} * rest == {};
    } else {
      assert {seed} + others == {seed};
    }
  }

  /** Every link that survives the filter is harvested in its cleaned form. */
  lemma OtherPageHarvested(links: seq<string>, base: string, i: int)
    requires 0 <= i < |links| && Keep(links[i], base)
    ensures Clean(links[i]) in Harvested(links, base)
  {
    HarvestedExactly(links, base, Clean(links[i]));
  }

  /** The scan falls back to manual entry (fewer than two links found) exactly when no link of the
      page survives the filter as anything other than the seed. */
  lemma ScanFindsAnotherPage(targetUrl: string, links: seq<string>)
    ensures |ScanSet(targetUrl, links)| >= 2
        <==> exists i :: 0 <= i < |links| && Keep(links[i], GetDomain(targetUrl)) && Clean(links[i]) != Seed(targetUrl)
  {
    var seed := Seed(targetUrl);
    var base := GetDomain(targetUrl);
    var harvested := Harvested(links, base);
    SecondMember(seed, harvested);
    if i :| 0 <= i < |links| && Keep(links[i], base) && Clean(links[i]) != seed {
      OtherPageHarvested(links, base, i);
    } else if x :| x in harvested && x != seed {
      HarvestedExactly(links, base, x);
    }
  }

  /** The seed of an http(s) URL still starts with `http`: stripping slashes never reaches the scheme. */
  lemma SeedKeepsScheme(targetUrl: string)
    requires HasScheme(targetUrl)
    ensures "http" <= Seed(targetUrl)
  {
    assert targetUrl[3] == 'p';
    assert Seed(targetUrl)[..4] == targetUrl[..4];
  }
}

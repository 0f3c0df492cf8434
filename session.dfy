/** The session state of the sitemap module (app.py:284-340): the stored `sitemap_urls` and the
    `use_manual` switch, the auto-scan that fills them (app.py:287-319), the manual form that replaces
    the list (app.py:321-332), and the document shown while the list is non-empty (app.py:334-340). */
module SitemapSession {
  import opened Text
  import opened Url
  import opened Harvest
  import opened Manual
  import opened SitemapXml

  /** What fetching the scanned page gave: the page's links, already resolved against it, or an
      error from the request (a timeout, a refused connection, a status of 400 or more). */
  datatype FetchResult = Fetched(links: seq<string>) | FetchFailed

  class Session {
    /** `st.session_state['sitemap_urls']`. */
    var sitemapUrls: seq<string>
    /** `st.session_state['use_manual']`. */
    var useManual: bool

    /** Every stored URL starts with `http`, whichever path stored it. */
    predicate Valid()
      reads this
    {
      forall i :: 0 <= i < |sitemapUrls| ==> "http" <= sitemapUrls[i]
    }

    /** The first visit: no URLs and the manual form hidden (app.py:284-285). */
    constructor()
      ensures sitemapUrls == [] && !useManual
      ensures Valid()
    {
      sitemapUrls := [];
      useManual := false;
    }

    /** Pressing "Attempt Auto-Scan" with `targetInput` in the URL box, the fetch of the page
        answering `page`. An empty box does nothing; a failed fetch or a scan with fewer than two
        URLs switches to the manual form and keeps the stored list; otherwise up to fifty of the
        found URLs replace it and the manual form is hidden. */
    method AutoScan(targetInput: string, page: FetchResult)
      requires Valid()
      modifies this
      ensures Valid()
      ensures targetInput == [] ==> sitemapUrls == old(sitemapUrls) && useManual == old(useManual)
      ensures targetInput != [] && page.FetchFailed? ==> useManual && sitemapUrls == old(sitemapUrls)
      ensures targetInput != [] && page.Fetched? && |ScanSet(ValidateUrl(targetInput), page.links)| < 2
              ==> useManual && sitemapUrls == old(sitemapUrls)
      ensures targetInput != [] && page.Fetched? && |ScanSet(ValidateUrl(targetInput), page.links)| >= 2
              ==> !useManual && ListedFrom(sitemapUrls, ScanSet(ValidateUrl(targetInput), page.links), MaxSitemapUrls)
    {
      if targetInput != [] {
        var targetUrl := ValidateUrl(targetInput);
        match page
        case FetchFailed =>
          useManual := true;
        case Fetched(links) =>
          var found := HarvestLinks(targetUrl, links);
          if |found| < 2 {
            useManual := true;
          } else {
            var urls := ListPrefix(found, MaxSitemapUrls);
            SeedKeepsScheme(targetUrl);
            forall i | 0 <= i < |urls| ensures "http" <= urls[i] {
              assert urls[i] in found;
            }
            sitemapUrls := urls;
            useManual := false;
          }
      }
    }

    /** Submitting the manual form whose boxes (Homepage, two service pages, About, Contact) hold
        `entries`, in form order. The form is only on the page while `useManual` is set; there it
        replaces the stored list by the normalised non-blank entries. */
    method SubmitManual(entries: seq<string>)
      requires Valid()
      modifies this
      ensures Valid()
      ensures useManual == old(useManual)
      ensures old(useManual) ==> sitemapUrls == ManualUrls(entries)
      ensures !old(useManual) ==> sitemapUrls == old(sitemapUrls)
    {
      if useManual {
        ManualUrlsStartWithHttp(entries);
        sitemapUrls := ManualUrls(entries);
      }
    }

    /** The "Generated XML" section: shown, for today's date `date`, only while URLs are stored,
        and then the document that lists exactly those URLs, in stored order. */
    method SitemapDocument(date: string) returns (xml: Option<string>)
      ensures xml.None? <==> sitemapUrls == []
      ensures xml.Some? ==> xml.value == XmlHeader + UrlElements(sitemapUrls, date) + UrlsetClose
      ensures xml.Some? && '<' !in date && (forall i :: 0 <= i < |sitemapUrls| ==> '<' !in sitemapUrls[i])
              ==> ParseSitemap(xml.value) == Some(Dated(sitemapUrls, date))
    {
      if sitemapUrls == [] {
        xml := None;
      } else {
        var doc := BuildSitemapXml(sitemapUrls, date);
        xml := Some(doc);
      }
    }
  }
}

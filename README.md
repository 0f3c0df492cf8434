# LLMO Authority Guard: a verified model of its generators

LLMO Authority Guard is a single-page Streamlit dashboard (`app.py`). It helps a site owner make a site
readable by AI crawlers. Behind its widgets sit a few small text and state transformations, and this
project models them in Dafny:

- `Url`: `validate_url` (prefix `https://` unless the URL already names http or https) and `get_domain`
  (the network location, as Python's `urlsplit` finds it: a scheme of letters, digits, `+`, `-`, `.`
  before the first `:`, then the text between a leading `//` and the first `/`, `?` or `#`).
- `Harvest`: the auto-scan loop of the sitemap module. It seeds the set with the target URL without
  trailing slashes, then keeps each same-domain link cut at `#` and `?` when it starts with `http`.
  It also models `list(found)[:50]`.
- `Manual`: the manual form's list, meaning the non-blank boxes, normalised by `validate_url`.
- `SitemapSession`: the two session values `sitemap_urls` and `use_manual`, as a class. Its methods
  are the first visit, an auto-scan, a manual submission and the generated document.
- `SitemapXml`: the sitemap document and a reader for it.
- `Robots`: the robots.txt text for the four crawler check boxes and a reader for it.
- `Schema`: the JSON-LD identity record as a dictionary.
- `Meta`: the robots directive and the HTML head snippet, with its optional canonical link, and a
  reader for it.
- `ScanExample`: a worked scan of one page.
- `Text`: the string helpers the others share, such as `str.split(c)[0]`, `rstrip`, `strip`,
  `startswith` and index search.

Each generated artifact has a partner, a reader that parses the text back. A round-trip lemma says
the reader recovers exactly what went in, in order. For the sitemap this is the URLs and the date. For
robots.txt it is the user agents. For the head snippet it is every field and the canonical link.
These hold whenever the values contain no character that would end their field early (`<` in the
XML, `"` in an attribute, a newline in a user agent), because the program does no escaping.

## Model

| member | source | states |
|---|---|---|
| Url.ValidateUrl | app.py:131-134 | the result always starts with `http://` or `https://`; a URL that already does is returned unchanged; otherwise the result is `https://` followed by the input |
| Url.ValidateUrlDefaultsToHttps | app.py:132-133 | a URL with no http(s) prefix becomes `https://` followed by the whole input |
| Url.ValidateUrlIdempotent | app.py:131-134 | normalising an already normalised URL changes nothing |
| Url.SchemeStartsHttp | app.py:132 | either accepted prefix starts with `http`, so a normalised URL passes the harvest loop's `startswith('http')` test |
| Url.GetDomain | app.py:136-138 | the domain never contains `/`, `?` or `#` |
| Url.DomainOfCut | app.py:305-306 | cutting a URL at `#` or `?` does not change its domain |
| Url.DomainOfHttpsUrl | app.py:136-138 | the domain of `https://host` followed by a path, query or fragment is `host` |
| Harvest.Seed | app.py:300 | the seed is the target URL with exactly its trailing `/` characters removed: a prefix that does not end in `/`, followed in the target only by `/` |
| Harvest.Clean | app.py:306 | the cleaned link is the link up to its first `#` or `?` (the whole link when it has neither): a prefix free of both that stops only at one of them; it has the link's domain |
| Harvest.Contribution | app.py:305-307 | a link adds nothing or exactly its cleaned form, and it adds something exactly when it is on the base domain and its cleaned form starts with `http` |
| Harvest.ContributionAsWritten | app.py:305-307 | a link's contribution is what the two nested tests of the loop body decide, written as in the loop |
| Harvest.GatheredExactly | app.py:302-307 | a value is gathered exactly when some link contributes it |
| Harvest.HarvestedExactly | app.py:302-307 | the harvested set holds the cleaned form of exactly the links that pass both tests |
| Harvest.HarvestedQualify | app.py:305-307 | every harvested URL is on the base domain, starts with `http`, and contains no `#` or `?` |
| Harvest.ScanSetQualifies | app.py:299-307 | every member of the scan set is the seed or a qualifying same-domain URL |
| Harvest.HarvestLinks | app.py:297-307 | the loop yields the seed plus the harvested links, contains the seed, and everything else in it qualifies |
| Harvest.ListPrefix | app.py:313 | `list(found)[:50]` holds min(size, 50) distinct members of the set, and all of them when there are at most 50 |
| Harvest.SecondMember | app.py:309 | a set holding the seed has two members exactly when something in it is not the seed |
| Harvest.OtherPageHarvested | app.py:305-307 | a kept link's cleaned form is in the harvested set |
| Harvest.ScanFindsAnotherPage | app.py:309 | the scan finds at least two URLs exactly when some kept link cleans to something other than the seed |
| Harvest.SeedKeepsScheme | app.py:288-300 | the seed of a normalised URL still starts with `http` |
| ScanExample.ExampleScan | app.py:297-307 | a page at `https://example.com` linking to `/about`, `/contact#top` and another domain scans to the home page, the about page and the contact page without its fragment |
| ScanExample.ExampleHarvest | app.py:302-307 | the same three links harvest the about page and the contact page, and nothing from the other domain |
| Manual.Filter | app.py:331 | the comprehension keeps only elements of the input that pass the test |
| Manual.FilterKeepsEvery | app.py:331 | every element that passes the test is kept |
| Manual.FilterAppend | app.py:331 | filtering a concatenation filters each part, keeping their order |
| Manual.Normalised | app.py:332 | normalising a list normalises each element in place |
| Manual.NormalisedAppend | app.py:332 | normalising a concatenation normalises each part |
| Manual.ManualUrls | app.py:331-332 | there is one URL per non-blank box, at most one per box, each the normalised box value and each with an http(s) scheme |
| Manual.ManualUrlsExactly | app.py:331-332 | a URL is stored exactly when some non-blank box normalises to it |
| Manual.StoredFromInput | app.py:331-332 | every stored URL comes from a non-blank box |
| Manual.InputStored | app.py:331-332 | every non-blank box's normalised value is stored |
| Manual.ManualUrlsInOrder | app.py:331-332 | the boxes are processed in form order: the URLs of two runs of boxes are the URLs of each run, one after the other |
| Manual.ManualUrlsStartWithHttp | app.py:331-332 | every manually stored URL starts with `http` |
| SitemapSession.Session.constructor | app.py:284-285 | the first visit stores no URLs and hides the manual form |
| SitemapSession.Session.AutoScan | app.py:287-319 | an empty box does nothing; a failed fetch, or a scan of fewer than two URLs, shows the manual form and keeps the list; otherwise the list becomes up to fifty distinct scanned URLs and the form is hidden; every stored URL starts with `http` |
| SitemapSession.Session.SubmitManual | app.py:321-332 | while the form is shown, submitting it replaces the list by the normalised non-blank boxes; the switch is unchanged; stored URLs still start with `http` |
| SitemapSession.Session.SitemapDocument | app.py:334-340 | a document is produced exactly when URLs are stored; it lists them in stored order, and reading it back gives them with the date |
| SitemapXml.Dated | app.py:338-339 | one entry per URL, in order, each with the same date |
| SitemapXml.UrlElementsSnoc | app.py:338-339 | each loop pass appends the element of one URL |
| SitemapXml.BuildSitemapXml | app.py:336-340 | the document is the header, one `<url>` element per URL in order, then `</urlset>`; reading it back gives each URL with the date |
| SitemapXml.ReadElementRoundTrip | app.py:339 | a `<loc>`/`<lastmod>` pair is read back as its two values, with the rest of the text left over |
| SitemapXml.ParseUrlElementRoundTrip | app.py:339 | one `<url>` element is read back as its URL and date |
| SitemapXml.ParseUrlElementsRoundTrip | app.py:338-340 | the elements followed by `</urlset>` are read back as the dated URLs, in order |
| SitemapXml.SitemapRoundTrip | app.py:337-340 | a whole document is read back as exactly its URLs, in order, each with the date |
| Robots.EnabledBots | app.py:255-258 | one crawler per ticked box, and each is one of the four offered |
| Robots.EnabledBotsExactly | app.py:255-258 | each crawler is listed exactly when its box is ticked |
| Robots.EnabledBotsOrdered | app.py:255-258 | crawlers are listed in the fixed order GPTBot, CCBot, PerplexityBot, Google-Extended |
| Robots.EnabledBotsInSteps | app.py:255-258 | the list is built by four conditional appends in that order |
| Robots.GroupsSnoc | app.py:255-258 | appending a crawler appends its group |
| Robots.AddGroup | app.py:255-258 | one conditional append keeps the text equal to the header and the groups of the listed agents |
| Robots.CatchAllFirst | app.py:252-253 | the header and the `User-agent: *` group always open the file |
| Robots.RobotsForForm | app.py:252-258 | for any ticks, the file opens with the catch-all group and reads back as `*` then the ticked crawlers |
| Robots.BuildRobots | app.py:252-258 | the text is the header, the catch-all group, then one group per ticked crawler in order; it starts with the catch-all group and reads back as those agents |
| Robots.ParseGroupRoundTrip | app.py:255 | a group is read back as its user agent |
| Robots.ParseGroupsRoundTrip | app.py:253-258 | consecutive groups are read back as their agents, in order |
| Robots.RobotsRoundTrip | app.py:252-258 | a file of header and groups is read back as exactly its agents |
| Robots.OnlyGptBot | app.py:252-255 | with only GPTBot ticked, the file lists `*` then `GPTBot` |
| Schema.RoleKey | app.py:378-379 | the role is stored under `jobTitle` or `industry` |
| Schema.RoleKeyExclusive | app.py:378-379 | a person gets `jobTitle` and an organization `industry`, and neither key collides with a fixed key |
| Schema.OrPlaceholder | app.py:373-375 | an empty box gives the placeholder and a filled one its value |
| Schema.FilledInExactly | app.py:380-382 | a profile is in `sameAs` exactly when it was filled in |
| Schema.FilledInSnoc | app.py:380-382 | a filled-in profile is appended to `sameAs`; an empty one leaves it alone |
| Schema.FilledInThree | app.py:380-382 | `sameAs` holds the filled-in profiles among LinkedIn, Twitter/X and Other, in that order |
| Schema.BaseRecord | app.py:370-377 | the literal has exactly the six fixed keys, the schema.org context, the type, and each text or its placeholder, with an empty `sameAs` |
| Schema.AddProfile | app.py:380-382 | an append changes only `sameAs`, extending it by the profile when it is filled in |
| Schema.BuildSchema | app.py:370-382 | the record has the fixed keys plus the role key; the fixed entries are the literal's; the role is stored; `sameAs` is the filled-in profiles in order |
| Schema.OnlyOtherProfile | app.py:380-382 | with only the Other box filled, whatever it holds, `sameAs` is exactly that one profile: the two empty boxes before it are skipped |
| Meta.RobotsDirective | app.py:414 | the directive contains no `"` and no `<`, so it never breaks the tag that carries it |
| Meta.RobotsDirectiveReadable | app.py:414 | the directive starts with `noindex` exactly when Index is unticked, and ends with `nofollow` exactly when Follow is unticked |
| Meta.RobotsDirectiveInjective | app.py:414 | different tick combinations give different directives |
| Meta.HeadHtml | app.py:413-421 | the snippet is the title, the four meta lines and the viewport line, plus the canonical link exactly when it is ticked and a URL is given; reading it back gives every field |
| Meta.HeadTagsLineByLine | app.py:415-420 | the lines come in order: title, description, keywords, author, robots, viewport |
| Meta.ReadFieldRoundTrip | app.py:415-421 | a value between its opening text and its closing quote or bracket is read back |
| Meta.MetaLineRoundTrip | app.py:416-419 | one meta line is read back as its content |
| Meta.MetaLinesRoundTrip | app.py:416-419 | consecutive meta lines are read back as their contents, in order |
| Meta.CanonicalRoundTrip | app.py:421 | the canonical link, or its absence, is read back |
| Meta.HeadTagsInParts | app.py:415-420 | the snippet splits into title, meta lines and viewport line |
| Meta.ParseHeadParts | app.py:415-421 | a snippet assembled from those parts is read back as its fields |
| Meta.HeadRoundTrip | app.py:415-421 | every field and the canonical link are read back from the snippet |

## Left out

- The Streamlit interface is not modelled: page layout, CSS, sidebar navigation, the password gate,
  messages and the `st.code` display. The model starts where a widget's value is read.
- The HTTP request (`requests.get` with its User-Agent header and five-second timeout,
  `raise_for_status`) and the HTML parsing of `BeautifulSoup` are parameters. `SitemapSession.FetchResult`
  is either the page's links or a failure, and every failure of the `try` block is taken as
  `FetchFailed`.
- `urljoin` is not modelled: the links arrive already resolved against the scanned page.
- `Url.GetDomain` models `urlsplit`'s scheme and netloc rules only. It leaves out the stripping of
  leading whitespace and control characters, the removal of tabs and newlines, and the
  `ValueError` raised for a malformed bracketed host or a netloc that changes under Unicode
  normalisation. In the program those errors would end the scan as a failure.
- `datetime.date.today()` is the parameter `date` of `SitemapSession.Session.SitemapDocument`; the clock is
  not modelled.
- `Harvest.ListPrefix`: Python's set iteration order is unspecified, so the model picks members in an
  unspecified order. It states which members may be listed, not which are.
- `SitemapSession.Session.SubmitManual` takes the five boxes as one sequence, in form order. The default value
  of the Homepage box (the scanned URL) is a widget default and is not modelled.
- `Schema.BuildSchema` models the dictionary, not the `json.dumps` text. Key order and indentation
  are left out, and so is the `<script type="application/ld+json">` wrapper.
- Neither the XML, nor robots.txt, nor the HTML is escaped by the program. The round-trip lemmas
  therefore require values that cannot close their own field early; text with such characters is not
  claimed to round-trip.
- The `max_chars` limits on the title (60) and description (300) boxes are enforced by the widget,
  not the program; any string is accepted.
- A `changefreq` element in sitemap entries is not modelled because app.py does not write one.

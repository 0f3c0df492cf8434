/** The sitemap document of app.py:336-340, in the `urlset` format of the Sitemaps protocol 0.9:
    a fixed header, one `<url>` element per stored URL carrying `loc`, `lastmod` and `priority`,
    and the closing tag. `ParseSitemap` reads such a document back and is its partner. */
module SitemapXml {
  import opened Text

  const XmlHeader := "<?xml version=\"1.0\" encoding=\"UTF-8\"?>\n<urlset xmlns=\"http://www.sitemaps.org/schemas/sitemap/0.9\">\n"
  const UrlsetClose := "</urlset>"

  /** The fixed text of one `<url>` element, around its location and its date; the text after the
      date is written line by line. */
  const LocOpen := "  <url>\n    <loc>"
  const LocClose := "</loc>\n    <lastmod>"
  const EntryClose := "</lastmod>\n" + "    <priority>0.8</priority>\n" + "  </url>\n"

  /** One entry as a reader of the document sees it. */
  datatype UrlEntry = UrlEntry(loc: string, lastmod: string)

  /** The `<url>` element the loop appends for `url`. */
  function UrlElement(url: string, date: string): string
  {
    LocOpen + url + LocClose + date + EntryClose
  }

  /** The `<url>` elements for `urls`, in order. */
  function UrlElements(urls: seq<string>, date: string): string
  {
    if urls == [] then "" else UrlElement(urls[0], date) + UrlElements(urls[1..], date)
  }

  /** The entries `urls` stand for, each dated `date`. */
  function Dated(urls: seq<string>, date: string): (entries: seq<UrlEntry>)
    ensures |entries| == |urls|
    ensures forall i :: 0 <= i < |urls| ==> entries[i] == UrlEntry(urls[i], date)
  {
    if urls == [] then [] else [UrlEntry(urls[0], date)] + Dated(urls[1..], date)
  }

  /** Appending one URL appends its element. */
  lemma {:induction false} UrlElementsSnoc(urls: seq<string>, url: string, date: string)
    ensures UrlElements(urls + [url], date) == UrlElements(urls, date) + UrlElement(url, date)
  {
    if urls == [] {
      assert urls + [url] == [url];
    } else {
      assert (urls + [url])[1..] == urls[1..] + [url];
      UrlElementsSnoc(urls[1..], url, date);
    }
  }

  /** The loop of app.py:337-340 that builds `xml_output`. */
  method BuildSitemapXml(urls: seq<string>, date: string) returns (xml: string)
    ensures xml == XmlHeader + UrlElements(urls, date) + UrlsetClose
    ensures '<' !in date && (forall i :: 0 <= i < |urls| ==> '<' !in urls[i])
            ==> ParseSitemap(xml) == Some(Dated(urls, date))
  {
    xml := XmlHeader;
    for i := 0 to |urls|
      invariant xml == XmlHeader + UrlElements(urls[..i], date)
    {
      UrlElementsSnoc(urls[..i], urls[i], date);
      Regroup(XmlHeader, UrlElements(urls[..i], date), UrlElement(urls[i], date));
      xml := xml + (LocOpen + urls[i] + LocClose + date + EntryClose);
      assert urls[..i + 1] == urls[..i] + [urls[i]];
    }
    assert urls[..|urls|] == urls;
    xml := xml + UrlsetClose;
    if '<' !in date && (forall i :: 0 <= i < |urls| ==> '<' !in urls[i]) {
      SitemapRoundTrip(urls, date);
    }
  }

  /** Reads `open`, a value up to the next `<`, `mid`, a second value up to the next `<`, and `close`
      off the front of `s`, giving the two values and what follows. */
  function ReadElement(s: string, open: string, mid: string, close: string): (r: Option<(UrlEntry, string)>)
    ensures r.Some? ==> |r.value.1| <= |s| - |open| - |mid| - |close|
  {
    if !(open <= s) then None
    else
      var afterOpen := s[|open|..];
      var i := IndexOf(afterOpen, '<');
      var afterLoc := afterOpen[i..];
      if !(mid <= afterLoc) then None
      else
        var afterMid := afterLoc[|mid|..];
        var j := IndexOf(afterMid, '<');
        var afterDate := afterMid[j..];
        if !(close <= afterDate) then None
        else Some((UrlEntry(afterOpen[..i], afterMid[..j]), afterDate[|close|..]))
  }

  /** Reads one `<url>` element off the front of `s`: its location, its date and what follows it. */
  function ParseUrlElement(s: string): (r: Option<(UrlEntry, string)>)
    ensures r.Some? ==> |r.value.1| < |s|
  {
    ReadElement(s, LocOpen, LocClose, EntryClose)
  }

  /** Reads the `<url>` elements up to the closing `</urlset>`, which must end the text. */
  function ParseUrlElements(s: string): Option<seq<UrlEntry>>
    decreases |s|
  {
    if s == UrlsetClose then Some([])
    else match ParseUrlElement(s)
      case None => None
      case Some((entry, rest)) =>
        match ParseUrlElements(rest)
        case None => None
        case Some(entries) => Some([entry] + entries)
  }

  /** Reads a whole sitemap document back into its entries. */
  function ParseSitemap(xml: string): Option<seq<UrlEntry>>
  {
    match DropPrefix(xml, XmlHeader)
    case None => None
    case Some(body) => ParseUrlElements(body)
  }

  /** An element written with `open`, `mid` and `close` is read back as its two values. */
  lemma ReadElementRoundTrip(open: string, mid: string, close: string, url: string, date: string, rest: string)
    requires mid != [] && mid[0] == '<' && close != [] && close[0] == '<'
    requires '<' !in url && '<' !in date
    ensures ReadElement(open + url + mid + date + close + rest, open, mid, close)
         == Some((UrlEntry(url, date), rest))
  {
    var s := open + url + mid + date + close + rest;
    var tail2 := close + rest;
    var tail := mid + (date + tail2);
    assert s == open + (url + tail);
    var afterOpen := s[|open|..];
    assert afterOpen == url + tail;
    SplitAtFirst(url, tail, '<');
    assert mid <= tail && tail[|mid|..] == date + tail2;
    SplitAtFirst(date, tail2, '<');
    assert close <= tail2 && tail2[|close|..] == rest;
  }

  /** One `<url>` element is read back as its URL and date, with the rest of the text untouched. */
  lemma ParseUrlElementRoundTrip(url: string, date: string, rest: string)
    requires '<' !in url && '<' !in date
    ensures ParseUrlElement(UrlElement(url, date) + rest) == Some((UrlEntry(url, date), rest))
  {
    assert LocClose[0] == '<' && EntryClose[0] == '<';
    ReadElementRoundTrip(LocOpen, LocClose, EntryClose, url, date, rest);
  }

  /** Reading a text that is not the closing tag and whose first element is `entry` goes on after that element. */
  lemma ParseUrlElementsStep(s: string, entry: UrlEntry, rest: string, entries: seq<UrlEntry>)
    requires s != UrlsetClose && ParseUrlElement(s) == Some((entry, rest)) && ParseUrlElements(rest) == Some(entries)
    ensures ParseUrlElements(s) == Some([entry] + entries)
  {
  }

  /** An element followed by readable elements is read as its entry followed by theirs. */
  lemma ParseUrlElementsCons(url: string, date: string, rest: string, entries: seq<UrlEntry>)
    requires '<' !in url && '<' !in date && ParseUrlElements(rest) == Some(entries)
    ensures ParseUrlElements(UrlElement(url, date) + rest) == Some([UrlEntry(url, date)] + entries)
  {
    var s := UrlElement(url, date) + rest;
    assert s[0] == ' ' && s != UrlsetClose;
    ParseUrlElementRoundTrip(url, date, rest);
    ParseUrlElementsStep(s, UrlEntry(url, date), rest, entries);
  }

  /** The elements followed by the closing tag are read back as the dated URLs, in order. */
  lemma {:induction false} ParseUrlElementsRoundTrip(urls: seq<string>, date: string)
    requires '<' !in date
    requires forall i :: 0 <= i < |urls| ==> '<' !in urls[i]
    ensures ParseUrlElements(UrlElements(urls, date) + UrlsetClose) == Some(Dated(urls, date))
  {
    if urls == [] {
      assert UrlElements(urls, date) + UrlsetClose == UrlsetClose;
    } else {
      var rest := UrlElements(urls[1..], date) + UrlsetClose;
      assert UrlElements(urls, date) + UrlsetClose == UrlElement(urls[0], date) + rest;
      ParseUrlElementsRoundTrip(urls[1..], date);
      ParseUrlElementsCons(urls[0], date, rest, Dated(urls[1..], date));
    }
  }

  /** Decoding a built document gives back exactly the stored URLs, in stored order, each with the date. */
  lemma SitemapRoundTrip(urls: seq<string>, date: string)
    requires '<' !in date
    requires forall i :: 0 <= i < |urls| ==> '<' !in urls[i]
    ensures ParseSitemap(XmlHeader + UrlElements(urls, date) + UrlsetClose) == Some(Dated(urls, date))
  {
    var body := UrlElements(urls, date) + UrlsetClose;
    Regroup(XmlHeader, UrlElements(urls, date), UrlsetClose);
    DropPrefixOfConcat(XmlHeader, body);
    ParseUrlElementsRoundTrip(urls, date);
  }
}

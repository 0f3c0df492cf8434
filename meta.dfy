/** The HTML head snippet of the SEO module (app.py:414-421): the title, four `<meta>` tags with the
    description, keywords, author and robots directive, the fixed viewport tag, and a canonical link
    when one is asked for and given. `ParseHead` reads such a snippet back into its fields. */
module Meta {
  import opened Text

  /** The `content` of the robots tag: `index` or `noindex`, then `follow` or `nofollow`. */
  function RobotsDirective(index: bool, follow: bool): (r: string)
    ensures '"' !in r && '<' !in r
  {
    (if index then "index" else "noindex") + ", " + (if follow then "follow" else "nofollow")
  }

  /** Whether `s` ends with `t`. */
  predicate EndsWith(s: string, t: string)
  {
    |t| <= |s| && s[|s| - |t|..] == t
  }

  /** A crawler reading the directive finds `noindex` exactly when indexing is off and `nofollow`
      exactly when following is off. */
  lemma RobotsDirectiveReadable(index: bool, follow: bool)
    ensures "noindex" <= RobotsDirective(index, follow) <==> !index
    ensures EndsWith(RobotsDirective(index, follow), "nofollow") <==> !follow
  {
    var first := if index then "index" else "noindex";
    var second := if follow then "follow" else "nofollow";
    var r := RobotsDirective(index, follow);
    assert r == first + (", " + second);
    if index {
      assert r[0] == 'i';
    } else {
      assert r[..7] == first;
    }
    if follow {
      assert r[|first|..] == ", " + second;
      assert r[|r| - 8] == ',';
    } else {
      assert r[|first| + 2..] == second;
    }
  }

  /** The four directives are distinct: the tag always tells a crawler both choices. */
  lemma RobotsDirectiveInjective(index1: bool, follow1: bool, index2: bool, follow2: bool)
    requires RobotsDirective(index1, follow1) == RobotsDirective(index2, follow2)
    ensures index1 == index2 && follow1 == follow2
  {
    RobotsDirectiveReadable(index1, follow1);
    RobotsDirectiveReadable(index2, follow2);
  }

  const TitleOpen := "<title>"
  const TitleClose := "</title>\n"
  /** What ends a `<meta>` tag and its line. */
  const LineEnd := "\">\n"
  const Viewport := "<meta name=\"viewport\" content=\"width=device-width, initial-scale=1.0\">"
  const CanonicalOpen := "\n<link rel=\"canonical\" href=\""
  const TagEnd := "\">"

  /** The opening of the `<meta>` tag called `name`, up to its content. */
  function MetaOpen(name: string): string
  {
    "<meta name=\"" + name + "\" content=\""
  }

  /** One `<meta>` line. */
  function MetaLine(name: string, content: string): string
  {
    MetaOpen(name) + content + LineEnd
  }

  /** The `<meta>` tags of the snippet that carry a field, in order. */
  const FieldNames := ["description", "keywords", "author", "robots"]

  /** The `<meta>` lines for `names`, with the matching `contents`. */
  function MetaLines(names: seq<string>, contents: seq<string>): string
    requires |names| == |contents|
  {
    if names == [] then [] else MetaLine(names[0], contents[0]) + MetaLines(names[1..], contents[1..])
  }

  /** The f-string of app.py:415-420: the title line, the description, keywords, author and robots
      lines, and the viewport tag. */
  function HeadTags(title: string, description: string, keywords: string, author: string, robots: string): string
  {
    TitleOpen + title + TitleClose + MetaLines(FieldNames, [description, keywords, author, robots]) + Viewport
  }

  /** The line app.py:421 appends. */
  function CanonicalLink(pageUrl: string): string
  {
    CanonicalOpen + pageUrl + TagEnd
  }

  /** The fields of a head snippet, as a reader of the page sees them. */
  datatype HeadFields = HeadFields(title: string, description: string, keywords: string, author: string,
                                   robots: string, canonical: Option<string>)

  /** What a snippet holds when the canonical link is ticked or not and the URL box is filled or not. */
  function Expected(title: string, description: string, keywords: string, author: string,
                    index: bool, follow: bool, canonical: bool, pageUrl: string): HeadFields
  {
    HeadFields(title, description, keywords, author, RobotsDirective(index, follow),
               if canonical && pageUrl != [] then Some(pageUrl) else None)
  }

  /** The "Generate HTML" handler of app.py:413-421. */
  method HeadHtml(title: string, description: string, keywords: string, author: string,
                  canonical: bool, pageUrl: string, index: bool, follow: bool)
    returns (html: string)
    ensures html == HeadTags(title, description, keywords, author, RobotsDirective(index, follow))
                    + (if canonical && pageUrl != [] then CanonicalLink(pageUrl) else [])
    ensures '<' !in title && '"' !in description && '"' !in keywords && '"' !in author && '"' !in pageUrl
            ==> ParseHead(html) == Some(Expected(title, description, keywords, author, index, follow, canonical, pageUrl))
  {
    var robots := RobotsDirective(index, follow);
    html := HeadTags(title, description, keywords, author, robots);
    if canonical && pageUrl != [] {
      html := html + CanonicalLink(pageUrl);
    }
    if '<' !in title && '"' !in description && '"' !in keywords && '"' !in author && '"' !in pageUrl {
      HeadRoundTrip(title, description, keywords, author, robots,
                    if canonical && pageUrl != [] then Some(pageUrl) else None);
    }
  }

  /** Reads `open`, a value up to the first `stop`, and `close` off the front of `s`: the value and what follows. */
  function ReadField(s: string, open: string, stop: char, close: string): Option<(string, string)>
  {
    if !(open <= s) then None
    else
      var afterOpen := s[|open|..];
      var i := IndexOf(afterOpen, stop);
      var afterValue := afterOpen[i..];
      if close <= afterValue then Some((afterOpen[..i], afterValue[|close|..])) else None
  }

  /** Reads the optional canonical link that ends a snippet. */
  function ParseCanonical(tail: string): Option<Option<string>>
  {
    if tail == [] then Some(None)
    else match ReadField(tail, CanonicalOpen, '"', TagEnd)
      case Some((url, rest)) => if rest == [] then Some(Some(url)) else None
      case None => None
  }

  /** Reads one `<meta>` line per name off the front of `s`: their contents and what follows. */
  function ParseMetas(s: string, names: seq<string>): (r: Option<(seq<string>, string)>)
    ensures r.Some? ==> |r.value.0| == |names|
  {
    if names == [] then Some(([], s))
    else match ReadField(s, MetaOpen(names[0]), '"', LineEnd)
      case None => None
      case Some((content, rest)) =>
        match ParseMetas(rest, names[1..])
        case None => None
        case Some((contents, after)) => Some(([content] + contents, after))
  }

  /** Reads a head snippet back into its fields. */
  function ParseHead(html: string): Option<HeadFields>
  {
    match ReadField(html, TitleOpen, '<', TitleClose)
    case None => None
    case Some((title, afterTitle)) =>
      match ParseMetas(afterTitle, FieldNames)
      case None => None
      case Some((contents, afterMetas)) =>
        if !(Viewport <= afterMetas) then None
        else match ParseCanonical(afterMetas[|Viewport|..])
          case None => None
          case Some(canonical) =>
            Some(HeadFields(title, contents[0], contents[1], contents[2], contents[3], canonical))
  }

  /** A field written between `open` and `close` is read back when it holds no `stop` and `close` starts with one. */
  lemma ReadFieldRoundTrip(open: string, value: string, stop: char, close: string, rest: string)
    requires stop !in value && close != [] && close[0] == stop
    ensures ReadField(open + value + close + rest, open, stop, close) == Some((value, rest))
  {
    var tail := close + rest;
    var s := open + value + close + rest;
    assert s == open + (value + tail);
    assert s[|open|..] == value + tail;
    SplitAtFirst(value, tail, stop);
    assert close <= tail && tail[|close|..] == rest;
  }

  /** One `<meta>` line is read back as its content. */
  lemma MetaLineRoundTrip(name: string, content: string, rest: string)
    requires '"' !in content
    ensures ReadField(MetaLine(name, content) + rest, MetaOpen(name), '"', LineEnd) == Some((content, rest))
  {
    ReadFieldRoundTrip(MetaOpen(name), content, '"', LineEnd, rest);
  }

  /** The ending of a snippet is read back as its canonical link, if any. */
  lemma CanonicalRoundTrip(link: Option<string>)
    requires link.Some? ==> '"' !in link.value
    ensures ParseCanonical(if link.Some? then CanonicalLink(link.value) else []) == Some(link)
  {
    if link.Some? {
      assert CanonicalLink(link.value) == CanonicalOpen + link.value + TagEnd + [];
      ReadFieldRoundTrip(CanonicalOpen, link.value, '"', TagEnd, []);
    }
  }

  /** Reading a first line as `content` and the remaining names as `contents` reads all the names. */
  lemma ParseMetasStep(s: string, name: string, names: seq<string>, content: string, rest: string,
                       contents: seq<string>, after: string)
    requires ReadField(s, MetaOpen(name), '"', LineEnd) == Some((content, rest))
    requires ParseMetas(rest, names) == Some((contents, after))
    ensures ParseMetas(s, [name] + names) == Some(([content] + contents, after))
  {
    assert ([name] + names)[0] == name && ([name] + names)[1..] == names;
  }

  /** A `<meta>` line followed by readable lines is read as its content followed by theirs. */
  lemma ParseMetasCons(name: string, content: string, names: seq<string>, rest: string,
                       contents: seq<string>, after: string)
    requires '"' !in content
    requires ParseMetas(rest, names) == Some((contents, after))
    ensures ParseMetas(MetaLine(name, content) + rest, [name] + names) == Some(([content] + contents, after))
  {
    MetaLineRoundTrip(name, content, rest);
    ParseMetasStep(MetaLine(name, content) + rest, name, names, content, rest, contents, after);
  }

  /** The `<meta>` lines are read back as their contents, with the rest of the text untouched. */
  lemma {:induction false} MetaLinesRoundTrip(names: seq<string>, contents: seq<string>, rest: string)
    requires |names| == |contents|
    requires forall i :: 0 <= i < |contents| ==> '"' !in contents[i]
    ensures ParseMetas(MetaLines(names, contents) + rest, names) == Some((contents, rest))
  {
    if names == [] {
      assert MetaLines(names, contents) + rest == rest;
      assert contents == [];
    } else {
      var tail := MetaLines(names[1..], contents[1..]) + rest;
      assert MetaLines(names, contents) + rest == MetaLine(names[0], contents[0]) + tail;
      MetaLinesRoundTrip(names[1..], contents[1..], rest);
      ParseMetasCons(names[0], contents[0], names[1..], tail, contents[1..], rest);
      assert [names[0]] + names[1..] == names;
      assert [contents[0]] + contents[1..] == contents;
    }
  }

  /** The f-string, followed by `tail`, is the title followed by the field lines, the viewport tag and `tail`. */
  lemma HeadTagsInParts(title: string, description: string, keywords: string, author: string, robots: string,
                        tail: string)
    ensures HeadTags(title, description, keywords, author, robots) + tail
         == TitleOpen + title + TitleClose
            + (MetaLines(FieldNames, [description, keywords, author, robots]) + (Viewport + tail))
  {
    var front := TitleOpen + title + TitleClose;
    var lines := MetaLines(FieldNames, [description, keywords, author, robots]);
    assert HeadTags(title, description, keywords, author, robots) == front + lines + Viewport;
  }

  /** Four `<meta>` lines, one after the other. */
  lemma MetaLinesFour(names: seq<string>, contents: seq<string>)
    requires |names| == |contents| == 4
    ensures MetaLines(names, contents)
         == MetaLine(names[0], contents[0]) + MetaLine(names[1], contents[1])
            + MetaLine(names[2], contents[2]) + MetaLine(names[3], contents[3])
  {
    var l0, l1, l2, l3 := MetaLine(names[0], contents[0]), MetaLine(names[1], contents[1]),
                          MetaLine(names[2], contents[2]), MetaLine(names[3], contents[3]);
    assert MetaLines(names[4..], contents[4..]) == [];
    assert MetaLines(names[3..], contents[3..]) == l3;
    assert MetaLines(names[2..], contents[2..]) == l2 + l3;
    assert MetaLines(names[1..], contents[1..]) == l1 + (l2 + l3);
    assert MetaLines(names, contents) == l0 + (l1 + (l2 + l3));
  }

  /** The f-string line by line: title, description, keywords, author, robots, viewport. */
  lemma HeadTagsLineByLine(title: string, description: string, keywords: string, author: string, robots: string)
    ensures HeadTags(title, description, keywords, author, robots)
         == TitleOpen + title + TitleClose + MetaLine("description", description) + MetaLine("keywords", keywords)
            + MetaLine("author", author) + MetaLine("robots", robots) + Viewport
  {
    var contents := [description, keywords, author, robots];
    MetaLinesFour(FieldNames, contents);
  }

  /** A title, the field lines and the viewport tag, followed by a readable ending, are read back as their parts. */
  lemma ParseHeadParts(title: string, contents: seq<string>, tail: string, link: Option<string>)
    requires '<' !in title && |contents| == |FieldNames|
    requires forall i :: 0 <= i < |contents| ==> '"' !in contents[i]
    requires ParseCanonical(tail) == Some(link)
    ensures ParseHead(TitleOpen + title + TitleClose + (MetaLines(FieldNames, contents) + (Viewport + tail)))
         == Some(HeadFields(title, contents[0], contents[1], contents[2], contents[3], link))
  {
    var afterMetas := Viewport + tail;
    var afterTitle := MetaLines(FieldNames, contents) + afterMetas;
    ReadFieldRoundTrip(TitleOpen, title, '<', TitleClose, afterTitle);
    MetaLinesRoundTrip(FieldNames, contents, afterMetas);
    assert afterMetas[|Viewport|..] == tail;
  }

  /** A snippet is read back as exactly the fields it was written with. */
  lemma HeadRoundTrip(title: string, description: string, keywords: string, author: string, robots: string,
                      link: Option<string>)
    requires '<' !in title && '"' !in description && '"' !in keywords && '"' !in author && '"' !in robots
    requires link.Some? ==> '"' !in link.value
    ensures ParseHead(HeadTags(title, description, keywords, author, robots)
                      + (if link.Some? then CanonicalLink(link.value) else []))
         == Some(HeadFields(title, description, keywords, author, robots, link))
  {
    var contents := [description, keywords, author, robots];
    var tail := if link.Some? then CanonicalLink(link.value) else [];
    HeadTagsInParts(title, description, keywords, author, robots, tail);
    CanonicalRoundTrip(link);
    ParseHeadParts(title, contents, tail, link);
  }
}

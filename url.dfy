/** The two URL helpers of app.py: `validate_url` and `get_domain`. */
module Url {
  import opened Text

  /** `url.startswith(('http://', 'https://'))`. */
  predicate HasScheme(url: string)
  {
    "http://" <= url || "https://" <= url
  }

  /** `validate_url`: the URL itself when it already names http or https, else the URL behind `https://`. */
  function ValidateUrl(url: string): (r: string)
    ensures HasScheme(r)
    ensures HasScheme(url) ==> r == url
    ensures r == url || r == "https://" + url
  {
    if HasScheme(url) then url else "https://" + url
  }

  /** Both accepted schemes start with `http`. */
  lemma SchemeStartsHttp(url: string)
    requires HasScheme(url)
    ensures "http" <= url
  {
    if "http://" <= url {
      assert url[..4] == "http://"[..4];
    } else {
      assert url[..4] == "https://"[..4];
    }
  }

  /** A URL without an http(s) scheme is normalised to https, keeping the whole input after the prefix. */
  lemma ValidateUrlDefaultsToHttps(url: string)
    requires !HasScheme(url)
    ensures "https://" <= ValidateUrl(url)
    ensures ValidateUrl(url)[|"https://"|..] == url
  {
  }

  /** Normalising twice is normalising once. */
  lemma ValidateUrlIdempotent(url: string)
    ensures ValidateUrl(ValidateUrl(url)) == ValidateUrl(url)
  {
  }

  predicate IsAsciiAlpha(ch: char)
  {
    'a' <= ch <= 'z' || 'A' <= ch <= 'Z'
  }

  /** The characters `urlsplit` accepts in a scheme name. */
  predicate IsSchemeChar(ch: char)
  {
    IsAsciiAlpha(ch) || '0' <= ch <= '9' || ch == '+' || ch == '-' || ch == '.'
  }

  /** The characters that end the network location. */
  const NetlocEnd: set<char> := {'/', '?', '#'}

  /** Whether the text before the first `:` of `url` is a scheme, as `urlsplit` decides it. */
  predicate SchemeAt(url: string, i: nat)
  {
    0 < i < |url| && url[i] == ':' && IsAsciiAlpha(url[0])
    && forall k :: 0 <= k < i ==> IsSchemeChar(url[k])
  }

  /** What `urlsplit` goes on to parse after taking the scheme and its `:` off, if there is a scheme. */
  function AfterScheme(url: string): (rest: string)
    ensures rest == url || (|rest| < |url| && rest == url[|url| - |rest|..])
  {
    var i := IndexOf(url, ':');
    if SchemeAt(url, i) then url[i + 1..] else url
  }

  /** The netloc of an already scheme-less remainder: after a leading `//`, up to the first `/`, `?` or `#`. */
  function Netloc(rest: string): (host: string)
    ensures forall k :: 0 <= k < |host| ==> host[k] !in NetlocEnd
    ensures host != [] ==> "//" <= rest && host <= rest[2..]
  {
    if |rest| >= 2 && rest[..2] == "//" then CutAtAny(rest[2..], NetlocEnd) else ""
  }

  /** `get_domain(url)`, that is `urlparse(url).netloc`. */
  function GetDomain(url: string): (host: string)
    ensures '/' !in host && '?' !in host && '#' !in host
  {
    Netloc(AfterScheme(url))
  }

  /** Cutting at `#` or `?` commutes with taking the scheme off: neither can occur in a scheme. */
  lemma AfterSchemeOfCut(url: string, c: char)
    requires c == '#' || c == '?'
    ensures AfterScheme(CutAt(url, c)) == CutAt(AfterScheme(url), c)
  {
    var cut := CutAt(url, c);
    var i := IndexOf(url, ':');
    if i < |cut| {
      assert IndexOf(cut, ':') == i;
      assert cut[..i] == url[..i];
      if SchemeAt(url, i) {
        assert SchemeAt(cut, i);
        assert c !in url[..i + 1];
        CutAtSuffix(url, i + 1, c);
      } else {
        assert !SchemeAt(cut, i);
      }
    } else {
      assert IndexOf(cut, ':') == |cut|;
      assert !SchemeAt(url, i);
    }
  }

  /** Cutting at `#` or `?` leaves the netloc alone, since each of them ends it. */
  lemma NetlocOfCut(rest: string, c: char)
    requires c == '#' || c == '?'
    ensures Netloc(CutAt(rest, c)) == Netloc(rest)
  {
    var cut := CutAt(rest, c);
    if |rest| >= 2 && rest[..2] == "//" {
      assert c !in rest[..2];
      CutAtSuffix(rest, 2, c);
      assert cut[..2] == "//";
      CutAtAnyAfterCut(rest[2..], c, NetlocEnd);
    } else if |cut| >= 2 {
      assert cut[..2] == rest[..2];
    }
  }

  /** `url.split(c)[0]` has the same domain as `url` when `c` is `#` or `?`. */
  lemma DomainOfCut(url: string, c: char)
    requires c == '#' || c == '?'
    ensures GetDomain(CutAt(url, c)) == GetDomain(url)
  {
    AfterSchemeOfCut(url, c);
    NetlocOfCut(AfterScheme(url), c);
  }

  /** An `https` URL's domain is its host: the text between `https://` and the first `/`, `?` or `#`. */
  lemma DomainOfHttpsUrl(host: string, path: string)
    requires forall k :: 0 <= k < |host| ==> host[k] !in NetlocEnd
    requires path == [] || path[0] in NetlocEnd
    ensures GetDomain("https://" + host + path) == host
  {
    var url := "https://" + host + path;
    assert url[5] == ':';
    assert url[0] != ':' && url[1] != ':' && url[2] != ':' && url[3] != ':' && url[4] != ':';
    assert IndexOf(url, ':') == 5;
    assert SchemeAt(url, 5);
    var rest := url[6..];
    assert rest[..2] == "//";
    assert rest[2..] == host + path;
    assert forall k :: 0 <= k < |host| ==> (host + path)[k] == host[k];
    assert path != [] ==> (host + path)[|host|] == path[0];
    assert IndexOfAny(host + path, NetlocEnd) == |host|;
    assert (host + path)[..|host|] == host;
  }
}

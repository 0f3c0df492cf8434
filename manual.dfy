/** The manual sitemap form (app.py:331-332): the five text boxes become the list of entries
    that are non-blank after `strip()`, each passed through `validate_url`, in form order. */
module Manual {
  import opened Text
  import opened Url

  /** The entries of `xs` that `keep` accepts, in order. */
  function Filter(xs: seq<string>, keep: string -> bool): (kept: seq<string>)
    ensures |kept| <= |xs|
    ensures forall i :: 0 <= i < |kept| ==> keep(kept[i]) && kept[i] in xs
  {
    if xs == [] then []
    else (if keep(xs[0]) then [xs[0]] else []) + Filter(xs[1..], keep)
  }

  /** Every accepted entry survives the filter. */
  lemma {:induction false} FilterKeepsEvery(xs: seq<string>, keep: string -> bool, u: string)
    requires u in xs && keep(u)
    ensures u in Filter(xs, keep)
  {
    if xs[0] != u {
      assert u in xs[1..];
      FilterKeepsEvery(xs[1..], keep, u);
    }
  }

  /** The filter keeps order: filtering a concatenation filters each part. */
  lemma {:induction false} FilterAppend(a: seq<string>, b: seq<string>, keep: string -> bool)
    ensures Filter(a + b, keep) == Filter(a, keep) + Filter(b, keep)
  {
    if a != [] {
      assert (a + b)[1..] == a[1..] + b;
      FilterAppend(a[1..], b, keep);
    } else {
      assert a + b == b;
    }
  }

  /** `u.strip()` is truthy: the entry holds something other than whitespace. */
  predicate NotBlank(u: string)
  {
    Strip(u) != []
  }

  /** `[u for u in inputs if u.strip()]`. */
  function NonBlank(inputs: seq<string>): seq<string>
  {
    Filter(inputs, NotBlank)
  }

  /** `[validate_url(u) for u in xs]`. */
  function Normalised(xs: seq<string>): (urls: seq<string>)
    ensures |urls| == |xs|
    ensures forall i :: 0 <= i < |xs| ==> urls[i] == ValidateUrl(xs[i])
  {
    if xs == [] then [] else [ValidateUrl(xs[0])] + Normalised(xs[1..])
  }

  /** Normalising a concatenation normalises each part. */
  lemma {:induction false} NormalisedAppend(a: seq<string>, b: seq<string>)
    ensures Normalised(a + b) == Normalised(a) + Normalised(b)
  {
    if a != [] {
      assert (a + b)[1..] == a[1..] + b;
      NormalisedAppend(a[1..], b);
    } else {
      assert a + b == b;
    }
  }

  /** The list the manual form stores: the non-blank entries, each passed through `validate_url`. */
  function ManualUrls(inputs: seq<string>): (urls: seq<string>)
    ensures |urls| == |NonBlank(inputs)| <= |inputs|
    ensures forall i :: 0 <= i < |urls| ==> urls[i] == ValidateUrl(NonBlank(inputs)[i]) && HasScheme(urls[i])
  {
    Normalised(NonBlank(inputs))
  }

  /** Every URL the manual form stores starts with `http`. */
  lemma ManualUrlsStartWithHttp(inputs: seq<string>)
    ensures forall i :: 0 <= i < |ManualUrls(inputs)| ==> "http" <= ManualUrls(inputs)[i]
  {
    var urls := ManualUrls(inputs);
    forall i | 0 <= i < |urls| ensures "http" <= urls[i] {
      SchemeStartsHttp(urls[i]);
    }
  }

  /** Each stored manual URL is the normalised form of a non-blank input, and each non-blank input is stored. */
  lemma ManualUrlsExactly(inputs: seq<string>, x: string)
    ensures x in ManualUrls(inputs) <==> exists u :: u in inputs && Strip(u) != [] && x == ValidateUrl(u)
  {
    if x in ManualUrls(inputs) {
      StoredFromInput(inputs, x);
    }
    if u :| u in inputs && Strip(u) != [] && x == ValidateUrl(u) {
      InputStored(inputs, u);
    }
  }

  /** A stored manual URL comes from a non-blank input. */
  lemma StoredFromInput(inputs: seq<string>, x: string)
    requires x in ManualUrls(inputs)
    ensures exists u :: u in inputs && Strip(u) != [] && x == ValidateUrl(u)
  {
    var kept := NonBlank(inputs);
    var urls := ManualUrls(inputs);
    var i :| 0 <= i < |urls| && urls[i] == x;
    assert kept[i] in inputs && Strip(kept[i]) != [];
  }

  /** A non-blank input is stored, normalised. */
  lemma InputStored(inputs: seq<string>, u: string)
    requires u in inputs && Strip(u) != []
    ensures ValidateUrl(u) in ManualUrls(inputs)
  {
    var kept := NonBlank(inputs);
    FilterKeepsEvery(inputs, NotBlank, u);
    var i :| 0 <= i < |kept| && kept[i] == u;
    assert ManualUrls(inputs)[i] == ValidateUrl(u);
  }

  /** Form order is kept: the entries from earlier boxes come before those from later ones. */
  lemma ManualUrlsInOrder(a: seq<string>, b: seq<string>)
    ensures ManualUrls(a + b) == ManualUrls(a) + ManualUrls(b)
  {
    FilterAppend(a, b, NotBlank);
    NormalisedAppend(NonBlank(a), NonBlank(b));
  }
}

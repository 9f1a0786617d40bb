/** What the scraper does with the records an extractor returns: the partial-record filter, the
    result cap, the CSS image-reference rewrite of image search, and the failure cases of `scrape`. */
module Extract {
  import opened PyModel

  /** A record none of whose values is null. */
  predicate Complete(r: Record)
  {
    forall k :: k in r ==> r[k] != Null
  }

  /** `keep_non_null_only`: the records whose every value is non-null, in their original order. */
  function KeepNonNullOnly(records: seq<Record>): (kept: seq<Record>)
    ensures |kept| <= |records|
    ensures forall r :: r in kept <==> r in records && Complete(r)
  {
    if records == [] then []
    else if Complete(records[0]) then [records[0]] + KeepNonNullOnly(records[1..])
    else KeepNonNullOnly(records[1..])
  }

  /** The filter works record by record: filtering a concatenation concatenates the filtered parts,
      so the kept records stay in their original order. */
  lemma {:induction false} KeepNonNullOnlyAppend(a: seq<Record>, b: seq<Record>)
    ensures KeepNonNullOnly(a + b) == KeepNonNullOnly(a) + KeepNonNullOnly(b)
  {
    if a == [] {
      assert a + b == b;
    } else {
      assert (a + b)[0] == a[0];
      assert (a + b)[1..] == a[1..] + b;
      KeepNonNullOnlyAppend(a[1..], b);
    }
  }

  /** The input comes back unchanged exactly when every record in it is complete. */
  lemma {:induction false} KeepNonNullOnlyUnchanged(records: seq<Record>)
    ensures KeepNonNullOnly(records) == records <==> forall i :: 0 <= i < |records| ==> Complete(records[i])
  {
    if records != [] {
      KeepNonNullOnlyUnchanged(records[1..]);
      if !Complete(records[0]) {
        assert |KeepNonNullOnly(records[1..])| <= |records[1..]| < |records|;
      }
      if forall i :: 0 <= i < |records| ==> Complete(records[i]) {
        assert forall i :: 0 <= i < |records[1..]| ==> Complete(records[1..][i]) by {
          forall i | 0 <= i < |records[1..]| ensures Complete(records[1..][i]) {
            assert records[1..][i] == records[i + 1];
          }
        }
      }
    }
  }

  /** Filtering twice is filtering once. */
  lemma KeepNonNullOnlyIdempotent(records: seq<Record>)
    ensures KeepNonNullOnly(KeepNonNullOnly(records)) == KeepNonNullOnly(records)
  {
    var kept := KeepNonNullOnly(records);
    forall i | 0 <= i < |kept| ensures Complete(kept[i]) {
      assert kept[i] in kept;
    }
    KeepNonNullOnlyUnchanged(kept);
  }

  /** Python's `s[:n]`: the first n elements, where a negative n drops the last -n elements. */
  function SliceTo<T>(s: seq<T>, n: int): (p: seq<T>)
    ensures p <= s
    ensures n >= 0 ==> |p| == if n <= |s| then n else |s|
    ensures n < 0 ==> |p| == if |s| + n >= 0 then |s| + n else 0
  {
    if n >= 0 then (if n <= |s| then s[..n] else s)
    else if |s| + n >= 0 then s[..|s| + n]
    else []
  }

  /** The pipeline after a successful extraction: filter partial records if asked, then cap. */
  function Postprocess(products: seq<Record>, removePartial: bool, maxResults: int): seq<Record>
  {
    SliceTo(if removePartial then KeepNonNullOnly(products) else products, maxResults)
  }

  /** The output of the pipeline: a prefix, in order, of the (filtered) products; no longer than
      the cap when the cap is non-negative; only complete records when filtering. */
  lemma PostprocessProperties(products: seq<Record>, removePartial: bool, maxResults: int)
    ensures var out := Postprocess(products, removePartial, maxResults);
      && out <= (if removePartial then KeepNonNullOnly(products) else products)
      && |out| <= |products|
      && (maxResults >= 0 ==> |out| <= maxResults)
      && (maxResults >= |products| && !removePartial ==> out == products)
      && (forall r :: r in out ==> r in products)
      && (removePartial ==> forall r :: r in out ==> Complete(r))
  {
    var filtered := if removePartial then KeepNonNullOnly(products) else products;
    var out := Postprocess(products, removePartial, maxResults);
    forall r | r in out ensures r in filtered {
      var i :| 0 <= i < |out| && out[i] == r;
      assert filtered[i] == r;
    }
  }

  /** The selectorlib result: None, or a dictionary whose `products` entry may be None. */
  datatype Extracted = Extracted(products: Option<seq<Record>>)

  /** The shape check used before accepting a page: the extraction and its products exist. */
  predicate ShapeOk(e: Option<Extracted>)
  {
    e.Some? && e.value.products.Some?
  }

  /** The part of `scrape` (and of `scrape_with_1688_image_search`) after the corpus is fetched. */
  function FinishScrape(corpus: Option<string>, extract: string -> Option<Extracted>,
                        removePartial: bool, maxResults: int): Option<seq<Record>>
  {
    if corpus.None? then None
    else
      var e := extract(corpus.value);
      if !ShapeOk(e) then None
      else Some(Postprocess(e.value.products.value, removePartial, maxResults))
  }

  /** `scrape` gives None exactly when the corpus, the extraction or its products are None;
      otherwise the pipeline's output. */
  lemma FinishScrapeCases(corpus: Option<string>, extract: string -> Option<Extracted>,
                          removePartial: bool, maxResults: int)
    ensures var r := FinishScrape(corpus, extract, removePartial, maxResults);
      && (r.None? <==> corpus.None? || extract(corpus.value).None? || extract(corpus.value).value.products.None?)
      && (r.Some? ==> r.value == Postprocess(extract(corpus.value).value.products.value, removePartial, maxResults))
  {
  }

  // ---------------------------------------------------------------------------------------
  // extract_url_from_css: re.search(r'url\("([^"]+)"\)', css_attr).group(1)

  const UrlOpen: string := "url(\""
  const UrlClose: string := "\")"

  /** Independent description of a match of the pattern at index i of s, with group 1 equal to u:
      s[i..] starts with `url("`, then u (non-empty, quote-free), then `")`. */
  ghost predicate UrlAt(s: string, i: int, u: string)
  {
    && 0 <= i && i + |u| + 7 <= |s| && |u| > 0 && '"' !in u
    && s[i..i + 5] == UrlOpen
    && s[i + 5..i + 5 + |u|] == u
    && s[i + 5 + |u|..i + 7 + |u|] == UrlClose
  }

  /** u is the group of the leftmost match, the one re.search reports. */
  ghost predicate LeftmostUrlAt(s: string, i: int, u: string)
  {
    UrlAt(s, i, u) && forall k, v :: 0 <= k < i ==> !UrlAt(s, k, v)
  }

  /** The first index at or after k holding a double quote, or |s| if there is none. */
  function FirstQuote(s: string, k: nat): (j: nat)
    requires k <= |s|
    ensures k <= j <= |s|
    ensures j < |s| ==> s[j] == '"'
    ensures forall m :: k <= m < j ==> s[m] != '"'
    decreases |s| - k
  {
    if k == |s| || s[k] == '"' then k else FirstQuote(s, k + 1)
  }

  /** An attempt to match the pattern at index i. Since `[^"]+` cannot pass a quote, the group
      can only end at the first quote after `url("`. */
  function MatchAt(s: string, i: nat): Option<string>
    requires i <= |s|
  {
    if i + 5 <= |s| && s[i..i + 5] == UrlOpen then
      var j := FirstQuote(s, i + 5);
      if j > i + 5 && j + 1 < |s| && s[j + 1] == ')' then Some(s[i + 5..j]) else None
    else None
  }

  lemma MatchAtCorrect(s: string, i: nat)
    requires i <= |s|
    ensures MatchAt(s, i).Some? ==> UrlAt(s, i, MatchAt(s, i).value)
    ensures forall u :: UrlAt(s, i, u) ==> MatchAt(s, i) == Some(u)
  {
    if MatchAt(s, i).Some? {
      var j := FirstQuote(s, i + 5);
      var u := s[i + 5..j];
      assert |u| == j - (i + 5);
      assert forall c :: c in u ==> c != '"' by {
        forall c | c in u ensures c != '"' {
          var t :| 0 <= t < |u| && u[t] == c;
          assert u[t] == s[i + 5 + t];
        }
      }
      assert s[i + 5 + |u|..i + 7 + |u|] == [s[j], s[j + 1]];
    }
    forall u | UrlAt(s, i, u) ensures MatchAt(s, i) == Some(u) {
      UrlAtGroup(s, i, u);
      var j := i + 5 + |u|;
      assert s[j + 1] == s[i + 5 + |u|..i + 7 + |u|][1] == ')';
    }
  }

  lemma {:induction false} FirstQuoteIs(s: string, k: nat, j: nat)
    requires k <= j < |s| && s[j] == '"'
    requires forall m :: k <= m < j ==> s[m] != '"'
    ensures FirstQuote(s, k) == j
    decreases j - k
  {
    if k < j {
      FirstQuoteIs(s, k + 1, j);
    }
  }

  /** re.search: try every start index from i on, leftmost first. */
  function SearchFrom(s: string, i: nat): Option<string>
    requires i <= |s|
    decreases |s| - i
  {
    if MatchAt(s, i).Some? then MatchAt(s, i)
    else if i == |s| then None
    else SearchFrom(s, i + 1)
  }

  /** The match at k is the first one at or after i. */
  ghost predicate LeftmostFrom(s: string, i: int, k: int, u: string)
  {
    UrlAt(s, k, u) && forall k', v :: i <= k' < k ==> !UrlAt(s, k', v)
  }

  lemma {:induction false} SearchFromCorrect(s: string, i: nat)
    requires i <= |s|
    ensures SearchFrom(s, i).Some? ==> exists k :: i <= k <= |s| && LeftmostFrom(s, i, k, SearchFrom(s, i).value)
    ensures forall k, u :: i <= k && UrlAt(s, k, u) ==> SearchFrom(s, i).Some?
    decreases |s| - i
  {
    MatchAtCorrect(s, i);
    if MatchAt(s, i).Some? {
      assert LeftmostFrom(s, i, i, MatchAt(s, i).value);
    } else if i < |s| {
      SearchFromCorrect(s, i + 1);
      var m := SearchFrom(s, i + 1);
      if m.Some? {
        var k :| i + 1 <= k <= |s| && LeftmostFrom(s, i + 1, k, m.value);
        assert LeftmostFrom(s, i, k, m.value);
      }
    }
  }

  lemma ExtractUrlLeftmost(css: string)
    ensures SearchFrom(css, 0).Some? ==> exists i :: LeftmostUrlAt(css, i, SearchFrom(css, 0).value)
    ensures SearchFrom(css, 0).None? ==> forall i, u :: !UrlAt(css, i, u)
  {
    SearchFromCorrect(css, 0);
    if SearchFrom(css, 0).Some? {
      var k :| 0 <= k <= |css| && LeftmostFrom(css, 0, k, SearchFrom(css, 0).value);
      assert LeftmostUrlAt(css, k, SearchFrom(css, 0).value);
    }
  }

  /** `extract_url_from_css`: the group of the leftmost `url("…")` occurrence, or None. */
  function ExtractUrlFromCss(css: string): (url: Option<string>)
    ensures url.Some? ==> |url.value| > 0 && '"' !in url.value
    ensures url.Some? ==> exists i :: LeftmostUrlAt(css, i, url.value)
    ensures url.None? ==> forall i, u :: !UrlAt(css, i, u)
  {
    ExtractUrlLeftmost(css);
    SearchFrom(css, 0)
  }

  /** Round trip: wrapping a non-empty quote-free URL in `url("…")` and extracting it gives it back. */
  lemma ExtractUrlRoundTrip(u: string)
    requires |u| > 0 && '"' !in u
    ensures ExtractUrlFromCss(UrlOpen + u + UrlClose) == Some(u)
  {
    var s := UrlOpen + u + UrlClose;
    assert s[0..5] == UrlOpen;
    assert s[5..5 + |u|] == u;
    assert s[5 + |u|..7 + |u|] == UrlClose;
    assert UrlAt(s, 0, u);
    MatchAtCorrect(s, 0);
  }

  /** At a given index the group of a match is determined: it ends at the first quote. */
  lemma UrlAtUnique(s: string, i: int, u: string, v: string)
    requires UrlAt(s, i, u) && UrlAt(s, i, v)
    ensures u == v
  {
    UrlAtGroup(s, i, u);
    UrlAtGroup(s, i, v);
  }

  lemma UrlAtGroup(s: string, i: int, u: string)
    requires UrlAt(s, i, u)
    ensures FirstQuote(s, i + 5) == i + 5 + |u|
    ensures u == s[i + 5..FirstQuote(s, i + 5)]
  {
    var j := i + 5 + |u|;
    assert s[j] == s[i + 5 + |u|..i + 7 + |u|][0] == '"';
    forall m | i + 5 <= m < j ensures s[m] != '"' {
      assert s[m] == s[i + 5..i + 5 + |u|][m - (i + 5)] == u[m - (i + 5)];
      assert u[m - (i + 5)] in u;
    }
    FirstQuoteIs(s, i + 5, j);
  }

  // ---------------------------------------------------------------------------------------
  // The image-search loop of scrape_with_1688_image_search

  /** The local `image_url` of the loop: None while it is unbound, Some(x) once assigned. */
  type ImageUrl = Option<Option<string>>

  /** One iteration of the loop on one record, given the `image_url` left by the previous one. */
  function RewriteOne(r: Record, imageUrl: ImageUrl): Result<(Record, ImageUrl)>
  {
    if "image" !in r then Err(KeyError)
    else if Truthy(r["image"]) then
      match r["image"]
      case Text(css) =>
        var u := ExtractUrlFromCss(css);
        Ok((r["image" := ToField(u)], Some(u)))
      case _ => Err(TypeError)   // re.search on a value that is not a string
    else if imageUrl.None? then Err(UnboundLocalError)
    else Ok((r["image" := ToField(imageUrl.value)], imageUrl))
  }

  /** The whole loop, as a function of the records and the `image_url` it starts with. */
  function RewriteImages(rs: seq<Record>, imageUrl: ImageUrl): Result<seq<Record>>
  {
    if rs == [] then Ok([])
    else
      match RewriteOne(rs[0], imageUrl)
      case Err(e) => Err(e)
      case Ok((r, next)) =>
        match RewriteImages(rs[1..], next)
        case Err(e) => Err(e)
        case Ok(rest) => Ok([r] + rest)
  }

  /** A successful rewrite keeps every record and every key, and changes only `image`; a record
      with a truthy CSS attribute gets the extracted URL (None when the pattern does not match). */
  lemma {:induction false} RewriteImagesShape(rs: seq<Record>, imageUrl: ImageUrl)
    requires RewriteImages(rs, imageUrl).Ok?
    ensures var out := RewriteImages(rs, imageUrl).value;
      && |out| == |rs|
      && (forall k :: 0 <= k < |rs| ==> "image" in rs[k] && "image" in out[k])
      && (forall k :: 0 <= k < |rs| ==> out[k] == rs[k]["image" := out[k]["image"]])
      && (forall k :: 0 <= k < |rs| && Truthy(rs[k]["image"]) ==>
            rs[k]["image"].Text? && out[k]["image"] == ToField(ExtractUrlFromCss(rs[k]["image"].text)))
  {
    if rs != [] {
      var step := RewriteOne(rs[0], imageUrl).value;
      RewriteImagesShape(rs[1..], step.1);
      var out := RewriteImages(rs, imageUrl).value;
      assert out[0] == step.0;
      forall k | 1 <= k < |rs| ensures out[k] == RewriteImages(rs[1..], step.1).value[k - 1] && rs[k] == rs[1..][k - 1] {
      }
    }
  }

  /** A falsy image attribute takes over the previous record's new image (the loop reuses
      `image_url`); on the first record it takes the `image_url` the loop started with. */
  lemma {:induction false} RewriteImagesFalsyReuses(rs: seq<Record>, imageUrl: ImageUrl, k: nat)
    requires RewriteImages(rs, imageUrl).Ok? && k < |rs|
    requires "image" in rs[k] && !Truthy(rs[k]["image"])
    ensures var out := RewriteImages(rs, imageUrl).value;
      && |out| == |rs|
      && (forall j :: 0 <= j < |out| ==> "image" in out[j])
      && out[k]["image"] == if k == 0 then ToField(imageUrl.value) else out[k - 1]["image"]
  {
    RewriteImagesShape(rs, imageUrl);
    var step := RewriteOne(rs[0], imageUrl).value;
    if k > 0 {
      RewriteImagesShape(rs[1..], step.1);
      if k > 1 {
        RewriteImagesFalsyReuses(rs[1..], step.1, k - 1);
      } else {
        assert rs[1..][0] == rs[1];
        RewriteImagesFalsyReuses(rs[1..], step.1, 0);
        assert step.0["image"] == ToField(step.1.value);
      }
    }
  }

  /** A first record with a falsy image attribute makes the loop fail: `image_url` is unbound. */
  lemma RewriteImagesUnbound(rs: seq<Record>)
    requires rs != [] && "image" in rs[0] && !Truthy(rs[0]["image"])
    ensures RewriteImages(rs, None) == Err(UnboundLocalError)
  {
  }

  /** What `scrape_with_1688_image_search` gives once the scrape pipeline is done: None stays
      None, a record list goes through the image loop, whose exception propagates. */
  function ImageSearchOutcome(finished: Option<seq<Record>>): Result<Option<seq<Record>>>
  {
    match finished
    case None => Ok(None)
    case Some(ps) =>
      match RewriteImages(ps, None)
      case Ok(out) => Ok(Some(out))
      case Err(e) => Err(e)
  }

  function Prepend(p: seq<Record>, r: Result<seq<Record>>): Result<seq<Record>>
  {
    match r
    case Ok(s) => Ok(p + s)
    case Err(e) => Err(e)
  }

  lemma PrependPrepend(p: seq<Record>, q: seq<Record>, r: Result<seq<Record>>)
    ensures Prepend(p, Prepend(q, r)) == Prepend(p + q, r)
  {
    if r.Ok? {
      assert p + (q + r.value) == (p + q) + r.value;
    }
  }

  /** The loop itself, rewriting `product['image']` in place record by record. */
  method RewriteImagesInPlace(a: array<Record>) returns (err: Option<PyError>)
    modifies a
    ensures match RewriteImages(old(a[..]), None)
      case Ok(out) => err == None && a[..] == out
      case Err(e) => err == Some(e)
  {
    ghost var input := a[..];
    var imageUrl: ImageUrl := None;
    var i := 0;
    assert a[..0] == [] && input[0..] == input;
    assert Prepend([], RewriteImages(input, None)) == RewriteImages(input, None) by {
      if RewriteImages(input, None).Ok? {
        assert [] + RewriteImages(input, None).value == RewriteImages(input, None).value;
      }
    }
    while i < a.Length
      invariant 0 <= i <= a.Length
      invariant a[i..] == input[i..]
      invariant RewriteImages(input, None) == Prepend(a[..i], RewriteImages(input[i..], imageUrl))
    {
      ghost var rest := input[i..];
      ghost var urlBefore := imageUrl;
      assert rest[0] == a[i] && rest[1..] == input[i + 1..];
      var record := a[i];
      if "image" !in record {
        assert RewriteImages(rest, urlBefore) == Err(KeyError);
        return Some(KeyError);
      }
      var attribute := record["image"];
      if Truthy(attribute) {
        if !attribute.Text? {
          assert RewriteImages(rest, urlBefore) == Err(TypeError);
          return Some(TypeError);
        }
        imageUrl := Some(ExtractUrlFromCss(attribute.text));
      } else if imageUrl.None? {
        assert RewriteImages(rest, urlBefore) == Err(UnboundLocalError);
        return Some(UnboundLocalError);
      }
      ghost var before := a[..i];
      var updated := record["image" := ToField(imageUrl.value)];
      a[i] := updated;
      assert RewriteOne(record, urlBefore) == Ok((updated, imageUrl));
      assert RewriteImages(rest, urlBefore) == Prepend([updated], RewriteImages(input[i + 1..], imageUrl));
      PrependPrepend(before, [updated], RewriteImages(input[i + 1..], imageUrl));
      assert a[..i + 1] == before + [updated];
      i := i + 1;
    }
    assert a[..i] == a[..];
    assert input[i..] == [];
    return None;
  }
}

/** analyst.py: currency normalisation, the list-shape check on model replies, the yes/no match
    verdict, and the per-listing and per-keyword aggregation. The model conversations, the
    literal parser and the scraper are oracles collected in an `Oracles` value. */
module Analyst {
  import opened PyModel

  const Sources: seq<string> := ["amazon", "1688"]

  /** The fixed rate `toUSD` applies to 1688 amounts (RMB). */
  const RmbToUsd: real := 0.15

  /** `languageOf`. */
  function LanguageOf(source: string): (language: string)
    requires source in Sources
    ensures language == "english" <==> source == "amazon"
    ensures language == "chinese" <==> source == "1688"
  {
    if source == "amazon" then "english" else "chinese"
  }

  // ---------------------------------------------------------------------------------------
  // toUSD: round(amount * 0.15, 2) on exact reals

  /** The nearest integer, ties going to the even one. */
  function RoundHalfEven(y: real): (k: int)
    ensures -0.5 <= k as real - y <= 0.5
    ensures (k as real - y == 0.5 || y - k as real == 0.5) ==> k % 2 == 0
  {
    var f := y.Floor;
    var frac := y - f as real;
    if frac < 0.5 then f
    else if frac > 0.5 then f + 1
    else if f % 2 == 0 then f
    else f + 1
  }

  /** The two properties of RoundHalfEven determine it. */
  lemma RoundHalfEvenUnique(y: real, k: int)
    requires -0.5 <= k as real - y <= 0.5
    requires (k as real - y == 0.5 || y - k as real == 0.5) ==> k % 2 == 0
    ensures k == RoundHalfEven(y)
  {
    var r := RoundHalfEven(y);
    assert -1 <= k - r <= 1;
  }

  /** `round(x, 2)`: the nearest multiple of 0.01, ties to an even number of hundredths. */
  function Round2(x: real): (r: real)
    ensures (r * 100.0).Floor as real == r * 100.0
    ensures -0.005 <= r - x <= 0.005
    ensures (r - x == 0.005 || x - r == 0.005) ==> (r * 100.0).Floor % 2 == 0
  {
    var k := RoundHalfEven(x * 100.0);
    var r := k as real / 100.0;
    assert r * 100.0 == k as real;
    assert r - x == (k as real - x * 100.0) / 100.0;
    r
  }

  /** `toUSD`: Amazon amounts are already dollars; 1688 amounts are converted and rounded to cents. */
  function ToUSD(amount: real, source: string): (usd: real)
    requires source in Sources
    ensures source == "amazon" ==> usd == amount
    ensures source == "1688" ==> (usd * 100.0).Floor as real == usd * 100.0
    ensures source == "1688" ==> -0.005 <= usd - amount * RmbToUsd <= 0.005
    ensures source == "1688" && (usd - amount * RmbToUsd == 0.005 || amount * RmbToUsd - usd == 0.005) ==>
              (usd * 100.0).Floor % 2 == 0
  {
    if source == "amazon" then amount else Round2(amount * RmbToUsd)
  }

  /** The 1688 conversion is the only whole number of cents within half a cent of amount * 0.15
      that, on an exact half cent, has an even number of cents. */
  lemma ToUSDUnique(amount: real, usd: real)
    requires (usd * 100.0).Floor as real == usd * 100.0
    requires -0.005 <= usd - amount * RmbToUsd <= 0.005
    requires (usd - amount * RmbToUsd == 0.005 || amount * RmbToUsd - usd == 0.005) ==> (usd * 100.0).Floor % 2 == 0
    ensures ToUSD(amount, "1688") == usd
  {
    var k := (usd * 100.0).Floor;
    var y := amount * RmbToUsd * 100.0;
    assert k as real - y == (usd - amount * RmbToUsd) * 100.0;
    RoundHalfEvenUnique(y, k);
  }

  /** An amount whose converted value is a whole number of cents converts exactly. */
  lemma ToUSDExact(amount: real, cents: int)
    requires amount * 15.0 == cents as real
    ensures ToUSD(amount, "1688") == amount * RmbToUsd
  {
    assert amount * RmbToUsd * 100.0 == cents as real;
    RoundHalfEvenUnique(cents as real, cents);
  }

  /** 100 RMB is 15 dollars. */
  lemma ToUSDHundred()
    ensures ToUSD(100.0, "1688") == 15.0
  {
    ToUSDExact(100.0, 1500);
  }

  // ---------------------------------------------------------------------------------------
  // is_valid_list_of, over the value ast.literal_eval produced

  /** The Python literals a model reply can parse to. A dict is given by its keys and a set by its
      elements, each in the order iteration visits them; bytes by their values. `LOther` stands
      for the literals that cannot be iterated (complex numbers, `Ellipsis`). */
  datatype Literal =
    | LStr(s: string)
    | LInt(i: int)
    | LFloat(f: real)
    | LBool(b: bool)
    | LNone
    | LList(items: seq<Literal>)
    | LTuple(elements: seq<Literal>)
    | LDict(keys: seq<Literal>)
    | LSet(members: seq<Literal>)
    | LBytes(values: seq<int>)
    | LOther

  datatype PyType = StrType | IntType | FloatType | BoolType | ListType

  /** What `ast.literal_eval` did with a reply. */
  datatype ParseOutcome = Parsed(value: Literal) | ParseRaised(error: PyError)

  /** `isinstance`; a bool is an int in Python. */
  predicate IsInstance(v: Literal, t: PyType)
  {
    match t
    case StrType => v.LStr?
    case IntType => v.LInt? || v.LBool?
    case FloatType => v.LFloat?
    case BoolType => v.LBool?
    case ListType => v.LList?
  }

  /** `all(isinstance(item, type) for item in items)`. */
  function AllInstances(items: seq<Literal>, t: PyType): (all: bool)
    ensures all <==> forall i :: 0 <= i < |items| ==> IsInstance(items[i], t)
  {
    if items == [] then true else IsInstance(items[0], t) && AllInstances(items[1..], t)
  }

  /** `is_valid_list_of(type, length)(string)` with `parsed` the parse of `string`: true exactly
      for a list of `length` elements of the type; a ValueError or SyntaxError of the parser gives
      false, any other exception propagates. */
  function IsValidListOf(t: PyType, length: int, parsed: ParseOutcome): (valid: Result<bool>)
    ensures valid == Ok(true) <==>
              parsed.Parsed? && parsed.value.LList? && |parsed.value.items| == length
              && forall i :: 0 <= i < |parsed.value.items| ==> IsInstance(parsed.value.items[i], t)
    ensures valid.Err? <==> parsed.ParseRaised? && parsed.error != ValueError && parsed.error != SyntaxError
    ensures valid.Err? ==> valid.error == parsed.error
  {
    match parsed
    case ParseRaised(e) => if e == ValueError || e == SyntaxError then Ok(false) else Err(e)
    case Parsed(v) =>
      if v.LList? && AllInstances(v.items, t) then Ok(|v.items| == length) else Ok(false)
  }

  /** With the search-term check of `analyze_listing`: a tuple, a list of six strings, or a list
      holding a non-string is rejected. */
  lemma IsValidListOfExamples(a: string, b: string, c: string, d: string, e: string)
    ensures IsValidListOf(StrType, 5, Parsed(LList([LStr(a), LStr(b), LStr(c), LStr(d), LStr(e)]))) == Ok(true)
    ensures IsValidListOf(StrType, 5, Parsed(LTuple([LStr(a), LStr(b), LStr(c), LStr(d), LStr(e)]))) == Ok(false)
    ensures IsValidListOf(StrType, 5, Parsed(LList([LStr(a), LStr(b), LStr(c), LStr(d), LStr(e), LStr(a)]))) == Ok(false)
    ensures IsValidListOf(StrType, 5, Parsed(LList([LStr(a), LStr(b), LStr(c), LStr(d), LInt(0)]))) == Ok(false)
    ensures IsValidListOf(IntType, 1, Parsed(LList([LBool(true)]))) == Ok(true)
    ensures IsValidListOf(StrType, 5, ParseRaised(SyntaxError)) == Ok(false)
  {
    var bad := [LStr(a), LStr(b), LStr(c), LStr(d), LInt(0)];
    assert !IsInstance(bad[4], StrType);
  }

  // ---------------------------------------------------------------------------------------
  // match_pair

  /** `str.lower` on ASCII letters. */
  function LowerChar(c: char): char
  {
    if 'A' <= c <= 'Z' then (c as int + 32) as char else c
  }

  function Lower(s: string): (l: string)
    ensures |l| == |s|
    ensures forall i :: 0 <= i < |s| ==>
              && ('A' <= s[i] <= 'Z' ==> l[i] as int == s[i] as int + 32)
              && (!('A' <= s[i] <= 'Z') ==> l[i] == s[i])
  {
    seq(|s|, i requires 0 <= i < |s| => LowerChar(s[i]))
  }

  /** `t` occurs in `s` at position `i`. */
  ghost predicate OccursAt(s: string, t: string, i: int)
  {
    0 <= i <= |s| - |t| && s[i..i + |t|] == t
  }

  /** With no occurrence at the front, the occurrences in `s` are those in `s[1..]`, shifted. */
  lemma ContainsStep(s: string, t: string)
    requires |t| <= |s| && s[..|t|] != t
    ensures (exists i :: OccursAt(s, t, i)) <==> (exists i :: OccursAt(s[1..], t, i))
  {
    if exists i :: OccursAt(s, t, i) {
      var i :| OccursAt(s, t, i);
      assert i != 0;
      assert s[1..][i - 1..i - 1 + |t|] == s[i..i + |t|];
      assert OccursAt(s[1..], t, i - 1);
    }
    if exists i :: OccursAt(s[1..], t, i) {
      var i :| OccursAt(s[1..], t, i);
      assert s[1..][i..i + |t|] == s[i + 1..i + 1 + |t|];
      assert OccursAt(s, t, i + 1);
    }
  }

  /** The substring test `t in s`. */
  function Contains(s: string, t: string): (found: bool)
    ensures found <==> exists i :: OccursAt(s, t, i)
    decreases |s|
  {
    if |t| > |s| then false
    else if s[..|t|] == t then assert OccursAt(s, t, 0); true
    else ContainsStep(s, t); Contains(s[1..], t)
  }

  /** The keys both listings must have in `match_pair`. */
  predicate HasKeys(r: Record, keys: set<string>)
  {
    keys <= r.Keys
  }

  /** `match_pair`, given the reply of the validated exchange (None when it failed): None for no
      reply, otherwise whether the lower-cased reply contains "yes". */
  function MatchPair(listing: Record, against: Record, reply: Option<string>): (verdict: Result<Option<bool>>)
    ensures verdict.Err? <==> !HasKeys(listing, {"name", "image"}) || !HasKeys(against, {"name", "image"})
    ensures verdict.Err? ==> verdict.error == AssertionError
    ensures verdict.Ok? ==> (verdict.value.None? <==> reply.None?)
    ensures verdict.Ok? && reply.Some? ==>
              (verdict.value == Some(true) <==> exists i :: OccursAt(Lower(reply.value), "yes", i))
  {
    if !HasKeys(listing, {"name", "image"}) || !HasKeys(against, {"name", "image"}) then Err(AssertionError)
    else if reply.None? then Ok(None)
    else Ok(Some(Contains(Lower(reply.value), "yes")))
  }

  /** Under the acceptance test of the exchange (the reply lower-cased is "yes" or "no") the
      verdict is true exactly for "yes". */
  lemma MatchPairAccepted(listing: Record, against: Record, reply: string)
    requires HasKeys(listing, {"name", "image"}) && HasKeys(against, {"name", "image"})
    requires Lower(reply) == "yes" || Lower(reply) == "no"
    ensures MatchPair(listing, against, Some(reply)) == Ok(Some(Lower(reply) == "yes"))
  {
    if Lower(reply) == "yes" {
      assert OccursAt(Lower(reply), "yes", 0);
    }
  }

  /** Without that test the substring check accepts replies that do not say yes. */
  lemma MatchPairSubstring(listing: Record, against: Record)
    requires HasKeys(listing, {"name", "image"}) && HasKeys(against, {"name", "image"})
    ensures MatchPair(listing, against, Some("No eyes")) == Ok(Some(true))
  {
    assert Lower("No eyes")[4..7] == "yes";
    assert OccursAt(Lower("No eyes"), "yes", 4);
  }

  // ---------------------------------------------------------------------------------------
  // analyze_listing

  /** One candidate pair: the verdict (None when it failed), the converted cost and the listing. */
  datatype Pair = Pair(matched: Option<bool>, usdCost: real, supplierListing: Record)

  /** The calls analyst.py makes outside itself. The validated exchanges are opaque: each gives a
      reply or None. */
  datatype Oracles = Oracles(
    searchTermsReply: Record -> Option<string>,          // the search-term exchange for a listing
    literalEval: string -> ParseOutcome,                 // ast.literal_eval
    scrape1688: Literal -> Result<Option<seq<Record>>>,  // scrape(term, "1688"); Err when it raised
    verdictReply: (Record, Record) -> Option<string>,    // the yes/no exchange for a pair
    parseFloat: string -> Option<real>)                  // float() of a price text; None for a ValueError

  /** `float(value)`: a number is kept, a text goes through the parser (ValueError when it is not
      a number), None raises TypeError. */
  function PyFloat(f: Field, parseFloat: string -> Option<real>): (x: Result<real>)
    ensures f.Number? ==> x == Ok(f.number)
    ensures f.Null? ==> x == Err(TypeError)
    ensures f.Text? ==> (x.Ok? <==> parseFloat(f.text).Some?)
    ensures f.Text? && x.Ok? ==> x.value == parseFloat(f.text).value
    ensures f.Text? && x.Err? ==> x.error == ValueError
  {
    match f
    case Number(x) => Ok(x)
    case Text(s) => if parseFloat(s).Some? then Ok(parseFloat(s).value) else Err(ValueError)
    case Null => Err(TypeError)
  }

  /** The pair built for one supplier listing; the verdict is computed before the cost. */
  function MakePair(listing: Record, supplier: Record, o: Oracles): Result<Pair>
  {
    match MatchPair(listing, supplier, o.verdictReply(listing, supplier))
    case Err(e) => Err(e)
    case Ok(m) =>
      if "price" !in supplier then Err(KeyError)
      else
        match PyFloat(supplier["price"], o.parseFloat)
        case Err(e) => Err(e)
        case Ok(x) => Ok(Pair(m, ToUSD(x, "1688"), supplier))
  }

  /** A pair carries its supplier listing, its verdict, and the 1688 price converted by `toUSD`. */
  lemma MakePairFields(listing: Record, supplier: Record, o: Oracles)
    requires MakePair(listing, supplier, o).Ok?
    ensures var p := MakePair(listing, supplier, o).value;
      && p.supplierListing == supplier
      && MatchPair(listing, supplier, o.verdictReply(listing, supplier)) == Ok(p.matched)
      && "price" in supplier && PyFloat(supplier["price"], o.parseFloat).Ok?
      && p.usdCost == ToUSD(PyFloat(supplier["price"], o.parseFloat).value, "1688")
  {
  }

  /** The pairs of the inner loop over the listings of one scrape. */
  function SupplierPairs(listing: Record, suppliers: seq<Record>, o: Oracles): Result<seq<Pair>>
  {
    if suppliers == [] then Ok([])
    else
      match SupplierPairs(listing, suppliers[..|suppliers| - 1], o)
      case Err(e) => Err(e)
      case Ok(ps) =>
        match MakePair(listing, suppliers[|suppliers| - 1], o)
        case Err(e) => Err(e)
        case Ok(p) => Ok(ps + [p])
  }

  /** The pairs of the outer loop over the search terms; a term whose scrape gives None is skipped. */
  function TermsPairs(listing: Record, terms: seq<Literal>, o: Oracles): Result<seq<Pair>>
  {
    if terms == [] then Ok([])
    else
      match TermsPairs(listing, terms[..|terms| - 1], o)
      case Err(e) => Err(e)
      case Ok(ps) =>
        match ScrapePairs(listing, o.scrape1688(terms[|terms| - 1]), o)
        case Err(e) => Err(e)
        case Ok(qs) => Ok(ps + qs)
  }

  /** The pairs one search term adds: its scrape's exception, nothing for a None result, or the
      pairs of its listings. */
  function ScrapePairs(listing: Record, scraped: Result<Option<seq<Record>>>, o: Oracles): Result<seq<Pair>>
  {
    match scraped
    case Err(e) => Err(e)
    case Ok(listings) => if listings.None? then Ok([]) else SupplierPairs(listing, listings.value, o)
  }

  /** The supplier listings one scrape contributes. */
  function ScrapedListings(scraped: Result<Option<seq<Record>>>): seq<Record>
  {
    if scraped.Ok? && scraped.value.Some? then scraped.value.value else []
  }

  /** The supplier listings of all successful scrapes, in order: a reference for TermsPairs. */
  function Scraped(terms: seq<Literal>, o: Oracles): seq<Record>
  {
    if terms == [] then []
    else
      Scraped(terms[..|terms| - 1], o) + ScrapedListings(o.scrape1688(terms[|terms| - 1]))
  }

  /** The literals `for` can iterate. */
  predicate Iterable(v: Literal)
  {
    v.LStr? || v.LList? || v.LTuple? || v.LDict? || v.LSet? || v.LBytes?
  }

  /** What `for st in search_terms` iterates over: a list's or tuple's elements, a dict's keys, a
      set's members, a string's one-character strings, the integer values of bytes; a number,
      a bool, None or another literal raises TypeError. */
  function SearchTerms(v: Literal): (terms: Result<seq<Literal>>)
    ensures terms.Err? <==> !Iterable(v)
    ensures terms.Err? ==> terms.error == TypeError
    ensures v.LList? ==> terms == Ok(v.items)
    ensures v.LTuple? ==> terms == Ok(v.elements)
    ensures v.LDict? ==> terms == Ok(v.keys)
    ensures v.LSet? ==> terms == Ok(v.members)
    ensures v.LStr? ==> terms.Ok? && |terms.value| == |v.s| && forall i :: 0 <= i < |v.s| ==> terms.value[i] == LStr([v.s[i]])
    ensures v.LBytes? ==> terms.Ok? && |terms.value| == |v.values| && forall i :: 0 <= i < |v.values| ==> terms.value[i] == LInt(v.values[i])
  {
    match v
    case LList(items) => Ok(items)
    case LTuple(elements) => Ok(elements)
    case LDict(keys) => Ok(keys)
    case LSet(members) => Ok(members)
    case LStr(s) => Ok(seq(|s|, i requires 0 <= i < |s| => LStr([s[i]])))
    case LBytes(values) => Ok(seq(|values|, i requires 0 <= i < |values| => LInt(values[i])))
    case _ => Err(TypeError)
  }

  /** A reply that parses to a dict is iterated over its keys, so `{'lamp': 1}` searches "lamp". */
  lemma SearchTermsDict()
    ensures SearchTerms(LDict([LStr("lamp")])) == Ok([LStr("lamp")])
    ensures SearchTerms(LInt(5)) == Err(TypeError)
  {
  }

  /** `analyze_listing`: None when the search-term exchange failed, else the pairs of all scrapes. */
  function ListingAnalysis(listing: Record, o: Oracles): Result<Option<seq<Pair>>>
  {
    if !HasKeys(listing, {"name", "price", "image", "url"}) then Err(AssertionError)
    else
      var reply := o.searchTermsReply(listing);
      if reply.None? then Ok(None)
      else
        match o.literalEval(reply.value)
        case ParseRaised(e) => Err(e)
        case Parsed(v) =>
          match SearchTerms(v)
          case Err(e) => Err(e)
          case Ok(terms) =>
            match TermsPairs(listing, terms, o)
            case Err(e) => Err(e)
            case Ok(ps) => Ok(Some(ps))
  }

  /** The inner loop succeeds exactly when every supplier listing gives a pair, and then its
      pairs are those listings' pairs, one each, in order. */
  lemma {:induction false} SupplierPairsAreMadePairs(listing: Record, suppliers: seq<Record>, o: Oracles)
    ensures SupplierPairs(listing, suppliers, o).Ok? <==>
              forall k :: 0 <= k < |suppliers| ==> MakePair(listing, suppliers[k], o).Ok?
    ensures SupplierPairs(listing, suppliers, o).Ok? ==>
              var ps := SupplierPairs(listing, suppliers, o).value;
              |ps| == |suppliers| && forall k :: 0 <= k < |ps| ==> MakePair(listing, suppliers[k], o) == Ok(ps[k])
  {
    if suppliers != [] {
      var init := suppliers[..|suppliers| - 1];
      SupplierPairsAreMadePairs(listing, init, o);
      assert forall k :: 0 <= k < |init| ==> init[k] == suppliers[k];
    }
  }

  /** Every scrape of the search terms returned instead of raising. */
  ghost predicate ScrapesReturned(terms: seq<Literal>, o: Oracles)
  {
    forall t :: 0 <= t < |terms| ==> o.scrape1688(terms[t]).Ok?
  }

  /** `analyze_listing` emits exactly one pair per supplier listing of each successful scrape, in
      order, and succeeds exactly when every scrape returned and every such listing gives a pair. */
  lemma {:induction false} TermsPairsAreMadePairs(listing: Record, terms: seq<Literal>, o: Oracles)
    ensures TermsPairs(listing, terms, o).Ok? ==>
              ScrapesReturned(terms, o) && forall k :: 0 <= k < |Scraped(terms, o)| ==> MakePair(listing, Scraped(terms, o)[k], o).Ok?
    ensures ScrapesReturned(terms, o) && (forall k :: 0 <= k < |Scraped(terms, o)| ==> MakePair(listing, Scraped(terms, o)[k], o).Ok?) ==>
              TermsPairs(listing, terms, o).Ok?
    ensures TermsPairs(listing, terms, o).Ok? ==>
              var ps := TermsPairs(listing, terms, o).value;
              |ps| == |Scraped(terms, o)| && forall k :: 0 <= k < |ps| ==> MakePair(listing, Scraped(terms, o)[k], o) == Ok(ps[k])
  {
    TermsPairsScrapesOk(listing, terms, o);
    if ScrapesReturned(terms, o) {
      TermsPairsOfScrapes(listing, terms, o);
      if TermsPairs(listing, terms, o).Err? {
        var k :| 0 <= k < |Scraped(terms, o)| && MakePair(listing, Scraped(terms, o)[k], o).Err?;
      }
    }
  }

  /** The outer loop succeeds only when every scrape returned. */
  lemma {:induction false} TermsPairsScrapesOk(listing: Record, terms: seq<Literal>, o: Oracles)
    ensures TermsPairs(listing, terms, o).Ok? ==> ScrapesReturned(terms, o)
  {
    if terms != [] {
      var init := terms[..|terms| - 1];
      TermsPairsScrapesOk(listing, init, o);
      assert forall t :: 0 <= t < |init| ==> init[t] == terms[t];
    }
  }

  /** `r` holds one made pair per record of `rs`, in order, and fails exactly when one of them does. */
  ghost predicate MadePairs(listing: Record, rs: seq<Record>, r: Result<seq<Pair>>, o: Oracles)
  {
    && (r.Err? ==> exists k :: 0 <= k < |rs| && MakePair(listing, rs[k], o).Err?)
    && (r.Ok? ==> |r.value| == |rs| && forall k :: 0 <= k < |rs| ==> MakePair(listing, rs[k], o) == Ok(r.value[k]))
  }

  /** When every scrape returned, the pairs are one per supplier listing of the successful ones. */
  lemma {:induction false} TermsPairsOfScrapes(listing: Record, terms: seq<Literal>, o: Oracles)
    requires ScrapesReturned(terms, o)
    ensures MadePairs(listing, Scraped(terms, o), TermsPairs(listing, terms, o), o)
  {
    if terms != [] {
      var init := terms[..|terms| - 1];
      assert forall t :: 0 <= t < |init| ==> init[t] == terms[t];
      TermsPairsOfScrapes(listing, init, o);
      var scraped := o.scrape1688(terms[|terms| - 1]);
      ScrapePairsAreMadePairs(listing, scraped, o);
      MadePairsConcat(listing, Scraped(init, o), ScrapedListings(scraped), TermsPairs(listing, init, o), ScrapePairs(listing, scraped, o), o);
    }
  }

  /** Made pairs of two record sequences concatenate to the made pairs of their concatenation. */
  lemma MadePairsConcat(listing: Record, before: seq<Record>, added: seq<Record>, r1: Result<seq<Pair>>, r2: Result<seq<Pair>>, o: Oracles)
    requires MadePairs(listing, before, r1, o) && MadePairs(listing, added, r2, o)
    ensures MadePairs(listing, before + added, if r1.Err? then r1 else if r2.Err? then r2 else Ok(r1.value + r2.value), o)
  {
    var all := before + added;
    if r1.Err? {
      var k :| 0 <= k < |before| && MakePair(listing, before[k], o).Err?;
      assert all[k] == before[k];
    } else if r2.Err? {
      var k :| 0 <= k < |added| && MakePair(listing, added[k], o).Err?;
      assert all[|before| + k] == added[k];
    } else {
      var ps := r1.value + r2.value;
      forall k | 0 <= k < |all| ensures MakePair(listing, all[k], o) == Ok(ps[k]) {
        if k < |before| {
          assert all[k] == before[k];
        } else {
          assert all[k] == added[k - |before|];
        }
      }
    }
  }

  /** One returned scrape adds one pair per listing it gave, and succeeds exactly when each gives one. */
  lemma ScrapePairsAreMadePairs(listing: Record, scraped: Result<Option<seq<Record>>>, o: Oracles)
    requires scraped.Ok?
    ensures MadePairs(listing, ScrapedListings(scraped), ScrapePairs(listing, scraped, o), o)
    ensures var added := ScrapedListings(scraped);
      && (ScrapePairs(listing, scraped, o).Ok? <==> forall k :: 0 <= k < |added| ==> MakePair(listing, added[k], o).Ok?)
      && (ScrapePairs(listing, scraped, o).Ok? ==>
            |ScrapePairs(listing, scraped, o).value| == |added|
            && forall k :: 0 <= k < |added| ==> MakePair(listing, added[k], o) == Ok(ScrapePairs(listing, scraped, o).value[k]))
  {
    if scraped.value.Some? {
      assert ScrapedListings(scraped) == scraped.value.value;
      assert ScrapePairs(listing, scraped, o) == SupplierPairs(listing, scraped.value.value, o);
      SupplierPairsAreMadePairs(listing, scraped.value.value, o);
    }
  }

  lemma {:induction false} SupplierPairsErrPrefix(listing: Record, suppliers: seq<Record>, j: nat, o: Oracles)
    requires j <= |suppliers| && SupplierPairs(listing, suppliers[..j], o).Err?
    ensures SupplierPairs(listing, suppliers, o) == SupplierPairs(listing, suppliers[..j], o)
    decreases |suppliers| - j
  {
    if j < |suppliers| {
      var init := suppliers[..|suppliers| - 1];
      assert init[..j] == suppliers[..j];
      SupplierPairsErrPrefix(listing, init, j, o);
    } else {
      assert suppliers[..j] == suppliers;
    }
  }

  lemma {:induction false} TermsPairsErrPrefix(listing: Record, terms: seq<Literal>, t: nat, o: Oracles)
    requires t <= |terms| && TermsPairs(listing, terms[..t], o).Err?
    ensures TermsPairs(listing, terms, o) == TermsPairs(listing, terms[..t], o)
    decreases |terms| - t
  {
    if t < |terms| {
      var init := terms[..|terms| - 1];
      assert init[..t] == terms[..t];
      TermsPairsErrPrefix(listing, init, t, o);
    } else {
      assert terms[..t] == terms;
    }
  }

  /** The inner loop of `analyze_listing`: one pair per supplier listing is appended to
      `results`; the first exception of a verdict or a price conversion propagates. */
  method AppendSupplierPairs(listing: Record, suppliers: seq<Record>, o: Oracles, results: seq<Pair>)
    returns (r: Result<seq<Pair>>)
    ensures SupplierPairs(listing, suppliers, o).Err? ==> r == Err(SupplierPairs(listing, suppliers, o).error)
    ensures SupplierPairs(listing, suppliers, o).Ok? ==> r == Ok(results + SupplierPairs(listing, suppliers, o).value)
  {
    var extended := results;
    var j := 0;
    while j < |suppliers|
      invariant 0 <= j <= |suppliers|
      invariant SupplierPairs(listing, suppliers[..j], o).Ok?
      invariant extended == results + SupplierPairs(listing, suppliers[..j], o).value
    {
      var supplier := suppliers[j];
      assert suppliers[..j + 1][..j] == suppliers[..j];
      var verdict := MatchPair(listing, supplier, o.verdictReply(listing, supplier));
      if verdict.Err? || "price" !in supplier || PyFloat(supplier["price"], o.parseFloat).Err? {
        SupplierPairsErrPrefix(listing, suppliers, j + 1, o);
        return Err(MakePair(listing, supplier, o).error);
      }
      var pair := Pair(verdict.value, ToUSD(PyFloat(supplier["price"], o.parseFloat).value, "1688"), supplier);
      extended := extended + [pair];
      j := j + 1;
    }
    assert suppliers[..j] == suppliers;
    return Ok(extended);
  }

  /** One pass of the outer loop of `analyze_listing`: the scrape's exception propagates, a None
      result adds nothing, and otherwise the inner loop appends the listings' pairs. */
  method AppendScrapePairs(listing: Record, scraped: Result<Option<seq<Record>>>, o: Oracles, results: seq<Pair>)
    returns (r: Result<seq<Pair>>)
    ensures ScrapePairs(listing, scraped, o).Err? ==> r == Err(ScrapePairs(listing, scraped, o).error)
    ensures ScrapePairs(listing, scraped, o).Ok? ==> r == Ok(results + ScrapePairs(listing, scraped, o).value)
  {
    if scraped.Err? {
      return Err(scraped.error);
    }
    if scraped.value.None? {
      assert results + [] == results;
      return Ok(results);
    }
    r := AppendSupplierPairs(listing, scraped.value.value, o, results);
  }

  /** `analyze_listing`, with its outer loop over the search terms. */
  method AnalyzeListing(listing: Record, o: Oracles) returns (r: Result<Option<seq<Pair>>>)
    ensures r == ListingAnalysis(listing, o)
  {
    if !({"name", "price", "image", "url"} <= listing.Keys) {
      return Err(AssertionError);
    }
    var reply := o.searchTermsReply(listing);
    if reply.None? {
      return Ok(None);
    }
    var parsed := o.literalEval(reply.value);
    if parsed.ParseRaised? {
      return Err(parsed.error);
    }
    var iterated := SearchTerms(parsed.value);
    if iterated.Err? {
      return Err(iterated.error);
    }
    var searchTerms := iterated.value;
    var results: seq<Pair> := [];
    var t := 0;
    while t < |searchTerms|
      invariant 0 <= t <= |searchTerms|
      invariant TermsPairs(listing, searchTerms[..t], o) == Ok(results)
    {
      assert searchTerms[..t + 1][..t] == searchTerms[..t];
      var extended := AppendScrapePairs(listing, o.scrape1688(searchTerms[t]), o, results);
      if extended.Err? {
        TermsPairsErrPrefix(listing, searchTerms, t + 1, o);
        return Err(extended.error);
      }
      results := extended.value;
      t := t + 1;
    }
    assert searchTerms[..t] == searchTerms;
    return Ok(Some(results));
  }

  // ---------------------------------------------------------------------------------------
  // analyze_keyword

  /** The analytic of one Amazon listing. */
  datatype Analytic = Analytic(originalListing: Record, estimatedCost: real, estimatedMargin: real)

  /** `sum([pair['usd_cost'] for pair in result if pair['match']])`. */
  function MatchedCostSum(ps: seq<Pair>): real
  {
    if ps == [] then 0.0
    else (if ps[0].matched == Some(true) then ps[0].usdCost else 0.0) + MatchedCostSum(ps[1..])
  }

  /** The average cost: the matched costs divided by the number of ALL pairs. */
  function AverageCost(ps: seq<Pair>): Result<real>
  {
    if |ps| == 0 then Err(ZeroDivisionError) else Ok(MatchedCostSum(ps) / |ps| as real)
  }

  /** `listing['price'] - average_cost / listing['price']`, as the operators bind. */
  function Margin(price: Field, cost: real): Result<real>
  {
    match price
    case Number(x) => if x == 0.0 then Err(ZeroDivisionError) else Ok(x - cost / x)
    case _ => Err(TypeError)   // arithmetic on a text or None price
  }

  /** The entry `analyze_keyword` appends for one listing, given what `analyze_listing` did. */
  function ListingAnalytic(listing: Record, analysis: Result<Option<seq<Pair>>>): Result<Option<Analytic>>
  {
    match analysis
    case Err(e) => Err(e)
    case Ok(None) => Ok(None)
    case Ok(Some(ps)) =>
      match AverageCost(ps)
      case Err(e) => Err(e)
      case Ok(cost) =>
        if "price" !in listing then Err(KeyError)
        else
          match Margin(listing["price"], cost)
          case Err(e) => Err(e)
          case Ok(margin) => Ok(Some(Analytic(listing, cost, margin)))
  }

  /** The loop of `analyze_keyword` over the Amazon results. */
  function KeywordAnalytics(listings: seq<Record>, o: Oracles): Result<seq<Option<Analytic>>>
  {
    if listings == [] then Ok([])
    else
      match KeywordAnalytics(listings[..|listings| - 1], o)
      case Err(e) => Err(e)
      case Ok(done) =>
        var last := listings[|listings| - 1];
        match ListingAnalytic(last, ListingAnalysis(last, o))
        case Err(e) => Err(e)
        case Ok(a) => Ok(done + [a])
  }

  /** `analyze_keyword`, given what `scrape(keyword, "amazon")` did: its exception propagates, and
      iterating a None result raises TypeError. */
  function KeywordAnalysis(searchResults: Result<Option<seq<Record>>>, o: Oracles): Result<seq<Option<Analytic>>>
  {
    match searchResults
    case Err(e) => Err(e)
    case Ok(listings) => if listings.None? then Err(TypeError) else KeywordAnalytics(listings.value, o)
  }

  /** One entry per search result, in order: None where `analyze_listing` gave None, otherwise the
      listing with its average cost and margin; any exception propagates. */
  lemma {:induction false} KeywordAnalyticsShape(listings: seq<Record>, o: Oracles)
    ensures KeywordAnalytics(listings, o).Ok? ==>
              forall i :: 0 <= i < |listings| ==> ListingAnalytic(listings[i], ListingAnalysis(listings[i], o)).Ok?
    ensures (forall i :: 0 <= i < |listings| ==> ListingAnalytic(listings[i], ListingAnalysis(listings[i], o)).Ok?) ==>
              KeywordAnalytics(listings, o).Ok?
    ensures KeywordAnalytics(listings, o).Ok? ==>
              var entries := KeywordAnalytics(listings, o).value;
              && |entries| == |listings|
              && forall i :: 0 <= i < |entries| ==> Ok(entries[i]) == ListingAnalytic(listings[i], ListingAnalysis(listings[i], o))
  {
    if listings != [] {
      var init, last := listings[..|listings| - 1], listings[|listings| - 1];
      KeywordAnalyticsShape(init, o);
      assert forall i :: 0 <= i < |init| ==> init[i] == listings[i];
      var entry := ListingAnalytic(last, ListingAnalysis(last, o));
      if KeywordAnalytics(init, o).Err? {
        var i :| 0 <= i < |init| && ListingAnalytic(init[i], ListingAnalysis(init[i], o)).Err?;
        assert listings[i] == init[i];
      } else if entry.Err? {
        assert KeywordAnalytics(listings, o).Err?;
      } else {
        assert KeywordAnalytics(listings, o) == Ok(KeywordAnalytics(init, o).value + [entry.value]);
      }
    }
  }

  /** What an entry holds: None exactly when `analyze_listing` gave None; otherwise the original
      listing, the average over all of its pairs and the margin as the expression parses. */
  lemma ListingAnalyticCases(listing: Record, analysis: Result<Option<seq<Pair>>>)
    requires ListingAnalytic(listing, analysis).Ok?
    ensures ListingAnalytic(listing, analysis).value.None? <==> analysis == Ok(None)
    ensures ListingAnalytic(listing, analysis).value.Some? ==>
              var a := ListingAnalytic(listing, analysis).value.value;
              && analysis.Ok? && analysis.value.Some? && |analysis.value.value| > 0
              && a.originalListing == listing
              && a.estimatedCost == MatchedCostSum(analysis.value.value) / |analysis.value.value| as real
              && "price" in listing && listing["price"].Number? && listing["price"].number != 0.0
              && a.estimatedMargin == listing["price"].number - a.estimatedCost / listing["price"].number
  {
  }

  lemma {:induction false} KeywordAnalyticsErrPrefix(listings: seq<Record>, i: nat, o: Oracles)
    requires i <= |listings| && KeywordAnalytics(listings[..i], o).Err?
    ensures KeywordAnalytics(listings, o) == KeywordAnalytics(listings[..i], o)
    decreases |listings| - i
  {
    if i < |listings| {
      var init := listings[..|listings| - 1];
      assert init[..i] == listings[..i];
      KeywordAnalyticsErrPrefix(init, i, o);
    } else {
      assert listings[..i] == listings;
    }
  }

  /** One more listing extends the loop's entries by its own entry, or raises its exception. */
  lemma KeywordAnalyticsStep(listings: seq<Record>, i: nat, o: Oracles)
    requires i < |listings| && KeywordAnalytics(listings[..i], o).Ok?
    ensures var entry := ListingAnalytic(listings[i], ListingAnalysis(listings[i], o));
      && (entry.Err? ==> KeywordAnalytics(listings[..i + 1], o) == Err(entry.error))
      && (entry.Ok? ==> KeywordAnalytics(listings[..i + 1], o) == Ok(KeywordAnalytics(listings[..i], o).value + [entry.value]))
  {
    assert listings[..i + 1][..i] == listings[..i];
    assert listings[..i + 1][i] == listings[i];
  }

  /** The body of the loop of `analyze_keyword` for one listing: `analyze_listing`, then the
      average cost over all pairs and the margin. */
  method AnalyzeEntry(listing: Record, o: Oracles) returns (r: Result<Option<Analytic>>)
    ensures r == ListingAnalytic(listing, ListingAnalysis(listing, o))
  {
    var result := AnalyzeListing(listing, o);
    if result.Err? {
      return Err(result.error);
    }
    if result.value.None? {
      return Ok(None);
    }
    var pairs := result.value.value;
    if |pairs| == 0 {
      return Err(ZeroDivisionError);
    }
    var averageCost := MatchedCostSum(pairs) / |pairs| as real;
    var margin := Margin(listing["price"], averageCost);
    if margin.Err? {
      return Err(margin.error);
    }
    return Ok(Some(Analytic(listing, averageCost, margin.value)));
  }

  /** `analyze_keyword`, with its loop. */
  method AnalyzeKeyword(searchResults: Result<Option<seq<Record>>>, o: Oracles) returns (r: Result<seq<Option<Analytic>>>)
    ensures r == KeywordAnalysis(searchResults, o)
  {
    if searchResults.Err? {
      return Err(searchResults.error);
    }
    if searchResults.value.None? {
      return Err(TypeError);
    }
    var listings := searchResults.value.value;
    var analytics: seq<Option<Analytic>> := [];
    var i := 0;
    while i < |listings|
      invariant 0 <= i <= |listings|
      invariant KeywordAnalytics(listings[..i], o) == Ok(analytics)
    {
      KeywordAnalyticsStep(listings, i, o);
      var entry := AnalyzeEntry(listings[i], o);
      if entry.Err? {
        KeywordAnalyticsErrPrefix(listings, i + 1, o);
        return Err(entry.error);
      }
      analytics := analytics + [entry.value];
      i := i + 1;
    }
    assert listings[..i] == listings;
    return Ok(analytics);
  }

  /** The matched-cost sum splits over a concatenation. */
  lemma {:induction false} MatchedCostSumAppend(a: seq<Pair>, b: seq<Pair>)
    ensures MatchedCostSum(a + b) == MatchedCostSum(a) + MatchedCostSum(b)
  {
    if a == [] {
      assert a + b == b;
    } else {
      assert (a + b)[0] == a[0];
      assert (a + b)[1..] == a[1..] + b;
      MatchedCostSumAppend(a[1..], b);
    }
  }

  /** Pairs with no true verdict contribute nothing: with no match at all the estimated cost is
      0.0, not undefined. */
  lemma {:induction false} MatchedCostSumNoMatch(ps: seq<Pair>)
    requires forall k :: 0 <= k < |ps| ==> ps[k].matched != Some(true)
    ensures MatchedCostSum(ps) == 0.0
  {
    if ps != [] {
      MatchedCostSumNoMatch(ps[1..]);
    }
  }

  lemma AverageCostNoMatch(ps: seq<Pair>)
    requires |ps| > 0
    requires forall k :: 0 <= k < |ps| ==> ps[k].matched != Some(true)
    ensures AverageCost(ps) == Ok(0.0)
  {
    MatchedCostSumNoMatch(ps);
  }

  /** Because the sum is divided by all pairs, adding a pair without a true verdict lowers the
      estimate by the factor n / (n + 1). */
  lemma AverageCostDilutes(ps: seq<Pair>, p: Pair)
    requires |ps| > 0 && p.matched != Some(true)
    ensures AverageCost(ps + [p]).Ok? && AverageCost(ps).Ok?
    ensures AverageCost(ps + [p]).value * (|ps| + 1) as real == AverageCost(ps).value * |ps| as real
  {
    MatchedCostSumAppend(ps, [p]);
    assert MatchedCostSum([p]) == 0.0 by {
      assert [p][1..] == [];
    }
    var n := |ps| as real;
    var s := MatchedCostSum(ps);
    assert AverageCost(ps + [p]).value == s / (n + 1.0);
    assert AverageCost(ps).value == s / n;
  }

  /** The margin as written agrees with the relative margin (price - cost) / price only at price 1. */
  lemma MarginPrecedence(price: real, cost: real)
    requires price != 0.0
    ensures Margin(Number(price), cost) == Ok(price - cost / price)
    ensures price - cost / price == (price - cost) / price <==> price == 1.0
  {
    var q := cost / price;
    var a := (price - cost) / price;
    assert q * price == cost;
    assert a * price == price - cost;
    var d := a - (1.0 - q);
    assert d * price == 0.0;
    assert d == (d * price) / price;
    assert a == 1.0 - q;
  }
}

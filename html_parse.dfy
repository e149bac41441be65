/** The catalog scraper: a parser object that is given an imprint code, fetches the
    catalog page for it, and collects the imprint labels, the generic names and
    one description dict per description list; the first name is the identity.

    The page is taken after HTML extraction: the h2 text of each header card (if
    it has one), the text of each name link, and the dt/dd texts of each dl, all
    already stripped. The fetch is the caller-supplied page (None when the request
    fails) and the summary step is the caller-supplied `summarize`, which in the
    pipeline is the identification path of FdaData. */
module HtmlParse {
  import opened Text
  import opened JsonValue
  import FdaData

  datatype HeaderCard = HeaderCard(h2: Option<string>)
  datatype DescList = DescList(dts: seq<string>, dds: seq<string>)
  datatype Page = Page(headerCards: seq<HeaderCard>, nameLinks: seq<string>, descLists: seq<DescList>)

  /** A Python dict of strings: keys in insertion order, each at most once. */
  type Dict = seq<(string, string)>

  predicate DistinctKeys(d: Dict)
  {
    forall i, j :: 0 <= i < j < |d| ==> d[i].0 != d[j].0
  }

  /** `d[key] = value`: an existing key keeps its place and takes the new value, a
      new key goes last. */
  function Put(d: Dict, key: string, value: string): (r: Dict)
    ensures |r| == |d| || |r| == |d| + 1
  {
    if d == [] then [(key, value)]
    else if d[0].0 == key then [(key, value)] + d[1..]
    else [d[0]] + Put(d[1..], key, value)
  }

  /** An existing key keeps its place: the first entry with that key takes the new
      value and nothing else moves. */
  lemma {:induction false} PutInPlace(d: Dict, key: string, value: string, i: nat)
    requires i < |d| && d[i].0 == key
    requires forall j :: 0 <= j < i ==> d[j].0 != key
    ensures Put(d, key, value) == d[i := (key, value)]
    decreases |d|
  {
    if i > 0 {
      PutInPlace(d[1..], key, value, i - 1);
      assert [d[0]] + d[1..][i - 1 := (key, value)] == d[i := (key, value)];
    } else {
      assert [(key, value)] + d[1..] == d[0 := (key, value)];
    }
  }

  /** A new key goes last. */
  lemma {:induction false} PutAppends(d: Dict, key: string, value: string)
    requires forall j :: 0 <= j < |d| ==> d[j].0 != key
    ensures Put(d, key, value) == d + [(key, value)]
    decreases |d|
  {
    if d != [] {
      PutAppends(d[1..], key, value);
      assert [d[0]] + (d[1..] + [(key, value)]) == d + [(key, value)];
    }
  }

  /** Every key of `Put(d, key, value)` is key or a key d already had. */
  lemma {:induction false} PutKeys(d: Dict, key: string, value: string)
    ensures forall i :: 0 <= i < |Put(d, key, value)| ==>
      Put(d, key, value)[i].0 == key || Get(d, Put(d, key, value)[i].0).Some?
    decreases |d|
  {
    if d != [] && d[0].0 != key {
      PutKeys(d[1..], key, value);
    }
  }

  /** After `d[key] = value`, key reads as value and every other key reads as before. */
  lemma {:induction false} PutLookup(d: Dict, key: string, value: string)
    ensures Get(Put(d, key, value), key) == Some(value)
    ensures forall k :: k != key ==> Get(Put(d, key, value), k) == Get(d, k)
    decreases |d|
  {
    if d != [] && d[0].0 != key {
      PutLookup(d[1..], key, value);
    } else if d != [] {
      assert Put(d, key, value)[1..] == d[1..];
    }
  }

  lemma PutLookupSame(d: Dict, key: string, value: string)
    ensures Get(Put(d, key, value), key) == Some(value)
  {
    PutLookup(d, key, value);
  }

  lemma PutLookupOther(d: Dict, key: string, value: string, k: string)
    requires k != key
    ensures Get(Put(d, key, value), k) == Get(d, k)
  {
    PutLookup(d, key, value);
  }

  /** Assignment keeps every key at most once. */
  lemma {:induction false} PutDistinct(d: Dict, key: string, value: string)
    requires DistinctKeys(d)
    ensures DistinctKeys(Put(d, key, value))
    decreases |d|
  {
    var r := Put(d, key, value);
    if d != [] && d[0].0 != key {
      PutDistinct(d[1..], key, value);
      PutKeys(d[1..], key, value);
      var tail := Put(d[1..], key, value);
      assert r == [d[0]] + tail;
      forall i | 0 < i < |r| ensures r[i].0 != d[0].0 {
        assert r[i] == tail[i - 1];
        if tail[i - 1].0 != key {
          var j :| 0 <= j < |d[1..]| && d[1..][j] == (tail[i - 1].0, Get(d[1..], tail[i - 1].0).value);
          assert d[j + 1].0 == tail[i - 1].0;
        }
      }
    } else if d != [] {
      forall i | 0 < i < |r| ensures r[i].0 != key {
        assert r[i] == d[i];
      }
    }
  }

  /** `zip(a, b)`: pairs by index, as many as the shorter list has. */
  function Zip<A, B>(a: seq<A>, b: seq<B>): (r: seq<(A, B)>)
    ensures |r| == if |a| < |b| then |a| else |b|
    ensures forall i :: 0 <= i < |r| ==> r[i] == (a[i], b[i])
  {
    if a == [] || b == [] then [] else [(a[0], b[0])] + Zip(a[1..], b[1..])
  }

  /** The dict built by assigning each pair in turn. */
  function DictOf(pairs: seq<(string, string)>): (r: Dict)
    ensures |r| <= |pairs|
    decreases |pairs|
  {
    if pairs == [] then []
    else Put(DictOf(pairs[..|pairs| - 1]), pairs[|pairs| - 1].0, pairs[|pairs| - 1].1)
  }

  lemma {:induction false} DictOfDistinct(pairs: seq<(string, string)>)
    ensures DistinctKeys(DictOf(pairs))
    decreases |pairs|
  {
    if pairs != [] {
      var n := |pairs| - 1;
      DictOfDistinct(pairs[..n]);
      PutDistinct(DictOf(pairs[..n]), pairs[n].0, pairs[n].1);
    }
  }

  /** A key is in the dict iff some pair has it. */
  lemma {:induction false} DictOfDomain(pairs: seq<(string, string)>, k: string)
    ensures Get(DictOf(pairs), k).None? <==> forall i :: 0 <= i < |pairs| ==> pairs[i].0 != k
    decreases |pairs|
  {
    if pairs != [] {
      var n := |pairs| - 1;
      var init := pairs[..n];
      DictOfDomain(init, k);
      PutLookup(DictOf(init), pairs[n].0, pairs[n].1);
      if k != pairs[n].0 {
        assert Get(DictOf(pairs), k) == Get(DictOf(init), k);
        forall i | 0 <= i < n ensures init[i] == pairs[i] { }
      }
    }
  }

  /** A key maps to the value of the LAST pair that has it: later duplicates overwrite. */
  lemma {:induction false} DictOfLast(pairs: seq<(string, string)>, i: nat)
    requires i < |pairs|
    requires forall j :: i < j < |pairs| ==> pairs[j].0 != pairs[i].0
    ensures Get(DictOf(pairs), pairs[i].0) == Some(pairs[i].1)
    decreases |pairs|
  {
    var n := |pairs| - 1;
    var init := pairs[..n];
    assert DictOf(pairs) == Put(DictOf(init), pairs[n].0, pairs[n].1);
    if i < n {
      LastInInit(pairs, i);
      DictOfLast(init, i);
      PutLookupOther(DictOf(init), pairs[n].0, pairs[n].1, pairs[i].0);
    } else {
      PutLookupSame(DictOf(init), pairs[n].0, pairs[n].1);
    }
  }

  /** Dropping the final pair keeps pair i, and keeps it the last with its key. */
  lemma LastInInit(pairs: seq<(string, string)>, i: nat)
    requires i < |pairs| - 1
    requires forall j :: i < j < |pairs| ==> pairs[j].0 != pairs[i].0
    ensures var init := pairs[..|pairs| - 1];
      init[i] == pairs[i] && forall j :: i < j < |init| ==> init[j].0 != init[i].0
  {
  }

  /** The description dict of one dl: the dt/dd texts paired with zip. */
  function Description(dl: DescList): (r: Dict)
    ensures DistinctKeys(r)
    ensures |r| <= |dl.dts| && |r| <= |dl.dds|
  {
    DictOfDistinct(Zip(dl.dts, dl.dds));
    DictOf(Zip(dl.dts, dl.dds))
  }

  /** One dict per dl, in page order. */
  function Descriptions(dls: seq<DescList>): (r: seq<Dict>)
    ensures |r| == |dls|
    ensures forall i :: 0 <= i < |dls| ==> r[i] == Description(dls[i])
    decreases |dls|
  {
    if dls == [] then [] else Descriptions(dls[..|dls| - 1]) + [Description(dls[|dls| - 1])]
  }

  /** The h2 text of the header cards that have an h2, in page order. */
  function HeaderTexts(cards: seq<HeaderCard>): (r: seq<string>)
    ensures |r| <= |cards|
    decreases |cards|
  {
    if cards == [] then []
    else if cards[0].h2.Some? then [cards[0].h2.value] + HeaderTexts(cards[1..])
    else HeaderTexts(cards[1..])
  }

  /** Filtering distributes over concatenation: the page order is kept. */
  lemma {:induction false} HeaderTextsAppend(a: seq<HeaderCard>, b: seq<HeaderCard>)
    ensures HeaderTexts(a + b) == HeaderTexts(a) + HeaderTexts(b)
    decreases |a|
  {
    if a != [] {
      assert (a + b)[0] == a[0];
      assert (a + b)[1..] == a[1..] + b;
      HeaderTextsAppend(a[1..], b);
    } else {
      assert a + b == b;
    }
  }

  /** A text is collected iff some card carries it as its h2. */
  lemma {:induction false} HeaderTextsMembership(cards: seq<HeaderCard>, t: string)
    ensures t in HeaderTexts(cards) <==> exists i :: 0 <= i < |cards| && cards[i].h2 == Some(t)
    decreases |cards|
  {
    if cards != [] {
      HeaderTextsMembership(cards[1..], t);
      if t !in HeaderTexts(cards) {
        if cards[0].h2 == Some(t) {
          assert false;
        }
        forall i | 1 <= i < |cards| ensures cards[i].h2 != Some(t) {
          assert cards[1..][i - 1] == cards[i];
        }
      } else if cards[0].h2 != Some(t) {
        var i :| 0 <= i < |cards[1..]| && cards[1..][i].h2 == Some(t);
        assert cards[i + 1].h2 == Some(t);
      }
    }
  }

  /** Cards without an h2 contribute nothing. */
  lemma {:induction false} HeaderTextsCount(cards: seq<HeaderCard>)
    ensures (forall i :: 0 <= i < |cards| ==> cards[i].h2.None?) <==> HeaderTexts(cards) == []
    decreases |cards|
  {
    if cards != [] {
      HeaderTextsCount(cards[1..]);
      if forall i :: 0 <= i < |cards| ==> cards[i].h2.None? {
        assert forall i :: 0 <= i < |cards[1..]| ==> cards[1..][i].h2.None? by {
          forall i | 0 <= i < |cards[1..]| ensures cards[1..][i].h2.None? {
            assert cards[1..][i] == cards[i + 1];
          }
        }
      } else if cards[0].h2.None? {
        var i :| 0 <= i < |cards| && cards[i].h2.Some?;
        assert cards[1..][i - 1] == cards[i];
      }
    }
  }

  /** The three lists paired by index: what `print_results` prints, record by record. */
  function Zip3<A, B, C>(a: seq<A>, b: seq<B>, c: seq<C>): (r: seq<(A, B, C)>)
    ensures |r| == Min3(|a|, |b|, |c|)
    ensures forall i :: 0 <= i < |r| ==> r[i] == (a[i], b[i], c[i])
    decreases |a|
  {
    if a == [] || b == [] || c == [] then [] else [(a[0], b[0], c[0])] + Zip3(a[1..], b[1..], c[1..])
  }

  function Min3(a: nat, b: nat, c: nat): nat
  {
    if a <= b && a <= c then a else if b <= c then b else c
  }

  /** What a call of `parse_content` ended with. */
  datatype ParseOutcome =
    | NotLoaded       // no page: returns early
    | NoNames         // IndexError at `self.pill_names[0]`
    | SummaryFailed   // the summary step raised
    | Parsed

  /** How the summary step ends `parse_content`: a raised summary propagates. */
  function SummaryOutcome(summary: FdaData.Summary): (r: ParseOutcome)
    ensures r == SummaryFailed <==> summary.SummaryRaised?
    ensures r != SummaryFailed ==> r == Parsed
  {
    if summary.SummaryRaised? then SummaryFailed else Parsed
  }

  /** `self.output_summary = generic_fetch_summary(...)`: the explanation, None when
      the summary step returned None, unchanged when it raised. */
  function SummaryField(summary: FdaData.Summary, previous: Option<string>): (r: Option<string>)
    ensures summary.Explained? ==> r == Some(summary.text)
    ensures summary.NoSummary? ==> r.None?
    ensures summary.SummaryRaised? ==> r == previous
  {
    match summary
    case Explained(text) => Some(text)
    case NoSummary => None
    case SummaryRaised => previous
  }

  class HtmlParser {
    var imprintCode: string
    var url: string
    var soup: Option<Page>
    var imprints: seq<string>
    var pillNames: seq<string>
    var pillDescriptions: seq<Dict>
    var outputImprint: Option<string>
    var outputName: Option<string>
    var outputSummary: Option<string>

    constructor (imprint: string)
      ensures imprintCode == imprint
      ensures url == "https://www.drugs.com/imprints.php?imprint=" + imprint + "&color=&shape=0"
      ensures soup.None? && imprints == [] && pillNames == [] && pillDescriptions == []
      ensures outputImprint.None? && outputName.None? && outputSummary.None?
    {
      imprintCode := imprint;
      url := "https://www.drugs.com/imprints.php?imprint=" + imprint + "&color=&shape=0";
      soup := None;
      imprints := [];
      pillNames := [];
      pillDescriptions := [];
      outputImprint := None;
      outputName := None;
      outputSummary := None;
    }

    /** `_fetch_html`: a page that arrives replaces the soup; a failed request leaves
        the soup of any earlier fetch in place. */
    method FetchHtml(page: Option<Page>) returns (ok: bool)
      modifies this`soup
      ensures ok == page.Some?
      ensures soup == if ok then page else old(soup)
    {
      if page.Some? {
        soup := page;
        return true;
      }
      return false;
    }

    /** The inner loop of `parse_content` over one dl. */
    static method BuildDescription(dl: DescList) returns (items: Dict)
      ensures items == Description(dl)
      ensures DistinctKeys(items)
    {
      var pairs := Zip(dl.dts, dl.dds);
      items := [];
      var i := 0;
      while i < |pairs|
        invariant 0 <= i <= |pairs|
        invariant items == DictOf(pairs[..i])
      {
        assert pairs[..i + 1][..i] == pairs[..i];
        items := Put(items, pairs[i].0, pairs[i].1);
        i := i + 1;
      }
      assert pairs[..i] == pairs;
    }

    /** The loop of `parse_content` over the dl elements: one dict appended per dl. */
    method AppendDescriptions(dls: seq<DescList>)
      modifies this`pillDescriptions
      ensures pillDescriptions == old(pillDescriptions) + Descriptions(dls)
    {
      var i := 0;
      while i < |dls|
        invariant 0 <= i <= |dls|
        invariant pillDescriptions == old(pillDescriptions) + Descriptions(dls[..i])
      {
        assert dls[..i + 1][..i] == dls[..i];
        var items := BuildDescription(dls[i]);
        pillDescriptions := pillDescriptions + [items];
        i := i + 1;
      }
      assert dls[..i] == dls;
    }

    /** `parse_content`. */
    method ParseContent(page: Option<Page>, summarize: (string, string) -> FdaData.Summary)
      returns (outcome: ParseOutcome)
      modifies this
      ensures soup == if page.Some? then page else old(soup)
      ensures imprintCode == old(imprintCode) && url == old(url)
      ensures soup.None? ==>
        outcome == NotLoaded &&
        imprints == old(imprints) && pillNames == old(pillNames) &&
        pillDescriptions == old(pillDescriptions) &&
        outputImprint == old(outputImprint) && outputName == old(outputName) &&
        outputSummary == old(outputSummary)
      ensures soup.Some? ==>
        imprints == HeaderTexts(soup.value.headerCards) &&
        pillNames == soup.value.nameLinks &&
        pillDescriptions == old(pillDescriptions) + Descriptions(soup.value.descLists)
      ensures soup.Some? && pillNames == [] ==>
        outcome == NoNames &&
        outputImprint == old(outputImprint) && outputName == old(outputName) &&
        outputSummary == old(outputSummary)
      ensures soup.Some? && pillNames != [] ==>
        outputImprint == Some(imprintCode) && outputName == Some(pillNames[0]) &&
        outcome == SummaryOutcome(summarize(imprintCode, pillNames[0])) &&
        outputSummary == SummaryField(summarize(imprintCode, pillNames[0]), old(outputSummary))
    {
      var _ := FetchHtml(page);
      if soup.None? {
        return NotLoaded;
      }
      ParsePage(soup.value);
      if pillNames == [] {
        return NoNames;
      }
      outcome := RecordIdentity(summarize);
    }

    /** The collecting part of `parse_content`: the header texts and the names
        replace the old lists, one description dict per dl is appended. */
    method ParsePage(p: Page)
      modifies this`imprints, this`pillNames, this`pillDescriptions
      ensures imprints == HeaderTexts(p.headerCards) && pillNames == p.nameLinks
      ensures pillDescriptions == old(pillDescriptions) + Descriptions(p.descLists)
    {
      imprints := HeaderTexts(p.headerCards);
      pillNames := p.nameLinks;
      AppendDescriptions(p.descLists);
    }

    /** The end of `parse_content`: the first name is the identity, and the summary
        of the imprint code and that name is stored, or raises. */
    method RecordIdentity(summarize: (string, string) -> FdaData.Summary) returns (outcome: ParseOutcome)
      requires pillNames != []
      modifies this`outputImprint, this`outputName, this`outputSummary
      ensures outputImprint == Some(imprintCode) && outputName == Some(pillNames[0])
      ensures outcome == SummaryOutcome(summarize(imprintCode, pillNames[0]))
      ensures outputSummary == SummaryField(summarize(imprintCode, pillNames[0]), old(outputSummary))
    {
      outputImprint := Some(imprintCode);
      outputName := Some(pillNames[0]);
      var summary := summarize(imprintCode, pillNames[0]);
      outputSummary := SummaryField(summary, outputSummary);
      outcome := SummaryOutcome(summary);
    }

    /** The records `print_results` prints: imprint, name and description paired by
        index, as many as the shortest of the three lists. */
    function Results(): (r: seq<(string, string, Dict)>)
      reads this
      ensures |r| == Min3(|imprints|, |pillNames|, |pillDescriptions|)
      ensures forall i :: 0 <= i < |r| ==> r[i] == (imprints[i], pillNames[i], pillDescriptions[i])
    {
      Zip3(imprints, pillNames, pillDescriptions)
    }
  }
}

/**
  Finding the words of a page that spell a figure, and the rectangle they fill.
 */
module ValueLocator {

  import opened Strings
  import opened Wrappers

  datatype Word = Word(text: string, x0: real, top: real, x1: real, bottom: real)

  datatype Box = Box(x0: real, y0: real, x1: real, y1: real)

  const MAX_WORDS_PER_PAGE := 6000
  const MAX_WORDS_PER_VALUE := 6

  // --------------------------------------------------------------- normalising

  function NormalChar(c: char): string {
    if IsSpace(c) then "" else if c == '\U{2212}' then "-" else [c]
  }

  /** Blanks go, and the minus sign becomes a hyphen. */
  function Normalise(text: string): string {
    if text == "" then ""
    else
      Normalise(text[..|text| - 1]) + NormalChar(text[|text| - 1])
  }

  predicate IsNormal(c: char) {
    !IsSpace(c) && c != '\U{2212}'
  }

  lemma NormalCharIsNormal(c: char)
    ensures forall d :: d in NormalChar(c) ==> IsNormal(d)
  {
  }

  /** Nothing is left to normalise. */
  lemma {:induction false} NormaliseIsNormal(text: string)
    ensures forall c :: c in Normalise(text) ==> IsNormal(c)
  {
    if text != "" {
      NormaliseIsNormal(text[..|text| - 1]);
      NormalCharIsNormal(text[|text| - 1]);
    }
  }

  lemma NormalCharStays(c: char)
    requires IsNormal(c)
    ensures NormalChar(c) == [c]
  {
  }

  /** A text already normal stays as it is, so normalising twice is normalising once. */
  lemma {:induction false} NormalStays(text: string)
    requires forall i :: 0 <= i < |text| ==> IsNormal(text[i])
    ensures Normalise(text) == text
  {
    if text != "" {
      var init, last := text[..|text| - 1], text[|text| - 1];
      assert Normalise(text) == Normalise(init) + NormalChar(last) by { LastApart(text); }
      NormalCharStays(last);
      NormalStays(init);
      calc {
        Normalise(text);
        Normalise(init) + NormalChar(last);
        init + [last];
        text;
      }
    }
  }

  lemma LastApart(text: string)
    requires text != ""
    ensures Normalise(text) == Normalise(text[..|text| - 1]) + NormalChar(text[|text| - 1])
  {
  }

  lemma NormaliseLast(a: string, c: char)
    ensures Normalise(a + [c]) == Normalise(a) + NormalChar(c)
  {
    assert (a + [c])[..|a|] == a;
  }

  lemma Associative(a: string, b: string, c: string)
    ensures a + b + c == a + (b + c)
  {
  }

  lemma {:induction false} NormaliseConcat(a: string, b: string)
    ensures Normalise(a + b) == Normalise(a) + Normalise(b)
  {
    if b == "" {
      assert a + b == a;
    } else {
      var init, last := b[..|b| - 1], b[|b| - 1];
      var tail := NormalChar(last);
      assert Normalise(a + b) == Normalise(a + init) + tail by {
        assert b == init + [last];
        assert a + b == (a + init) + [last];
        NormaliseLast(a + init, last);
      }
      assert Normalise(b) == Normalise(init) + tail;
      NormaliseConcat(a, init);
      Associative(Normalise(a), Normalise(init), tail);
    }
  }

  /** Normalising goes character by character: a blank vanishes, the minus sign is a hyphen, all others stay. */
  lemma NormaliseExactly(a: string, b: string, c: char)
    ensures Normalise(a + b) == Normalise(a) + Normalise(b)
    ensures Normalise([c]) == if IsSpace(c) then "" else if c == '\U{2212}' then "-" else [c]
  {
    NormaliseConcat(a, b);
    assert [c][..0] == "";
  }

  // -------------------------------------------------------------------- boxes

  function Least(x: real, y: real): real {
    if y < x then y else x
  }

  function Greatest(x: real, y: real): real {
    if y > x then y else x
  }

  function UnionBox(words: seq<Word>): Box
    requires words != []
  {
    var last := words[|words| - 1];
    if |words| == 1 then Box(last.x0, last.top, last.x1, last.bottom)
    else
      var b := UnionBox(words[..|words| - 1]);
      Box(Least(b.x0, last.x0), Least(b.y0, last.top), Greatest(b.x1, last.x1), Greatest(b.y1, last.bottom))
  }

  predicate Holds(b: Box, w: Word) {
    b.x0 <= w.x0 && b.y0 <= w.top && w.x1 <= b.x1 && w.bottom <= b.y1
  }

  predicate Inside(inner: Box, outer: Box) {
    outer.x0 <= inner.x0 && outer.y0 <= inner.y0 && inner.x1 <= outer.x1 && inner.y1 <= outer.y1
  }

  /** The union is the least rectangle that holds every word of the run. */
  lemma {:induction false} UnionIsLeast(words: seq<Word>, other: Box)
    requires words != []
    ensures forall i :: 0 <= i < |words| ==> Holds(UnionBox(words), words[i])
    ensures Inside(UnionBox(words), other) <==> forall i :: 0 <= i < |words| ==> Holds(other, words[i])
  {
    var init, last := words[..|words| - 1], words[|words| - 1];
    if init != [] {
      UnionIsLeast(init, other);
      assert forall i :: 0 <= i < |init| ==> words[i] == init[i];
      assert Inside(UnionBox(words), other) <==> Inside(UnionBox(init), other) && Holds(other, last);
    }
  }

  // --------------------------------------------------------------------- runs

  function Texts(words: seq<Word>): (texts: seq<string>)
    ensures |texts| == |words|
    ensures forall i :: 0 <= i < |words| ==> texts[i] == Normalise(words[i].text)
  {
    seq(|words|, i requires 0 <= i < |words| => Normalise(words[i].text))
  }

  /** What n texts from i on spell. */
  function Joined(texts: seq<string>, i: nat, n: nat): string
    requires i + n <= |texts|
  {
    if n == 0 then "" else Joined(texts, i, n - 1) + texts[i + n - 1]
  }

  /** The raw texts of n words from i on, one after another. */
  function Concatenated(words: seq<Word>, i: nat, n: nat): string
    requires i + n <= |words|
  {
    if n == 0 then "" else Concatenated(words, i, n - 1) + words[i + n - 1].text
  }

  lemma {:induction false} JoinedNormalised(words: seq<Word>, normalise: string -> string, texts: seq<string>, i: nat, n: nat)
    requires i + n <= |words| && |texts| == |words| && normalise("") == ""
    requires forall k :: 0 <= k < |words| ==> texts[k] == normalise(words[k].text)
    requires forall a: string, b: string :: normalise(a + b) == normalise(a) + normalise(b)
    ensures Joined(texts, i, n) == normalise(Concatenated(words, i, n))
  {
    if n > 0 {
      JoinedNormalised(words, normalise, texts, i, n - 1);
    }
  }

  /** How the extractor splits a figure into words makes no difference to what a run spells. */
  lemma SplittingMakesNoDifference(words: seq<Word>, i: nat, n: nat)
    requires i + n <= |words|
    ensures Joined(Texts(words), i, n) == Normalise(Concatenated(words, i, n))
  {
    forall a, b ensures Normalise(a + b) == Normalise(a) + Normalise(b) {
      NormaliseConcat(a, b);
    }
    JoinedNormalised(words, Normalise, Texts(words), i, n);
  }

  predicate Spells(texts: seq<string>, target: string, i: nat, n: nat) {
    1 <= n <= MAX_WORDS_PER_VALUE && i + n <= |texts| && Joined(texts, i, n) == target
  }

  /** The shortest run at i of at least n words. */
  function ShortestFrom(texts: seq<string>, target: string, i: nat, n: nat): Option<nat>
    requires n >= 1
    decreases MAX_WORDS_PER_VALUE + 1 - n
  {
    if n > MAX_WORDS_PER_VALUE || i + n > |texts| then None
    else if Joined(texts, i, n) == target then Some(n)
    else ShortestFrom(texts, target, i, n + 1)
  }

  datatype Span = Span(start: nat, length: nat)

  function LeftmostFrom(texts: seq<string>, target: string, i: nat): Option<Span>
    decreases |texts| - i
  {
    if i >= |texts| then None
    else
      var n := ShortestFrom(texts, target, i, 1);
      if n.Some? then Some(Span(i, n.value)) else LeftmostFrom(texts, target, i + 1)
  }

  lemma {:induction false} ShortestExactly(texts: seq<string>, target: string, i: nat, n: nat)
    requires n >= 1
    ensures var r := ShortestFrom(texts, target, i, n);
            && (r.Some? ==> r.value >= n && Spells(texts, target, i, r.value)
                            && forall m: nat :: n <= m < r.value ==> !Spells(texts, target, i, m))
            && (r.None? ==> forall m: nat :: n <= m ==> !Spells(texts, target, i, m))
    decreases MAX_WORDS_PER_VALUE + 1 - n
  {
    if n <= MAX_WORDS_PER_VALUE && i + n <= |texts| && Joined(texts, i, n) != target {
      assert !Spells(texts, target, i, n);
      ShortestExactly(texts, target, i, n + 1);
    }
  }

  /** The run that comes first, and is shortest among those that start there. */
  predicate First(texts: seq<string>, target: string, run: Span) {
    && Spells(texts, target, run.start, run.length)
    && (forall m: nat :: m < run.length ==> !Spells(texts, target, run.start, m))
    && (forall j: nat, m: nat :: j < run.start && m <= MAX_WORDS_PER_VALUE ==> !Spells(texts, target, j, m))
  }

  lemma {:induction false} LeftmostExactly(texts: seq<string>, target: string, i: nat)
    requires forall j: nat, m: nat :: j < i ==> !Spells(texts, target, j, m)
    ensures var r := LeftmostFrom(texts, target, i);
            && (r.Some? ==> First(texts, target, r.value))
            && (r.None? ==> forall j: nat, m: nat :: !Spells(texts, target, j, m))
    decreases |texts| - i
  {
    if i < |texts| {
      ShortestExactly(texts, target, i, 1);
      if ShortestFrom(texts, target, i, 1).None? {
        LeftmostExactly(texts, target, i + 1);
      }
    }
  }

  function BoxOfRun(words: seq<Word>, run: Span): Option<Box> {
    if run.length >= 1 && run.start + run.length <= |words|
    then Some(UnionBox(words[run.start..run.start + run.length]))
    else None
  }

  /** The run the answer is taken from. */
  function RunFound(words: seq<Word>, value: string): Option<Span> {
    LeftmostFrom(Texts(words), Normalise(value), 0)
  }

  /** The box of the run found, if any. */
  function Located(words: seq<Word>, value: string): Option<Box> {
    var run := RunFound(words, value);
    if Normalise(value) == "" || run.None? then None else BoxOfRun(words, run.value)
  }

  /**
    A box is returned exactly when some run of at most six words spells the value; it
    is that of the leftmost such run, the shortest at its start.
   */
  lemma LocatedExactly(words: seq<Word>, value: string)
    ensures Located(words, value).Some? <==>
              Normalise(value) != "" && exists i: nat, n: nat :: Spells(Texts(words), Normalise(value), i, n)
    ensures Located(words, value).Some? ==>
              exists run :: First(Texts(words), Normalise(value), run) && Located(words, value) == BoxOfRun(words, run)
  {
    var texts, target := Texts(words), Normalise(value);
    LeftmostExactly(texts, target, 0);
    var r := LeftmostFrom(texts, target, 0);
    if target != "" && r.Some? {
      assert Spells(texts, target, r.value.start, r.value.length);
      assert First(texts, target, r.value) && Located(words, value) == BoxOfRun(words, r.value);
    }
  }

  ghost predicate NoRunShorter(words: seq<Word>, value: string, run: Span) {
    forall j: nat, m: nat :: Spells(Texts(words), Normalise(value), j, m) ==> run.length <= m
  }

  /** A shorter run that the search passes over, since an earlier one is found first. */
  ghost predicate PassedOver(words: seq<Word>, value: string, run: Span, j: nat, m: nat) {
    Spells(Texts(words), Normalise(value), j, m) && j > run.start && m < run.length
  }

  /** The run found is a shortest one exactly when no shorter run starts to the right of it. */
  lemma ShortestUnlessPassedOver(words: seq<Word>, value: string)
    requires RunFound(words, value).Some?
    ensures NoRunShorter(words, value, RunFound(words, value).value) <==>
              !(exists j: nat, m: nat :: PassedOver(words, value, RunFound(words, value).value, j, m))
  {
    var texts, target, run := Texts(words), Normalise(value), RunFound(words, value).value;
    LeftmostExactly(texts, target, 0);
    forall j: nat, m: nat | Spells(texts, target, j, m) && m < run.length
      ensures PassedOver(words, value, run, j, m)
    {
      assert j >= run.start;
      assert j != run.start;
    }
  }

  lemma TwoOfThree(texts: seq<string>, target: string, run: Span)
    requires texts == ["1", "2", "12"] && target == "12" && run == Span(0, 2)
    ensures LeftmostFrom(texts, target, 0) == Some(run) && Spells(texts, target, 2, 1)
  {
    assert Joined(texts, 0, 0) == "" && Joined(texts, 0, 1) == "1" && Joined(texts, 0, 2) == "12";
    assert Joined(texts, 2, 0) == "" && Joined(texts, 2, 1) == "12";
    assert ShortestFrom(texts, target, 0, 2) == Some(2);
  }

  lemma NormalDigits(text: string)
    requires text == "1" || text == "2" || text == "12"
    ensures Normalise(text) == text
  {
    NormalStays(text);
  }

  /** Leftmost is not shortest: two words are taken where a single one further on spells the value. */
  lemma ShorterRunFurtherOn(words: seq<Word>, value: string, run: Span)
    requires |words| == 3 && words[0].text == "1" && words[1].text == "2" && words[2].text == value == "12"
    requires run == Span(0, 2)
    ensures Located(words, value) == BoxOfRun(words, run)
    ensures RunFound(words, value) == Some(run) && PassedOver(words, value, run, 2, 1)
  {
    var texts, target := Texts(words), Normalise(value);
    assert target == "12" by { NormalDigits(value); }
    assert texts[0] == "1" by { NormalDigits(words[0].text); }
    assert texts[1] == "2" by { NormalDigits(words[1].text); }
    TwoOfThree(texts, target, run);
  }

  // ------------------------------------------------------------- the nested loops

  lemma {:induction false} LongerStartsWithShorter(texts: seq<string>, i: nat, n: nat, m: nat)
    requires n <= m && i + m <= |texts|
    ensures Joined(texts, i, n) <= Joined(texts, i, m)
  {
    if n < m {
      LongerStartsWithShorter(texts, i, n, m - 1);
    }
  }

  /** Once the joined text is not the beginning of the target, no longer run at this start spells it. */
  lemma StartIsHopeless(texts: seq<string>, target: string, i: nat, n: nat)
    requires n >= 1 && i + n <= |texts| && !(Joined(texts, i, n) <= target)
    ensures ShortestFrom(texts, target, i, n) == None
  {
    ShortestExactly(texts, target, i, n);
    var r := ShortestFrom(texts, target, i, n);
    if r.Some? {
      LongerStartsWithShorter(texts, i, n, r.value);
    }
  }

  /** What a start comes to once n words are joined: a match, no hope, or a longer run. */
  lemma AfterJoining(texts: seq<string>, target: string, i: nat, n: nat, joined: string)
    requires 1 <= n <= MAX_WORDS_PER_VALUE && i + n <= |texts| && joined == Joined(texts, i, n - 1) + texts[i + n - 1]
    ensures joined == Joined(texts, i, n)
    ensures joined == target ==> ShortestFrom(texts, target, i, n) == Some(n)
    ensures joined != target ==> ShortestFrom(texts, target, i, n) == ShortestFrom(texts, target, i, n + 1)
    ensures !(joined <= target) ==> ShortestFrom(texts, target, i, n) == None
  {
    if !(joined <= target) {
      StartIsHopeless(texts, target, i, n);
    }
  }

  method RunAt(words: seq<Word>, normalise: string -> string, target: string, start: nat, ghost texts: seq<string>)
    returns (length: Option<nat>)
    requires start < |words| && |texts| == |words|
    requires forall i :: 0 <= i < |words| ==> texts[i] == normalise(words[i].text)
    ensures length == ShortestFrom(texts, target, start, 1)
  {
    var joined := "";
    for n := 1 to MAX_WORDS_PER_VALUE + 1
      invariant start + n - 1 <= |words| && joined == Joined(texts, start, n - 1)
      invariant ShortestFrom(texts, target, start, n) == ShortestFrom(texts, target, start, 1)
    {
      var index := start + n - 1;
      if index >= |words| {
        return None;
      }
      joined := joined + normalise(words[index].text);
      AfterJoining(texts, target, start, n, joined);
      if joined == target {
        return Some(n);
      }
      if !(joined <= target) {
        return None;
      }
    }
    return None;
  }

  method LocateInWords(words: seq<Word>, value: string) returns (box: Option<Box>)
    ensures box == Located(words, value)
  {
    var target := Normalise(value);
    if target == "" {
      return None;
    }
    for start := 0 to |words|
      invariant LeftmostFrom(Texts(words), target, start) == LeftmostFrom(Texts(words), target, 0)
    {
      var length := RunAt(words, Normalise, target, start, Texts(words));
      if length.Some? {
        return BoxOfRun(words, Span(start, length.value));
      }
    }
    return None;
  }

  // ------------------------------------------------------------- the page cache

  /** What extraction gives for a page, an exception included. */
  datatype PageWords = Extracted(words: seq<Word>) | ExtractionFailed

  datatype Document = Readable(pages: seq<PageWords>) | Unreadable

  predicate OutOfRange(doc: Document, page: int) {
    doc.Readable? && !(1 <= page <= |doc.pages|)
  }

  /** A page's words as a fresh locator sees them. */
  function FreshWords(doc: Document, page: int): seq<Word> {
    if doc.Unreadable? || OutOfRange(doc, page) || doc.pages[page - 1].ExtractionFailed? then []
    else
      var words := doc.pages[page - 1].words;
      if |words| > MAX_WORDS_PER_PAGE then [] else words
  }

  datatype Query = Query(page: Option<int>, value: string)

  /** What a fresh locator answers. */
  function FreshAnswer(doc: Document, q: Query): Option<Box> {
    if q.page.None? || q.page.value == 0 || q.value == "" then None
    else Located(FreshWords(doc, q.page.value), q.value)
  }

  /** The words of a page that exists, was extracted and is not too full. */
  predicate WordsOf(doc: Document, page: Option<int>, words: seq<Word>) {
    && doc.Readable? && page.Some? && 1 <= page.value <= |doc.pages|
    && doc.pages[page.value - 1] == Extracted(words) && |words| <= 6000
  }

  /** At most six words in a row whose texts together are the value, blanks aside. */
  predicate Reads(words: seq<Word>, value: string, i: nat, n: nat) {
    1 <= n <= 6 && i + n <= |words| && Normalise(Concatenated(words, i, n)) == Normalise(value)
  }

  lemma ReadsIsSpells(words: seq<Word>, value: string, i: nat, n: nat)
    ensures Reads(words, value, i, n) <==> Spells(Texts(words), Normalise(value), i, n)
  {
    if i + n <= |words| {
      SplittingMakesNoDifference(words, i, n);
    }
  }

  /** The least rectangle that holds the words of a run. */
  ghost predicate Frames(box: Box, words: seq<Word>, i: nat, n: nat)
    requires i + n <= |words|
  {
    && (forall k :: i <= k < i + n ==> Holds(box, words[k]))
    && forall other :: (forall k :: i <= k < i + n ==> Holds(other, words[k])) ==> Inside(box, other)
  }

  lemma BoxFrames(words: seq<Word>, run: Span)
    requires run.length >= 1 && run.start + run.length <= |words|
    ensures BoxOfRun(words, run).Some? && Frames(BoxOfRun(words, run).value, words, run.start, run.length)
  {
    var part := words[run.start..run.start + run.length];
    var box := UnionBox(part);
    assert forall k :: run.start <= k < run.start + run.length ==> words[k] == part[k - run.start];
    UnionIsLeast(part, box);
    forall other | forall k :: run.start <= k < run.start + run.length ==> Holds(other, words[k])
      ensures Inside(box, other)
    {
      UnionIsLeast(part, other);
    }
  }

  /** The run is the leftmost that reads the value, and the shortest there. */
  ghost predicate Leftmost(words: seq<Word>, value: string, i: nat, n: nat) {
    && Reads(words, value, i, n)
    && forall j: nat, m: nat :: Reads(words, value, j, m) ==> j > i || (j == i && m >= n)
  }

  /**
    A figure is located exactly when the page is there and not too full and some run of
    at most six of its words reads the figure; the box then is the least rectangle around
    the leftmost such run.
   */
  lemma AnswerExactly(doc: Document, q: Query, words: seq<Word>) returns (i: nat, n: nat)
    requires WordsOf(doc, q.page, words)
    ensures FreshAnswer(doc, q).Some? <==>
              q.value != "" && Normalise(q.value) != "" && exists j: nat, m: nat :: Reads(words, q.value, j, m)
    ensures FreshAnswer(doc, q).Some? ==>
              Leftmost(words, q.value, i, n) && Frames(FreshAnswer(doc, q).value, words, i, n)
  {
    i, n := LocatedReads(words, q.value);
    assert FreshAnswer(doc, q) == if q.value == "" then None else Located(words, q.value);
  }

  /** On any other page nothing is located. */
  lemma NothingElsewhere(doc: Document, q: Query)
    requires FreshAnswer(doc, q).Some?
    ensures exists words :: WordsOf(doc, q.page, words)
  {
    NoWordsNoBox(q.value);
    assert WordsOf(doc, q.page, FreshWords(doc, q.page.value));
  }

  lemma NoWordsNoBox(value: string)
    ensures Located([], value) == None
  {
  }

  lemma LocatedReads(words: seq<Word>, value: string) returns (i: nat, n: nat)
    ensures Located(words, value).Some? <==> Normalise(value) != "" && exists j: nat, m: nat :: Reads(words, value, j, m)
    ensures Located(words, value).Some? ==>
              Leftmost(words, value, i, n) && Frames(Located(words, value).value, words, i, n)
  {
    i, n := 0, 0;
    LocatedExactly(words, value);
    forall j: nat, m: nat ensures Reads(words, value, j, m) <==> Spells(Texts(words), Normalise(value), j, m) {
      ReadsIsSpells(words, value, j, m);
    }
    if Located(words, value).Some? {
      var run :| First(Texts(words), Normalise(value), run) && Located(words, value) == BoxOfRun(words, run);
      i, n := run.start, run.length;
      ReadsIsSpells(words, value, i, n);
      BoxFrames(words, run);
    }
  }

  datatype Cache = Cache(page: Option<int>, words: seq<Word>)

  predicate Faithful(doc: Document, cache: Cache) {
    cache.page.Some? ==> cache.words == FreshWords(doc, cache.page.value)
  }

  function Answer(doc: Document, cache: Cache, q: Query): (Cache, Option<Box>) {
    if q.page.None? || q.page.value == 0 || q.value == "" then (cache, None)
    else if cache.page == q.page then (cache, Located(cache.words, q.value))
    else if OutOfRange(doc, q.page.value) then (cache, Located([], q.value))
    else (Cache(q.page, FreshWords(doc, q.page.value)), Located(FreshWords(doc, q.page.value), q.value))
  }

  function Answers(doc: Document, cache: Cache, queries: seq<Query>): seq<Option<Box>>
    decreases |queries|
  {
    if queries == [] then []
    else
      var first := Answer(doc, cache, queries[0]);
      [first.1] + Answers(doc, first.0, queries[1..])
  }

  /** Over any sequence of calls the locator answers each as a fresh one would. */
  lemma {:induction false} AnswersAreFresh(doc: Document, cache: Cache, queries: seq<Query>)
    requires Faithful(doc, cache)
    ensures |Answers(doc, cache, queries)| == |queries|
    ensures forall i :: 0 <= i < |queries| ==> Answers(doc, cache, queries)[i] == FreshAnswer(doc, queries[i])
    decreases |queries|
  {
    if queries != [] {
      var first := Answer(doc, cache, queries[0]);
      AnswersAreFresh(doc, first.0, queries[1..]);
    }
  }

  class PdfValueLocator {
    const document: Document
    var cachedPage: Option<int>
    var cachedWords: seq<Word>

    ghost function State(): Cache
      reads this
    {
      Cache(cachedPage, cachedWords)
    }

    ghost predicate Valid()
      reads this
    {
      Faithful(document, State())
    }

    constructor (document: Document)
      ensures Valid() && this.document == document && State() == Cache(None, [])
    {
      this.document, cachedPage, cachedWords := document, None, [];
    }

    method WordsForPage(page: int) returns (words: seq<Word>)
      requires Valid()
      modifies this
      ensures Valid() && words == FreshWords(document, page)
      ensures State() == if old(cachedPage) == Some(page) || OutOfRange(document, page) then old(State())
                         else Cache(Some(page), words)
    {
      if cachedPage == Some(page) {
        return cachedWords;
      }
      words := [];
      if document.Readable? {
        if !(1 <= page <= |document.pages|) {
          return [];
        }
        if document.pages[page - 1].Extracted? {
          words := document.pages[page - 1].words;
          if |words| > MAX_WORDS_PER_PAGE {
            words := [];
          }
        }
      }
      cachedPage, cachedWords := Some(page), words;
    }

    method Locate(page: Option<int>, value: string) returns (box: Option<Box>)
      requires Valid()
      modifies this
      ensures Valid() && box == FreshAnswer(document, Query(page, value))
      ensures (State(), box) == Answer(document, old(State()), Query(page, value))
    {
      if page.None? || page.value == 0 || value == "" {
        return None;
      }
      var words := WordsForPage(page.value);
      box := LocateInWords(words, value);
    }
  }
}

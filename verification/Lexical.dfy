/** textsearch.analyze: the terms shared by the search writers and readers. */
module Lexical {
  import opened Common

  /** A code point of normalised text. */
  type Rune = nat

  type Text = seq<Rune>

  /** Which code points outside the Han ranges are letters or numbers. */
  type Letters = Rune -> bool

  datatype Kind = Other | Han | Word

  datatype Term = Gram(value: Text) | Whole(value: Text)

  predicate HanRune(r: Rune) {
    r == 0x3007 || 0x3400 <= r <= 0x4dbf || 0x4e00 <= r <= 0x9fff || 0xf900 <= r <= 0xfaff || 0x20000 <= r <= 0x323af
  }

  function KindOf(letters: Letters, r: Rune): Kind {
    if HanRune(r) then Han else if letters(r) then Word else Other
  }

  /** The kind at a position, nothing outside the text. */
  function At(letters: Letters, text: Text, i: int): Kind {
    if 0 <= i < |text| then KindOf(letters, text[i]) else Other
  }

  /** The ideographic zero, the unified ideographs with their first extension, the compatibility
      ideographs and the supplementary planes' ideographs. */
  lemma KindsExactly(r: Rune)
    ensures HanRune(r) <==>
              || r == 12295
              || (13312 <= r && r < 19904) || (19968 <= r && r < 40960)
              || (63744 <= r && r < 64256) || (131072 <= r && r < 205744)
    ensures forall letters: Letters :: (KindOf(letters, r) == Han <==> HanRune(r))
                                       && (KindOf(letters, r) == Word <==> letters(r) && !HanRune(r))
  {
  }

  // ---- the reference: what each position contributes ----

  function WordStart(letters: Letters, text: Text, i: nat): (s: nat)
    ensures s <= i
  {
    if i == 0 || !At(letters, text, i - 1).Word? then i else WordStart(letters, text, i - 1)
  }

  /** Neither neighbour is Han. */
  predicate Alone(letters: Letters, text: Text, i: int) {
    !At(letters, text, i - 1).Han? && !At(letters, text, i + 1).Han?
  }

  function Emits(letters: Letters, text: Text, query: bool, i: nat): seq<Term>
    requires i < |text|
  {
    if At(letters, text, i).Han? then
      (if !query || Alone(letters, text, i) then [Gram([text[i]])] else [])
      + (if At(letters, text, i + 1).Han? then [Gram([text[i], text[i + 1]])] else [])
    else if At(letters, text, i).Word? && !At(letters, text, i + 1).Word? then
      [Whole(text[WordStart(letters, text, i)..i + 1])]
    else []
  }

  function TermsBefore(letters: Letters, text: Text, query: bool, n: nat): seq<Term>
    requires n <= |text|
  {
    if n == 0 then [] else TermsBefore(letters, text, query, n - 1) + Emits(letters, text, query, n - 1)
  }

  function Terms(letters: Letters, text: Text, query: bool): seq<Term> {
    TermsBefore(letters, text, query, |text|)
  }

  // ---- the loop ----

  function HanTerms(run: Text, query: bool, n: nat): seq<Term>
    requires n <= |run|
  {
    if n == 0 then []
    else
      HanTerms(run, query, n - 1)
      + (if !query || |run| == 1 then [Gram([run[n - 1]])] else [])
      + (if n < |run| then [Gram([run[n - 1], run[n]])] else [])
  }

  function RunTerms(k: Kind, run: Text, query: bool): seq<Term> {
    if run == [] then [] else if k.Han? then HanTerms(run, query, |run|) else [Whole(run)]
  }

  method Flush(terms: seq<Term>, run: Text, kind: Kind, query: bool) returns (all: seq<Term>)
    ensures all == terms + RunTerms(kind, run, query)
  {
    all := terms;
    if run == [] {
      return;
    }
    if kind.Han? {
      for i := 0 to |run|
        invariant all == terms + HanTerms(run, query, i)
      {
        if !query || |run| == 1 {
          all := all + [Gram([run[i]])];
        }
        if i + 1 < |run| {
          all := all + [Gram([run[i], run[i + 1]])];
        }
      }
    } else {
      all := all + [Whole(run)];
    }
  }

  /** text[i..j] is a run of kind k that extends neither way. */
  predicate Maximal(letters: Letters, text: Text, i: int, j: int, k: Kind) {
    && 0 <= i < j <= |text| && !k.Other?
    && (forall p :: i <= p < j ==> At(letters, text, p) == k)
    && At(letters, text, i - 1) != k && At(letters, text, j) != k
  }

  lemma HanEmits(letters: Letters, text: Text, i: nat, j: nat, query: bool, p: nat)
    requires Maximal(letters, text, i, j, Han) && i <= p < j
    ensures j <= |text| && Emits(letters, text, query, p) == HanStep(text[i..j], query, p - i)
  {
    assert At(letters, text, p).Han?;
    assert At(letters, text, p + 1).Han? <==> p + 1 < j;
    assert At(letters, text, p - 1).Han? <==> p > i;
  }

  lemma Associates(a: seq<Term>, b: seq<Term>, c: seq<Term>)
    ensures (a + b) + c == a + (b + c)
  {
  }

  function HanStep(run: Text, query: bool, n: nat): seq<Term>
    requires n < |run|
  {
    (if !query || |run| == 1 then [Gram([run[n]])] else [])
      + (if n + 1 < |run| then [Gram([run[n], run[n + 1]])] else [])
  }

  lemma HanTermsStep(run: Text, query: bool, n: nat)
    requires n < |run|
    ensures HanTerms(run, query, n + 1) == HanTerms(run, query, n) + HanStep(run, query, n)
  {
    Associates(HanTerms(run, query, n), if !query || |run| == 1 then [Gram([run[n]])] else [],
               if n + 1 < |run| then [Gram([run[n], run[n + 1]])] else []);
  }

  lemma {:induction false} HanRunEmits(letters: Letters, text: Text, i: nat, j: nat, query: bool, n: nat)
    requires Maximal(letters, text, i, j, Han) && n <= j - i <= |text| - i
    ensures TermsBefore(letters, text, query, i + n)
         == TermsBefore(letters, text, query, i) + HanTerms(text[i..j], query, n)
  {
    hide Maximal, Emits, HanTerms, HanStep;
    if n == 0 {
      NoHanTerms(text[i..j], query);
    } else {
      HanRunEmits(letters, text, i, j, query, n - 1);
      HanEmits(letters, text, i, j, query, i + n - 1);
      HanTermsStep(text[i..j], query, n - 1);
      Associates(TermsBefore(letters, text, query, i), HanTerms(text[i..j], query, n - 1),
        HanStep(text[i..j], query, n - 1));
    }
  }

  lemma NoHanTerms(run: Text, query: bool)
    ensures HanTerms(run, query, 0) == []
  {
  }

  lemma {:induction false} WordRunStarts(letters: Letters, text: Text, i: nat, p: nat)
    requires i <= p < |text| && !At(letters, text, i - 1).Word?
    requires forall q :: i <= q <= p ==> At(letters, text, q).Word?
    ensures WordStart(letters, text, p) == i
  {
    if p > i {
      WordRunStarts(letters, text, i, p - 1);
    }
  }

  lemma WordEmits(letters: Letters, text: Text, i: nat, j: nat, query: bool, p: nat)
    requires Maximal(letters, text, i, j, Word) && i <= p < j
    ensures j <= |text| && Emits(letters, text, query, p) == if p + 1 == j then [Whole(text[i..j])] else []
  {
    assert At(letters, text, p).Word?;
    assert At(letters, text, p + 1).Word? <==> p + 1 < j;
    WordRunStarts(letters, text, i, p);
  }

  lemma {:induction false} WordRunEmits(letters: Letters, text: Text, i: nat, j: nat, query: bool, n: nat)
    requires Maximal(letters, text, i, j, Word) && n <= j - i <= |text| - i
    ensures TermsBefore(letters, text, query, i + n)
         == TermsBefore(letters, text, query, i) + (if n == j - i && n > 0 then [Whole(text[i..j])] else [])
  {
    hide Maximal, Emits;
    if n > 0 {
      WordRunEmits(letters, text, i, j, query, n - 1);
      WordEmits(letters, text, i, j, query, i + n - 1);
    }
  }

  lemma RunEmits(letters: Letters, text: Text, i: nat, j: nat, k: Kind, query: bool)
    requires Maximal(letters, text, i, j, k)
    ensures TermsBefore(letters, text, query, j)
         == TermsBefore(letters, text, query, i) + RunTerms(k, text[i..j], query)
  {
    hide TermsBefore, HanTerms;
    if k.Han? {
      HanRunEmits(letters, text, i, j, query, j - i);
    } else {
      WordRunEmits(letters, text, i, j, query, j - i);
    }
  }

  /** The run being collected: it ends at i and does not reach further back. */
  predicate Collecting(letters: Letters, text: Text, run: Text, kind: Kind, i: nat) {
    && |run| <= i <= |text| && run == text[i - |run|..i]
    && (kind.Other? <==> run == [])
    && (forall p :: i - |run| <= p < i ==> At(letters, text, p) == kind)
    && (run != [] ==> At(letters, text, i - |run| - 1) != kind)
    && At(letters, text, i - 1) == kind
  }

  lemma CollectsMore(letters: Letters, text: Text, run: Text, kind: Kind, i: nat)
    requires Collecting(letters, text, run, kind, i) && i < |text| && At(letters, text, i) == kind && !kind.Other?
    ensures Collecting(letters, text, run + [text[i]], kind, i + 1)
  {
    assert run + [text[i]] == text[i - |run|..i + 1];
  }

  lemma CollectsNew(letters: Letters, text: Text, run: Text, kind: Kind, i: nat)
    requires Collecting(letters, text, run, kind, i) && i < |text| && (At(letters, text, i) != kind || kind.Other?)
    ensures var next := At(letters, text, i);
            Collecting(letters, text, if next.Other? then [] else [text[i]], next, i + 1)
    ensures run != [] ==> Maximal(letters, text, i - |run|, i, kind)
  {
  }

  /** The buffered loop produces exactly the terms the positions contribute, in order. */
  method Analyze(letters: Letters, text: Text, query: bool) returns (terms: seq<Term>)
    ensures terms == Terms(letters, text, query)
  {
    hide RunTerms, Maximal, Collecting, TermsBefore, Emits, At;
    terms := [];
    var run: Text := [];
    var kind := Other;
    NothingCollected(letters, text);
    for i := 0 to |text|
      invariant Collecting(letters, text, run, kind, i)
      invariant |run| <= i && run == text[i - |run|..i]
      invariant terms == TermsBefore(letters, text, query, i - |run|)
    {
      var next := At(letters, text, i);
      if next != kind || next.Other? {
        CollectsNew(letters, text, run, kind, i);
        terms := Finish(letters, text, terms, run, kind, query, i);
        run := [];
        kind := next;
        if !next.Other? {
          run := [text[i]];
        } else {
          OtherEmitsNothing(letters, text, query, i);
        }
      } else {
        CollectsMore(letters, text, run, kind, i);
        run := run + [text[i]];
      }
    }
    EndsCollecting(letters, text, run, kind);
    terms := Finish(letters, text, terms, run, kind, query, |text|);
  }

  lemma NothingCollected(letters: Letters, text: Text)
    ensures Collecting(letters, text, [], Other, 0)
    ensures forall query :: TermsBefore(letters, text, query, 0) == []
  {
  }

  lemma OtherEmitsNothing(letters: Letters, text: Text, query: bool, i: nat)
    requires i < |text| && At(letters, text, i).Other?
    ensures TermsBefore(letters, text, query, i + 1) == TermsBefore(letters, text, query, i)
  {
  }

  lemma EndsCollecting(letters: Letters, text: Text, run: Text, kind: Kind)
    requires Collecting(letters, text, run, kind, |text|)
    ensures run != [] ==> Maximal(letters, text, |text| - |run|, |text|, kind)
  {
  }

  method Finish(ghost letters: Letters, ghost text: Text, terms: seq<Term>, run: Text, kind: Kind, query: bool,
          ghost i: nat)
    returns (all: seq<Term>)
    requires |run| <= i <= |text| && run == text[i - |run|..i] && terms == TermsBefore(letters, text, query, i - |run|)
    requires run != [] ==> Maximal(letters, text, i - |run|, i, kind)
    ensures all == TermsBefore(letters, text, query, i)
  {
    all := Flush(terms, run, kind, query);
    if run != [] {
      RunEmits(letters, text, i - |run|, i, kind, query);
    }
  }

  // ---- what the terms are ----

  lemma {:induction false} TermHasPlace(letters: Letters, text: Text, query: bool, n: nat, t: Term)
    requires n <= |text|
    ensures t in TermsBefore(letters, text, query, n) <==> exists i: nat :: i < n && t in Emits(letters, text, query, i)
  {
    hide Emits;
    if n > 0 {
      TermHasPlace(letters, text, query, n - 1, t);
      assert t in TermsBefore(letters, text, query, n) <==>
               t in TermsBefore(letters, text, query, n - 1) || t in Emits(letters, text, query, n - 1);
    }
  }

  lemma {:induction false} WordStartMeans(letters: Letters, text: Text, i: nat)
    requires i < |text| && At(letters, text, i).Word?
    ensures var s := WordStart(letters, text, i);
            !At(letters, text, s - 1).Word? && forall p :: s <= p <= i ==> At(letters, text, p).Word?
  {
    if i > 0 && At(letters, text, i - 1).Word? {
      WordStartMeans(letters, text, i - 1);
    }
  }

  ghost predicate HasRun(letters: Letters, text: Text, run: Text, k: Kind) {
    exists i, j :: Maximal(letters, text, i, j, k) && text[i..j] == run
  }

  lemma WordTermIsRun(letters: Letters, text: Text, query: bool, w: Text, i: nat)
    requires i < |text| && Whole(w) in Emits(letters, text, query, i)
    ensures HasRun(letters, text, w, Word)
  {
    WordStartMeans(letters, text, i);
    assert Maximal(letters, text, WordStart(letters, text, i), i + 1, Word);
  }

  lemma RunIsWordTerm(letters: Letters, text: Text, query: bool, i: int, j: int)
    requires Maximal(letters, text, i, j, Word)
    ensures Whole(text[i..j]) in Emits(letters, text, query, j - 1)
  {
    WordRunStarts(letters, text, i, j - 1);
    assert At(letters, text, j - 1).Word?;
  }

  /** A word term is exactly a maximal run of letters and numbers. */
  lemma WordTermsAreRuns(letters: Letters, text: Text, query: bool, w: Text)
    ensures Whole(w) in Terms(letters, text, query) <==> HasRun(letters, text, w, Word)
  {
    hide Emits, Maximal, TermsBefore;
    TermHasPlace(letters, text, query, |text|, Whole(w));
    if Whole(w) in Terms(letters, text, query) {
      var i: nat :| i < |text| && Whole(w) in Emits(letters, text, query, i);
      WordTermIsRun(letters, text, query, w, i);
    }
    if HasRun(letters, text, w, Word) {
      RunTermsIn(letters, text, query, w);
    }
  }

  lemma RunTermsIn(letters: Letters, text: Text, query: bool, w: Text)
    requires HasRun(letters, text, w, Word)
    ensures exists i: nat :: i < |text| && Whole(w) in Emits(letters, text, query, i)
  {
    var i, j :| Maximal(letters, text, i, j, Word) && text[i..j] == w;
    RunIsWordTerm(letters, text, query, i, j);
  }

  predicate PairAt(letters: Letters, text: Text, g: Text, i: nat) {
    i + 1 < |text| && At(letters, text, i).Han? && At(letters, text, i + 1).Han? && g == [text[i], text[i + 1]]
  }

  predicate SingleAt(letters: Letters, text: Text, g: Text, query: bool, i: nat) {
    i < |text| && At(letters, text, i).Han? && g == [text[i]] && (query ==> Alone(letters, text, i))
  }

  lemma GramsEmitted(letters: Letters, text: Text, query: bool, g: Text, i: nat)
    requires i < |text|
    ensures Gram(g) in Emits(letters, text, query, i) <==>
              PairAt(letters, text, g, i) || SingleAt(letters, text, g, query, i)
  {
  }

  /** The other terms are exactly the adjacent Han pairs and the single Han characters, of which a
      query uses only those that stand alone. */
  lemma HanTermsAre(letters: Letters, text: Text, query: bool, g: Text)
    ensures Gram(g) in Terms(letters, text, query) <==>
              exists i: nat :: i < |text| && (PairAt(letters, text, g, i) || SingleAt(letters, text, g, query, i))
  {
    hide Emits, PairAt, SingleAt, TermsBefore;
    TermHasPlace(letters, text, query, |text|, Gram(g));
    if Gram(g) in Terms(letters, text, query) {
      var i: nat :| i < |text| && Gram(g) in Emits(letters, text, query, i);
      GramsEmitted(letters, text, query, g, i);
    }
    if i: nat :| i < |text| && (PairAt(letters, text, g, i) || SingleAt(letters, text, g, query, i)) {
      GramsEmitted(letters, text, query, g, i);
    }
  }

  // ---- recall ----

  /** The substring starts inside a run of letters and numbers. */
  predicate CutsFirst(letters: Letters, text: Text, a: nat, b: nat)
    requires a <= b <= |text|
  {
    a < b && At(letters, text, a - 1).Word? && At(letters, text, a).Word?
  }

  /** The substring ends inside a run of letters and numbers. */
  predicate CutsLast(letters: Letters, text: Text, a: nat, b: nat)
    requires a <= b <= |text|
  {
    a < b && At(letters, text, b - 1).Word? && At(letters, text, b).Word?
  }

  predicate CutsNoWord(letters: Letters, text: Text, a: nat, b: nat)
    requires a <= b <= |text|
  {
    !CutsFirst(letters, text, a, b) && !CutsLast(letters, text, a, b)
  }

  /** Where the run of letters and numbers at the front of a text ends. */
  function FirstEnd(letters: Letters, text: Text): (n: nat)
    ensures n <= |text| && !At(letters, text, n).Word?
    ensures forall p :: 0 <= p < n ==> At(letters, text, p).Word?
  {
    if text == [] || !At(letters, text, 0).Word? then 0
    else
      var n := FirstEnd(letters, text[1..]);
      assert forall p :: 0 <= p <= n ==> At(letters, text, p + 1) == At(letters, text[1..], p);
      assert forall p :: 0 < p < n + 1 ==> At(letters, text, p) == At(letters, text[1..], p - 1);
      n + 1
  }

  /** The first and the last run of letters and numbers, where the text begins or ends in one. */
  function FirstWord(letters: Letters, text: Text): Text {
    text[..FirstEnd(letters, text)]
  }

  function LastWord(letters: Letters, text: Text): Text
    requires text != []
  {
    text[WordStart(letters, text, |text| - 1)..]
  }

  lemma FirstWordIsRun(letters: Letters, text: Text)
    requires text != [] && At(letters, text, 0).Word?
    ensures HasRun(letters, text, FirstWord(letters, text), Word)
  {
    var n := FirstEnd(letters, text);
    assert Maximal(letters, text, 0, n, Word) && text[0..n] == FirstWord(letters, text);
  }

  lemma LastWordIsRun(letters: Letters, text: Text)
    requires text != [] && At(letters, text, |text| - 1).Word?
    ensures HasRun(letters, text, LastWord(letters, text), Word)
  {
    var s := WordStart(letters, text, |text| - 1);
    WordStartMeans(letters, text, |text| - 1);
    assert Maximal(letters, text, s, |text|, Word) && text[s..|text|] == LastWord(letters, text);
  }

  lemma RunAtFront(letters: Letters, text: Text, j: int)
    requires Maximal(letters, text, 0, j, Word)
    ensures text[0..j] == FirstWord(letters, text)
  {
    var n := FirstEnd(letters, text);
    assert !At(letters, text, n).Word? && !At(letters, text, j).Word?;
  }

  lemma RunAtBack(letters: Letters, text: Text, i: int)
    requires Maximal(letters, text, i, |text|, Word)
    ensures text[i..|text|] == LastWord(letters, text)
  {
    WordRunStarts(letters, text, i, |text| - 1);
  }

  lemma SameKind(letters: Letters, text: Text, a: nat, b: nat, i: int)
    requires a <= b <= |text| && 0 <= i < b - a
    ensures At(letters, text[a..b], i) == At(letters, text, a + i)
  {
  }

  lemma SliceOfSlice(text: Text, a: nat, b: nat, i: nat, j: nat)
    requires a <= b <= |text| && i <= j <= b - a
    ensures text[a..b][i..j] == text[a + i..a + j]
  {
    var u, v := text[a..b][i..j], text[a + i..a + j];
    forall k | 0 <= k < j - i
      ensures u[k] == v[k]
    {
      assert u[k] == text[a..b][i + k] == text[a + i + k];
    }
    assert u == v;
  }

  lemma WordRunsCarryOver(letters: Letters, text: Text, a: nat, b: nat, i: int, j: int)
    requires a <= b <= |text| && Maximal(letters, text[a..b], i, j, Word)
    requires (i > 0 || !CutsFirst(letters, text, a, b)) && (j < b - a || !CutsLast(letters, text, a, b))
    ensures Maximal(letters, text, a + i, a + j, Word) && text[a + i..a + j] == text[a..b][i..j]
  {
    forall p | a + i <= p < a + j
      ensures At(letters, text, p).Word?
    {
      SameKind(letters, text, a, b, p - a);
    }
    assert At(letters, text, a + i).Word? && At(letters, text, a + j - 1).Word?;
    if i > 0 {
      SameKind(letters, text, a, b, i - 1);
    }
    if j < b - a {
      SameKind(letters, text, a, b, j);
    }
    assert !At(letters, text, a + i - 1).Word? && !At(letters, text, a + j).Word?;
    SliceOfSlice(text, a, b, i, j);
  }

  lemma GramsAreIndexed(letters: Letters, text: Text, a: nat, b: nat, g: Text)
    requires a <= b <= |text| && Gram(g) in Terms(letters, text[a..b], true)
    ensures Gram(g) in Terms(letters, text, false)
  {
    hide Terms, KindOf;
    var q := text[a..b];
    HanTermsAre(letters, q, true, g);
    HanTermsAre(letters, text, false, g);
    var i: nat :| i < |q| && (PairAt(letters, q, g, i) || SingleAt(letters, q, g, true, i));
    SameKind(letters, text, a, b, i);
    if PairAt(letters, q, g, i) {
      SameKind(letters, text, a, b, i + 1);
      assert PairAt(letters, text, g, a + i);
    } else {
      assert SingleAt(letters, text, g, false, a + i);
    }
  }

  /** A cut word at either edge of the query occurs somewhere else in the text as a whole word. */
  ghost predicate CutsAreWords(letters: Letters, text: Text, a: nat, b: nat)
    requires a <= b <= |text|
  {
    && (CutsFirst(letters, text, a, b) ==> HasRun(letters, text, FirstWord(letters, text[a..b]), Word))
    && (CutsLast(letters, text, a, b) ==> HasRun(letters, text, LastWord(letters, text[a..b]), Word))
  }

  lemma WordIsIndexed(letters: Letters, text: Text, a: nat, b: nat, w: Text)
    requires a <= b <= |text| && CutsAreWords(letters, text, a, b)
    requires Whole(w) in Terms(letters, text[a..b], true)
    ensures Whole(w) in Terms(letters, text, false)
  {
    hide Terms, CutsFirst, CutsLast;
    var q := text[a..b];
    WordTermsAreRuns(letters, q, true, w);
    WordTermsAreRuns(letters, text, false, w);
    var i, j :| Maximal(letters, q, i, j, Word) && q[i..j] == w;
    if i == 0 && CutsFirst(letters, text, a, b) {
      RunAtFront(letters, q, j);
    } else if j == |q| && CutsLast(letters, text, a, b) {
      RunAtBack(letters, q, i);
    } else {
      WordRunsCarryOver(letters, text, a, b, i, j);
    }
  }

  ghost predicate Recalled(letters: Letters, text: Text, a: nat, b: nat)
    requires a <= b <= |text|
  {
    forall t :: t in Terms(letters, text[a..b], true) ==> t in Terms(letters, text, false)
  }

  /** A document found by eye is found by the index, exactly as far as words are whole: all terms of
      a query that occurs in the normalised text are terms of that text if and only if each word
      the query cuts at its edges is also a word of its own there. */
  lemma RecallExactly(letters: Letters, text: Text, a: nat, b: nat)
    requires a <= b <= |text|
    ensures Recalled(letters, text, a, b) <==> CutsAreWords(letters, text, a, b)
  {
    hide Terms;
    if CutsAreWords(letters, text, a, b) {
      forall t | t in Terms(letters, text[a..b], true)
        ensures t in Terms(letters, text, false)
      {
        if t.Whole? {
          WordIsIndexed(letters, text, a, b, t.value);
        } else {
          GramsAreIndexed(letters, text, a, b, t.value);
        }
      }
    }
    if Recalled(letters, text, a, b) {
      EdgesRecalled(letters, text, a, b);
    }
  }

  lemma EdgesRecalled(letters: Letters, text: Text, a: nat, b: nat)
    requires a <= b <= |text| && Recalled(letters, text, a, b)
    ensures CutsAreWords(letters, text, a, b)
  {
    hide Terms, HasRun;
    var q := text[a..b];
    if CutsFirst(letters, text, a, b) {
      SameKind(letters, text, a, b, 0);
      FirstWordIsRun(letters, q);
      WordTermsAreRuns(letters, q, true, FirstWord(letters, q));
      WordTermsAreRuns(letters, text, false, FirstWord(letters, q));
    }
    if CutsLast(letters, text, a, b) {
      SameKind(letters, text, a, b, b - a - 1);
      LastWordIsRun(letters, q);
      WordTermsAreRuns(letters, q, true, LastWord(letters, q));
      WordTermsAreRuns(letters, text, false, LastWord(letters, q));
    }
  }

  /** In particular a query that cuts no word loses none of its terms. */
  lemma QueryTermsAreIndexed(letters: Letters, text: Text, a: nat, b: nat, t: Term)
    requires a <= b <= |text|
    requires a < b ==>
               && !(At(letters, text, a - 1).Word? && At(letters, text, a).Word?)
               && !(At(letters, text, b - 1).Word? && At(letters, text, b).Word?)
    requires t in Terms(letters, text[a..b], true)
    ensures t in Terms(letters, text, false)
  {
    RecallExactly(letters, text, a, b);
  }

  /** And a query of one word, cut, is found only where its letters are a word of their own. */
  lemma CutWordIsMissed(letters: Letters, text: Text, a: nat, b: nat)
    requires a < b <= |text| && forall p :: a <= p < b ==> At(letters, text, p).Word?
    requires !CutsNoWord(letters, text, a, b)
    ensures Whole(text[a..b]) in Terms(letters, text[a..b], true)
    ensures Whole(text[a..b]) in Terms(letters, text, false) <==>
              exists i, j :: Maximal(letters, text, i, j, Word) && text[i..j] == text[a..b]
  {
    var q := text[a..b];
    forall p | 0 <= p < b - a
      ensures At(letters, q, p).Word?
    {
      SameKind(letters, text, a, b, p);
    }
    assert Maximal(letters, q, 0, b - a, Word) && q[0..b - a] == q;
    WordTermsAreRuns(letters, q, true, q);
    WordTermsAreRuns(letters, text, false, q);
  }
}

/** termKey and the joined form both engines store. */
module TermKeys {
  import opened Common

  newtype Byte = b: int | 0 <= b < 256

  const LIMIT := 96

  /** A digest function; the one in use gives 32 bytes. */
  type Digest = seq<Byte> -> seq<Byte>

  function HexDigit(n: nat): char
    requires n < 16
  {
    "0123456789abcdef"[n]
  }

  function Hex(bytes: seq<Byte>): string {
    if bytes == [] then ""
    else [HexDigit(bytes[0] as int / 16), HexDigit(bytes[0] as int % 16)] + Hex(bytes[1..])
  }

  /** `kind` is the letter h or w; the value is UTF-8. */
  function TermKey(digest: Digest, kind: char, value: seq<Byte>): string {
    if |value| > LIMIT then "x" + Hex(digest([(kind as int % 256) as Byte] + value)) else [kind] + Hex(value)
  }

  predicate Plain(s: string) {
    s != "" && ' ' !in s
  }

  lemma DigitsDiffer(m: nat, n: nat)
    requires m < 16 && n < 16 && HexDigit(m) == HexDigit(n)
    ensures m == n
  {
  }

  lemma {:induction false} HexIsPlain(bytes: seq<Byte>)
    ensures |Hex(bytes)| == 2 * |bytes| && ' ' !in Hex(bytes)
  {
    if bytes != [] {
      HexIsPlain(bytes[1..]);
    }
  }

  lemma {:induction false} HexIsInjective(a: seq<Byte>, b: seq<Byte>)
    requires Hex(a) == Hex(b)
    ensures a == b
  {
    HexIsPlain(a);
    HexIsPlain(b);
    if a != [] {
      assert Hex(a)[0] == Hex(b)[0] && Hex(a)[1] == Hex(b)[1];
      DigitsDiffer(a[0] as int / 16, b[0] as int / 16);
      DigitsDiffer(a[0] as int % 16, b[0] as int % 16);
      assert Hex(a)[2..] == Hex(a[1..]) && Hex(b)[2..] == Hex(b[1..]);
      HexIsInjective(a[1..], b[1..]);
      assert a == [a[0]] + a[1..] && b == [b[0]] + b[1..];
    }
  }

  /** Keys are short and hold no space, and two of them are equal only when the terms are, or when
      two long terms share a digest. */
  lemma KeysAreFaithful(digest: Digest, k: char, v: seq<Byte>, l: char, w: seq<Byte>)
    requires k in "hw" && l in "hw" && (forall s :: |digest(s)| == 32)
    ensures Plain(TermKey(digest, k, v)) && |TermKey(digest, k, v)| <= 193
    ensures TermKey(digest, k, v) == TermKey(digest, l, w) ==>
              (k == l && v == w)
              || (|v| > LIMIT && |w| > LIMIT
                   && digest([(k as int % 256) as Byte] + v) == digest([(l as int % 256) as Byte] + w))
  {
    var dv, dw := digest([(k as int % 256) as Byte] + v), digest([(l as int % 256) as Byte] + w);
    HexIsPlain(v);
    HexIsPlain(dv);
    var x, y := TermKey(digest, k, v), TermKey(digest, l, w);
    if x == y {
      assert x[0] == y[0] && x[1..] == y[1..];
      if |v| > LIMIT {
        assert x[1..] == Hex(dv) && y[1..] == Hex(dw);
        HexIsInjective(dv, dw);
      } else {
        assert x[1..] == Hex(v) && y[1..] == Hex(w);
        HexIsInjective(v, w);
      }
    }
  }

  function Join(keys: seq<string>): string {
    if keys == [] then "" else if |keys| == 1 then keys[0] else keys[0] + " " + Join(keys[1..])
  }

  function FirstSpace(s: string): (n: nat)
    ensures n <= |s|
  {
    if s == "" || s[0] == ' ' then 0 else 1 + FirstSpace(s[1..])
  }

  /** What a whitespace analyser makes of the stored text. */
  function Split(s: string): seq<string>
    decreases |s|
  {
    if s == "" then []
    else
      var n := FirstSpace(s);
      if n == |s| then [s] else (if n == 0 then [] else [s[..n]]) + Split(s[n + 1..])
  }

  lemma {:induction false} FirstSpaceOf(key: string, rest: string)
    requires ' ' !in key
    ensures FirstSpace(key) == |key| && FirstSpace(key + " " + rest) == |key|
  {
    if key == "" {
      assert (key + " " + rest)[0] == ' ';
    } else {
      FirstSpaceOf(key[1..], rest);
      assert (key + " " + rest)[1..] == key[1..] + " " + rest;
    }
  }

  /** Joining keys with spaces loses nothing. */
  lemma {:induction false} JoinIsLossless(keys: seq<string>)
    requires forall i :: 0 <= i < |keys| ==> Plain(keys[i])
    ensures Split(Join(keys)) == keys
  {
    if keys != [] {
      var rest := Join(keys[1..]);
      FirstSpaceOf(keys[0], rest);
      if |keys| > 1 {
        JoinIsLossless(keys[1..]);
        var s := keys[0] + " " + rest;
        assert s[..|keys[0]|] == keys[0] && s[|keys[0]| + 1..] == rest;
      }
    }
  }
}

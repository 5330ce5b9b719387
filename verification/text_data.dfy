// The data behind the word cloud: a vocabulary of tokens with their summed
// value and document frequency, and the best-scoring terms.
module TextData {
  import opened Wrappers
  import opened Sorting
  import opened UiTable
  import opened VizUtil

  /** The summed value of a token and the number of texts it occurs in. */
  datatype Stats = Stats(value: int, docFreq: nat)

  /** A text visualisation: the column with the texts, an optional column
      with a weight per row, whether to tokenize, and whether to reduce each
      token to its URL domain. */
  datatype TextVisualization = TextVisualization(
    textColumn: string,
    valueColumn: Option<string>,
    tokenize: bool,
    urlDomain: bool)

  /** What the runtime supplies: the Unicode letter test, the URL parser's
      host name, and Number() of a cell, None standing for NaN. */
  datatype Env = Env(
    letter: char -> bool,
    hostname: string -> Option<string>,
    number: Option<string> -> Option<int>)

  datatype ScoredTerm = ScoredTerm(text: string, value: int, importance: real)

  /** How many terms the word cloud shows. */
  const TopTermCount: nat := 200

  /** The tokens one text contributes: its tokens or the whole text, each
      reduced to its domain when the visualisation asks for it. */
  function TokensOf(text: string, vis: TextVisualization, env: Env): (tokens: seq<string>)
    ensures !vis.tokenize && !vis.urlDomain ==> tokens == [text]
    ensures !vis.tokenize ==> |tokens| == 1
  {
    var raw := if vis.tokenize then Tokenize(text, env.letter) else [text];
    if vis.urlDomain then seq(|raw|, k requires 0 <= k < |raw| => ExtractUrlDomain(raw[k], env.hostname))
    else raw
  }

  /** The weight row i adds per occurrence: 1 without a value column,
      otherwise Number() of its cell (a missing cell reads as undefined), and
      None for NaN, which adds nothing. */
  function Weight(values: Option<seq<Option<string>>>, i: nat, env: Env): (w: Option<int>)
    ensures values.None? ==> w == Some(1)
  {
    match values
    case None => Some(1)
    case Some(vs) => env.number(if i < |vs| then vs[i] else None)
  }

  /** The vocabulary object: its keys in insertion order and the entry of
      each key. */
  datatype Vocab = Vocab(order: seq<string>, stats: map<string, Stats>)

  /** The keys are exactly the tokens with an entry, each listed once. */
  ghost predicate ValidVocab(v: Vocab) {
    (forall t :: t in v.stats <==> t in v.order) &&
    forall i, j :: 0 <= i < j < |v.order| ==> v.order[i] != v.order[j]
  }

  const EmptyVocab := Vocab([], map[])

  /** The entry of a token, or the zero entry the loop would create for it. */
  function At(vocab: Vocab, t: string): Stats {
    if t in vocab.stats then vocab.stats[t] else Stats(0, 0)
  }

  /** vocabulary[token] = value: a new key goes to the end, an old one keeps its place. */
  function Store(vocab: Vocab, t: string, s: Stats): (r: Vocab)
    ensures r.stats == vocab.stats[t := s]
  {
    Vocab(if t in vocab.stats then vocab.order else vocab.order + [t], vocab.stats[t := s])
  }

  /** One token of a text: its value grows by the weight, and its document
      frequency by one when it has not been seen earlier in the same text. */
  function TokenStep(vocab: Vocab, t: string, first: bool, w: Option<int>): Vocab
  {
    Store(vocab, t, Bump(At(vocab, t), first, w))
  }

  /** An entry after one more occurrence of its token. */
  function Bump(s: Stats, first: bool, w: Option<int>): (r: Stats)
    ensures r.value == s.value + w.GetOr(0)
    ensures r.docFreq == if first then s.docFreq + 1 else s.docFreq
  {
    Stats(s.value + w.GetOr(0), if first then s.docFreq + 1 else s.docFreq)
  }

  /** The tokens of one text folded into the vocabulary in order. */
  function AddTokens(vocab: Vocab, tokens: seq<string>, w: Option<int>): Vocab
    decreases |tokens|
  {
    if tokens == [] then vocab
    else
      var init := tokens[..|tokens| - 1];
      var t := tokens[|tokens| - 1];
      TokenStep(AddTokens(vocab, init, w), t, t !in init, w)
  }

  /** The vocabulary of all texts in order; a null text is skipped. */
  function Vocabulary(texts: seq<Option<string>>, values: Option<seq<Option<string>>>, vis: TextVisualization, env: Env): Vocab
    decreases |texts|
  {
    if texts == [] then EmptyVocab
    else
      var prev := Vocabulary(texts[..|texts| - 1], values, vis, env);
      match texts[|texts| - 1]
      case None => prev
      case Some(text) => AddTokens(prev, TokensOf(text, vis, env), Weight(values, |texts| - 1, env))
  }

  /** How often t occurs among the tokens. */
  function Occurrences(tokens: seq<string>, t: string): (n: nat)
    ensures n <= |tokens|
    ensures n == 0 <==> t !in tokens
    decreases |tokens|
  {
    if tokens == [] then 0
    else
      var init := tokens[..|tokens| - 1];
      assert tokens == init + [tokens[|tokens| - 1]];
      Occurrences(init, t) + if tokens[|tokens| - 1] == t then 1 else 0
  }

  /** The number of non-null texts among whose tokens t occurs. */
  function DocCount(texts: seq<Option<string>>, vis: TextVisualization, env: Env, t: string): (n: nat)
    ensures n <= |texts|
    decreases |texts|
  {
    if texts == [] then 0
    else
      DocCount(texts[..|texts| - 1], vis, env, t) +
      match texts[|texts| - 1]
      case None => 0
      case Some(text) => if t in TokensOf(text, vis, env) then 1 else 0
  }

  /** Over the non-null texts, the occurrences of t times the text's weight,
      NaN weights counting as nothing. */
  function ValueSum(texts: seq<Option<string>>, values: Option<seq<Option<string>>>, vis: TextVisualization, env: Env, t: string): int
    decreases |texts|
  {
    if texts == [] then 0
    else
      ValueSum(texts[..|texts| - 1], values, vis, env, t) +
      match texts[|texts| - 1]
      case None => 0
      case Some(text) => Times(Occurrences(TokensOf(text, vis, env), t), Weight(values, |texts| - 1, env).GetOr(0))
  }

  /** n copies of c added up. */
  function Times(n: nat, c: int): int {
    if n == 0 then 0 else Times(n - 1, c) + c
  }

  lemma {:induction false} TimesIsProduct(n: nat, c: int)
    ensures Times(n, c) == n * c
  {
    if n > 0 {
      TimesIsProduct(n - 1, c);
    }
  }

  /** One token step changes only that token's entry. */
  lemma TokenStepEffect(vocab: Vocab, u: string, first: bool, w: Option<int>, t: string)
    ensures At(TokenStep(vocab, u, first, w), t) ==
      if u == t then Stats(At(vocab, t).value + w.GetOr(0), At(vocab, t).docFreq + if first then 1 else 0)
      else At(vocab, t)
    ensures t !in TokenStep(vocab, u, first, w).stats <==> t !in vocab.stats && u != t
  {
  }

  /** Folding in one text adds the token's occurrences times the weight to
      its value and at most one to its document frequency. */
  lemma {:induction false} AddTokensEffect(vocab: Vocab, tokens: seq<string>, w: Option<int>, t: string)
    ensures At(AddTokens(vocab, tokens, w), t).value == At(vocab, t).value + Times(Occurrences(tokens, t), w.GetOr(0))
    ensures At(AddTokens(vocab, tokens, w), t).docFreq == At(vocab, t).docFreq + if t in tokens then 1 else 0
    ensures t !in AddTokens(vocab, tokens, w).stats <==> t !in vocab.stats && t !in tokens
    decreases |tokens|
  {
    if tokens != [] {
      var init := tokens[..|tokens| - 1];
      var u := tokens[|tokens| - 1];
      assert tokens == init + [u];
      InLast(init, u, t);
      AddTokensEffect(vocab, init, w, t);
      var prev := AddTokens(vocab, init, w);
      TokenStepValue(vocab, prev, init, u, w, t);
      TokenStepDocFreq(vocab, prev, init, u, w, t);
      TokenStepPresence(vocab, prev, init, u, w, t);
    }
  }

  /** The induction steps: one more token keeps each running total right. */
  lemma {:induction false} TokenStepValue(vocab: Vocab, prev: Vocab, init: seq<string>, u: string, w: Option<int>, t: string)
    requires At(prev, t).value == At(vocab, t).value + Times(Occurrences(init, t), w.GetOr(0))
    ensures At(TokenStep(prev, u, u !in init, w), t).value ==
      At(vocab, t).value + Times(Occurrences(init, t) + if u == t then 1 else 0, w.GetOr(0))
  {
    TokenStepEffect(prev, u, u !in init, w, t);
    var n := Occurrences(init, t);
    var c := w.GetOr(0);
    if u == t {
      assert Times(n + 1, c) == Times(n, c) + c;
    }
  }

  lemma {:induction false} TokenStepDocFreq(vocab: Vocab, prev: Vocab, init: seq<string>, u: string, w: Option<int>, t: string)
    requires At(prev, t).docFreq == At(vocab, t).docFreq + if t in init then 1 else 0
    ensures At(TokenStep(prev, u, u !in init, w), t).docFreq == At(vocab, t).docFreq + if t in init || t == u then 1 else 0
  {
    TokenStepEffect(prev, u, u !in init, w, t);
  }

  lemma {:induction false} TokenStepPresence(vocab: Vocab, prev: Vocab, init: seq<string>, u: string, w: Option<int>, t: string)
    requires t !in prev.stats <==> t !in vocab.stats && t !in init
    ensures t !in TokenStep(prev, u, u !in init, w).stats <==> t !in vocab.stats && !(t in init || t == u)
  {
    TokenStepEffect(prev, u, u !in init, w, t);
  }

  /** Membership and occurrences in a list through its last element. */
  lemma InLast(init: seq<string>, u: string, t: string)
    ensures (init + [u])[..|init + [u]| - 1] == init && (init + [u])[|init + [u]| - 1] == u
    ensures t in init + [u] <==> t in init || t == u
    ensures Occurrences(init + [u], t) == Occurrences(init, t) + if u == t then 1 else 0
  {
    var l := init + [u];
    assert l[..|l| - 1] == init;
  }

  /** The vocabulary's entry for t holds the weighted occurrence sum and the
      number of texts containing t; t has an entry exactly when some text
      contains it. */
  lemma {:induction false} VocabularyStats(texts: seq<Option<string>>, values: Option<seq<Option<string>>>, vis: TextVisualization, env: Env, t: string)
    ensures At(Vocabulary(texts, values, vis, env), t) == Stats(ValueSum(texts, values, vis, env, t), DocCount(texts, vis, env, t))
    ensures t !in Vocabulary(texts, values, vis, env).stats <==> DocCount(texts, vis, env, t) == 0
    decreases |texts|
  {
    if texts != [] {
      var init := texts[..|texts| - 1];
      VocabularyStats(init, values, vis, env, t);
      match texts[|texts| - 1]
      case None =>
      case Some(text) =>
        AddTokensEffect(Vocabulary(init, values, vis, env), TokensOf(text, vis, env), Weight(values, |texts| - 1, env), t);
    }
  }

  /** Every token with an entry is listed once among the keys. */
  lemma StoreValid(vocab: Vocab, t: string, st: Stats)
    requires ValidVocab(vocab)
    ensures ValidVocab(Store(vocab, t, st))
  {
  }

  lemma {:induction false} AddTokensValid(vocab: Vocab, tokens: seq<string>, w: Option<int>)
    requires ValidVocab(vocab)
    ensures ValidVocab(AddTokens(vocab, tokens, w))
    decreases |tokens|
  {
    if tokens != [] {
      var init := tokens[..|tokens| - 1];
      var u := tokens[|tokens| - 1];
      AddTokensValid(vocab, init, w);
      var prev := AddTokens(vocab, init, w);
      StoreValid(prev, u, Bump(At(prev, u), u !in init, w));
    }
  }

  lemma {:induction false} VocabularyValid(texts: seq<Option<string>>, values: Option<seq<Option<string>>>, vis: TextVisualization, env: Env)
    ensures ValidVocab(Vocabulary(texts, values, vis, env))
    decreases |texts|
  {
    if texts != [] {
      var init := texts[..|texts| - 1];
      VocabularyValid(init, values, vis, env);
      match texts[|texts| - 1]
      case None =>
      case Some(text) =>
        AddTokensValid(Vocabulary(init, values, vis, env), TokensOf(text, vis, env), Weight(values, |texts| - 1, env));
    }
  }

  /** getVocabulary: for each non-null text, each of its tokens creates its
      entry if needed, raises the document frequency once per text (the set
      of tokens seen in this text), and adds the row's weight unless NaN. */
  method GetVocabulary(texts: seq<Option<string>>, values: Option<seq<Option<string>>>, vis: TextVisualization, env: Env)
    returns (vocabulary: Vocab)
    ensures vocabulary == Vocabulary(texts, values, vis, env)
  {
    vocabulary := EmptyVocab;
    for i := 0 to |texts|
      invariant vocabulary == Vocabulary(texts[..i], values, vis, env)
    {
      assert texts[..i + 1][..i] == texts[..i];
      if texts[i].None? {
        continue;
      }
      var tokens := TokensOf(texts[i].value, vis, env);
      vocabulary := AddText(vocabulary, tokens, Weight(values, i, env));
    }
    assert texts[..|texts|] == texts;
  }

  /** The inner loop of getVocabulary over the tokens of one text. */
  method AddText(start: Vocab, tokens: seq<string>, v: Option<int>) returns (vocabulary: Vocab)
    ensures vocabulary == AddTokens(start, tokens, v)
  {
    vocabulary := start;
    var seen: set<string> := {};
    for j := 0 to |tokens|
      invariant vocabulary == AddTokens(start, tokens[..j], v)
      invariant seen == Elements(tokens[..j])
    {
      var token := tokens[j];
      assert tokens[..j + 1][..j] == tokens[..j];
      ElementsMember(tokens[..j], token);
      ghost var first := token !in tokens[..j];
      var s := At(vocabulary, token);
      var docFreq := s.docFreq;
      if token !in seen {
        docFreq := docFreq + 1;
        seen := seen + {token};
      }
      var value := s.value;
      if v.Some? {
        value := value + v.value;
      }
      assert Stats(value, docFreq) == Bump(s, first, v);
      AddTokensSnoc(start, tokens, j, v);
      vocabulary := Store(vocabulary, token, Stats(value, docFreq));
    }
    assert tokens[..|tokens|] == tokens;
  }

  /** The set of tokens of a list. */
  function Elements(xs: seq<string>): set<string>
    decreases |xs|
  {
    if xs == [] then {} else Elements(xs[..|xs| - 1]) + {xs[|xs| - 1]}
  }

  lemma {:induction false} ElementsMember(xs: seq<string>, x: string)
    ensures x in Elements(xs) <==> x in xs
    decreases |xs|
  {
    if xs != [] {
      var init := xs[..|xs| - 1];
      assert xs == init + [xs[|xs| - 1]];
      ElementsMember(init, x);
    }
  }

  /** AddTokens over one more token of the list. */
  lemma AddTokensSnoc(start: Vocab, tokens: seq<string>, j: nat, v: Option<int>)
    requires j < |tokens|
    ensures AddTokens(start, tokens[..j + 1], v) == TokenStep(AddTokens(start, tokens[..j], v), tokens[j], tokens[j] !in tokens[..j], v)
  {
    assert tokens[..j + 1][..j] == tokens[..j];
  }

  /** The vocabulary's entries as terms in key order, scored by the given
      importance (tf-idf in floating point). */
  function Scored(vocab: Vocab, nDocs: nat, score: (int, nat, nat) -> real): (terms: seq<ScoredTerm>)
    ensures |terms| == |vocab.order|
    ensures forall k :: 0 <= k < |terms| ==> terms[k].text == vocab.order[k] && terms[k].value == At(vocab, vocab.order[k]).value
  {
    seq(|vocab.order|, k requires 0 <= k < |vocab.order| =>
      var s := At(vocab, vocab.order[k]);
      ScoredTerm(vocab.order[k], s.value, score(s.value, s.docFreq, nDocs)))
  }

  /** Higher importance first. */
  function MoreImportant(a: ScoredTerm, b: ScoredTerm): bool {
    a.importance >= b.importance
  }

  lemma MoreImportantPreorder()
    ensures Total(MoreImportant) && Transitive(MoreImportant)
  {
  }

  /** The scored entries ordered by decreasing importance; the sort is
      stable, so equally important terms keep their key order. */
  function Ranked(vocab: Vocab, nDocs: nat, score: (int, nat, nat) -> real): (r: seq<ScoredTerm>)
    ensures |r| == |vocab.order|
  {
    var all := Scored(vocab, nDocs, score);
    assert |SortBy(all, MoreImportant)| == |multiset(all)|;
    SortBy(all, MoreImportant)
  }

  /** How many terms getTopTerms keeps: n, or all of them when there are fewer. */
  function Kept(vocab: Vocab, n: nat): nat {
    if |vocab.order| < n then |vocab.order| else n
  }

  /** getTopTerms: the scored entries ordered by decreasing importance, cut
      to the first n. */
  function TopTerms(vocab: Vocab, nDocs: nat, n: nat, score: (int, nat, nat) -> real): (r: seq<ScoredTerm>)
    ensures |r| == Kept(vocab, n)
    ensures SortedBy(r, MoreImportant)
    ensures forall k :: 0 <= k < |r| ==> r[k] in Scored(vocab, nDocs, score)
  {
    var all := Scored(vocab, nDocs, score);
    var sorted := Ranked(vocab, nDocs, score);
    MoreImportantPreorder();
    SortBySorted(all, MoreImportant);
    var r := sorted[..Kept(vocab, n)];
    assert forall k :: 0 <= k < |r| ==> r[k] == sorted[k];
    assert forall k :: 0 <= k < |r| ==> r[k] in multiset(sorted);
    r
  }

  /** The terms the cut leaves out. */
  function Dropped(vocab: Vocab, nDocs: nat, n: nat, score: (int, nat, nat) -> real): seq<ScoredTerm> {
    Ranked(vocab, nDocs, score)[Kept(vocab, n)..]
  }

  lemma RankedSplit(vocab: Vocab, nDocs: nat, n: nat, score: (int, nat, nat) -> real)
    ensures Ranked(vocab, nDocs, score) == TopTerms(vocab, nDocs, n, score) + Dropped(vocab, nDocs, n, score)
  {
  }

  /** The kept and the dropped terms together are the scored entries, each
      kept term is at least as important as each dropped one, and nothing is
      dropped when there are at most n terms. */
  lemma TopTermsMostImportant(vocab: Vocab, nDocs: nat, n: nat, score: (int, nat, nat) -> real)
    ensures var top, rest := TopTerms(vocab, nDocs, n, score), Dropped(vocab, nDocs, n, score);
      && multiset(top) + multiset(rest) == multiset(Scored(vocab, nDocs, score))
      && (forall i, j :: 0 <= i < |top| && 0 <= j < |rest| ==> top[i].importance >= rest[j].importance)
      && (|vocab.order| <= n ==> rest == [])
  {
    var all := Scored(vocab, nDocs, score);
    var top, rest := TopTerms(vocab, nDocs, n, score), Dropped(vocab, nDocs, n, score);
    MoreImportantPreorder();
    SortBySorted(all, MoreImportant);
    RankedSplit(vocab, nDocs, n, score);
    SplitDominates(top, rest);
  }

  lemma SplitDominates(top: seq<ScoredTerm>, rest: seq<ScoredTerm>)
    requires SortedBy(top + rest, MoreImportant)
    ensures forall i, j :: 0 <= i < |top| && 0 <= j < |rest| ==> top[i].importance >= rest[j].importance
  {
    forall i, j | 0 <= i < |top| && 0 <= j < |rest| ensures top[i].importance >= rest[j].importance {
      assert (top + rest)[i] == top[i] && (top + rest)[|top| + j] == rest[j];
    }
  }

  /** Ties are cut in key order: among the terms exactly as important as k,
      the ones kept are the first ones in the vocabulary's key order. */
  lemma TopTermsTiesInKeyOrder(vocab: Vocab, nDocs: nat, n: nat, score: (int, nat, nat) -> real, k: ScoredTerm)
    ensures Tied(TopTerms(vocab, nDocs, n, score), MoreImportant, k) <= Tied(Scored(vocab, nDocs, score), MoreImportant, k)
  {
    var top, rest := TopTerms(vocab, nDocs, n, score), Dropped(vocab, nDocs, n, score);
    MoreImportantPreorder();
    SortByStable(Scored(vocab, nDocs, score), MoreImportant, k);
    RankedSplit(vocab, nDocs, n, score);
    TiedAppend(top, rest, MoreImportant, k);
  }

  /** With distinct keys the kept terms are distinct. */
  lemma TopTermsDistinct(vocab: Vocab, nDocs: nat, n: nat, score: (int, nat, nat) -> real)
    requires ValidVocab(vocab)
    ensures var top := TopTerms(vocab, nDocs, n, score);
      forall i, j :: 0 <= i < j < |top| ==> top[i].text != top[j].text
  {
    var all := Scored(vocab, nDocs, score);
    var top, rest := TopTerms(vocab, nDocs, n, score), Dropped(vocab, nDocs, n, score);
    assert DistinctTexts(all) by {
      forall a, b | 0 <= a < b < |all| ensures all[a].text != all[b].text {
        assert all[a].text == vocab.order[a] && all[b].text == vocab.order[b];
      }
    }
    assert Distinct(all) by {
      forall a, b | 0 <= a < b < |all| ensures all[a] != all[b] {
        assert all[a].text != all[b].text;
      }
    }
    SortKeepsDistinct(all, MoreImportant);
    RankedSplit(vocab, nDocs, n, score);
    PermutedTextsDistinct(top + rest, all);
    PrefixTextsDistinct(top, rest);
  }

  /** No two entries carry the same text. */
  ghost predicate DistinctTexts(terms: seq<ScoredTerm>) {
    forall i, j :: 0 <= i < j < |terms| ==> terms[i].text != terms[j].text
  }

  lemma PermutedTextsDistinct(sorted: seq<ScoredTerm>, all: seq<ScoredTerm>)
    requires multiset(sorted) == multiset(all) && Distinct(sorted) && DistinctTexts(all)
    ensures DistinctTexts(sorted)
  {
    forall i, j | 0 <= i < j < |sorted| ensures sorted[i].text != sorted[j].text {
      assert sorted[i] in multiset(all) && sorted[j] in multiset(all);
      var a :| 0 <= a < |all| && all[a] == sorted[i];
      var b :| 0 <= b < |all| && all[b] == sorted[j];
      assert a != b;
    }
  }

  lemma PrefixTextsDistinct(top: seq<ScoredTerm>, rest: seq<ScoredTerm>)
    requires DistinctTexts(top + rest)
    ensures DistinctTexts(top)
  {
    forall i, j | 0 <= i < j < |top| ensures top[i].text != top[j].text {
      assert (top + rest)[i] == top[i] && (top + rest)[j] == top[j];
    }
  }

  /** With one text every importance is the same, and the first keys are
      kept: of "a" and "b", n = 1 keeps "a". */
  lemma TopTermsTieExample()
    ensures TopTerms(Vocab(["a", "b"], map["a" := Stats(1, 1), "b" := Stats(1, 1)]), 1, 1, (_, _, _) => 0.0) ==
      [ScoredTerm("a", 1, 0.0)]
  {
    var vocab := Vocab(["a", "b"], map["a" := Stats(1, 1), "b" := Stats(1, 1)]);
    var score := (_, _, _) => 0.0;
    var all := Scored(vocab, 1, score);
    assert all == [ScoredTerm("a", 1, 0.0), ScoredTerm("b", 1, 0.0)];
    assert all[..1] == [all[0]];
    assert Insert(all[1], [all[0]], MoreImportant) == [all[0], all[1]];
    assert Ranked(vocab, 1, score) == [all[0], all[1]];
  }

  /** prepareTextData: no terms for a table without rows; otherwise the
      columns are read (a missing column throws) and the top 200 terms of
      their vocabulary returned. */
  function PrepareTextData(table: Table, vis: TextVisualization, env: Env, score: (int, nat, nat) -> real): (r: Result<seq<ScoredTerm>>)
    ensures table.rows == [] ==> r == Ok([])
    ensures table.rows != [] ==>
      (r.Failure? <==>
        GetTableColumn(table, vis.textColumn).Failure? ||
        (vis.valueColumn.Some? && GetTableColumn(table, vis.valueColumn.value).Failure?))
    ensures r.Ok? ==> |r.value| <= TopTermCount
  {
    if table.rows == [] then Ok([])
    else
      match GetTableColumn(table, vis.textColumn)
      case Failure => Failure
      case Ok(texts) =>
        var values :=
          match vis.valueColumn
          case None => Ok(None)
          case Some(c) =>
            match GetTableColumn(table, c)
            case Failure => Failure
            case Ok(vs) => Ok(Some(vs));
        match values
        case Failure => Failure
        case Ok(vs) => Ok(TopTerms(Vocabulary(texts, vs, vis, env), |texts|, TopTermCount, score))
  }

  /** A returned term is a token of some text, with the weighted occurrence
      sum as its value. */
  lemma TopTermFromTexts(table: Table, vis: TextVisualization, env: Env, score: (int, nat, nat) -> real, k: nat)
    requires PrepareTextData(table, vis, env, score).Ok?
    requires k < |PrepareTextData(table, vis, env, score).value|
    ensures var texts := GetTableColumn(table, vis.textColumn).value;
      var values := if vis.valueColumn.Some? then Some(GetTableColumn(table, vis.valueColumn.value).value) else None;
      var term := PrepareTextData(table, vis, env, score).value[k];
      DocCount(texts, vis, env, term.text) > 0 && term.value == ValueSum(texts, values, vis, env, term.text)
  {
    var texts := GetTableColumn(table, vis.textColumn).value;
    var values := if vis.valueColumn.Some? then Some(GetTableColumn(table, vis.valueColumn.value).value) else None;
    var vocab := Vocabulary(texts, values, vis, env);
    var term := PrepareTextData(table, vis, env, score).value[k];
    var all := Scored(vocab, |texts|, score);
    assert term in all;
    var i :| 0 <= i < |all| && all[i] == term;
    VocabularyValid(texts, values, vis, env);
    VocabularyStats(texts, values, vis, env, term.text);
  }
}

/**
 * The pure decision logic of the mBART English-to-Sanskrit translator:
 * single-word detection, the clean-up of a single-word translation, the
 * choice of decoding parameters and the interactive beam-count clamp. The
 * tokenizer and the model's `generate` are foreign; `Translate` receives the
 * decoder as a function from decoding parameters to decoded text.
 */
module MbartInference {
  import opened Common
  import opened Strings

  /** Stripped inputs of at most this many characters may be single words. */
  const SingleWordMaxLength: nat := 40

  /** DEVANAGARI DANDA, the Sanskrit full stop. */
  const Danda: char := '\U{964}'

  /** `_is_single_word`: the stripped text is one whitespace-free run of at most 40 characters. */
  function IsSingleWord(text: string): (r: bool)
    ensures r <==> var t := PyStrip(text); t != [] && NoneIn(t, PyWhitespace) && |t| <= SingleWordMaxLength
  {
    var t := PyStrip(text);
    if t == [] then false
    else
      SplitOneIff(t, PyWhitespace);
      |Split(t, PyWhitespace)| == 1 && |t| <= SingleWordMaxLength
  }

  predicate NoAdjacentDuplicates(s: seq<string>) {
    forall i :: 0 <= i < |s| - 1 ==> s[i] != s[i + 1]
  }

  /** `a` can be obtained from `b` by deleting elements, keeping the order of the rest. */
  predicate IsSubsequence<T(==)>(a: seq<T>, b: seq<T>)
    decreases |b|
  {
    if b == [] then a == []
    else
      (a != [] && a[|a| - 1] == b[|b| - 1] && IsSubsequence(a[..|a| - 1], b[..|b| - 1]))
      || IsSubsequence(a, b[..|b| - 1])
  }

  /**
   * The list the collapse loop of `_postprocess_single_word` builds: a token
   * is appended unless it equals the last token kept.
   */
  function Collapse(tokens: seq<string>): (r: seq<string>)
    ensures NoAdjacentDuplicates(r)
    ensures tokens != [] ==> r != [] && r[|r| - 1] == tokens[|tokens| - 1]
  {
    if tokens == [] then []
    else
      var init := tokens[..|tokens| - 1];
      var tok := tokens[|tokens| - 1];
      var c := Collapse(init);
      if c != [] && c[|c| - 1] == tok then c
      else c + [tok]
  }

  /** Collapsing only deletes tokens: the rest keep their order, and no distinct token disappears. */
  lemma {:induction false} CollapseKeepsOrderAndMembers(tokens: seq<string>)
    ensures IsSubsequence(Collapse(tokens), tokens)
    ensures forall w :: w in Collapse(tokens) <==> w in tokens
  {
    if tokens != [] {
      var init := tokens[..|tokens| - 1];
      var tok := tokens[|tokens| - 1];
      var c := Collapse(init);
      CollapseKeepsOrderAndMembers(init);
      assert tokens == init + [tok];
      if !(c != [] && c[|c| - 1] == tok) {
        assert (c + [tok])[..|c|] == c;
      }
    }
  }

  /** Collapsing leaves a list without adjacent duplicates unchanged, so collapsing twice is collapsing once. */
  lemma {:induction false} CollapseFixesDeduplicated(s: seq<string>)
    requires NoAdjacentDuplicates(s)
    ensures Collapse(s) == s
  {
    if s != [] {
      var init := s[..|s| - 1];
      assert NoAdjacentDuplicates(init) by {
        forall i | 0 <= i < |init| - 1 ensures init[i] != init[i + 1] {
          assert init[i] == s[i] && init[i + 1] == s[i + 1];
        }
      }
      CollapseFixesDeduplicated(init);
      if |s| > 1 {
        assert init[|init| - 1] == s[|s| - 2];
      }
      assert s == init + [s[|s| - 1]];
    }
  }

  /** One turn of the collapse loop extends the collapsed prefix by the next token, unless it repeats. */
  lemma CollapseStep(tokens: seq<string>, i: nat)
    requires i < |tokens|
    ensures var c := Collapse(tokens[..i]);
      Collapse(tokens[..i + 1]) == if c != [] && c[|c| - 1] == tokens[i] then c else c + [tokens[i]]
  {
    assert tokens[..i + 1][..i] == tokens[..i];
  }

  lemma CollapseIdempotent(s: seq<string>)
    ensures Collapse(Collapse(s)) == Collapse(s)
  {
    CollapseFixesDeduplicated(Collapse(s));
  }

  /** The character tested by `'ऀ' <= ch <= 'ॿ'`: the Devanagari block. */
  predicate IsDevanagari(c: char) {
    '\U{900}' <= c <= '\U{97F}'
  }

  predicate HasDevanagari(w: string) {
    exists i :: 0 <= i < |w| && IsDevanagari(w[i])
  }

  /** `[w for w in collapsed if any(...)]`: the tokens with a Devanagari character, in order. */
  function DevanagariTokens(ws: seq<string>): (r: seq<string>)
    ensures forall w :: w in r <==> w in ws && HasDevanagari(w)
    ensures forall w :: multiset(r)[w] == if HasDevanagari(w) then multiset(ws)[w] else 0
  {
    if ws == [] then []
    else
      assert ws == [ws[0]] + ws[1..];
      (if HasDevanagari(ws[0]) then [ws[0]] else []) + DevanagariTokens(ws[1..])
  }

  /** `pool = dev if dev else collapsed`: the tokens that take part in the vote. */
  function VotePool(collapsed: seq<string>): (pool: seq<string>)
    ensures collapsed != [] ==> pool != []
    ensures forall w :: w in pool ==> w in collapsed
    ensures (exists w :: w in collapsed && HasDevanagari(w)) ==> forall w :: w in pool ==> HasDevanagari(w)
  {
    var dev := DevanagariTokens(collapsed);
    if dev != [] then dev else collapsed
  }

  /** How many times `Counter(pool)` counts `w`. */
  function Count(pool: seq<string>, w: string): nat {
    multiset(pool)[w]
  }

  /** `a` sorts strictly before `b` under the key `(-count, len)`. */
  predicate Beats(pool: seq<string>, a: string, b: string) {
    Count(pool, a) > Count(pool, b) || (Count(pool, a) == Count(pool, b) && |a| < |b|)
  }

  /**
   * The position, among the first `n` tokens of `pool`, of the token that
   * `sorted(Counter(pool).items(), key=lambda x: (-x[1], len(x[0])))[0][0]`
   * selects: no token beats it, and every earlier token is strictly beaten,
   * so it is the first occurrence of the first best key in `Counter`'s
   * first-occurrence order (the sort is stable).
   */
  function VoteIndex(pool: seq<string>, n: nat): (k: nat)
    requires 0 < n <= |pool|
    ensures k < n
    ensures forall j :: 0 <= j < n ==> !Beats(pool, pool[j], pool[k])
    ensures forall j :: 0 <= j < k ==> Beats(pool, pool[k], pool[j])
  {
    if n == 1 then 0
    else
      var k := VoteIndex(pool, n - 1);
      if Beats(pool, pool[n - 1], pool[k]) then n - 1 else k
  }

  /**
   * `r` wins the vote over `pool`: it is a most frequent token, the shortest
   * among the most frequent ones, and every token before its first
   * occurrence sorts strictly after it.
   */
  predicate IsVoteWinner(pool: seq<string>, r: string) {
    && r in pool
    && (forall w :: w in pool ==> Count(pool, w) <= Count(pool, r))
    && (forall w :: w in pool && Count(pool, w) == Count(pool, r) ==> |r| <= |w|)
    && (exists k :: 0 <= k < |pool| && pool[k] == r && forall j :: 0 <= j < k ==> Beats(pool, r, pool[j]))
  }

  /** The token at `VoteIndex` is the winner of the vote. */
  lemma VoteWinner(pool: seq<string>)
    requires pool != []
    ensures IsVoteWinner(pool, pool[VoteIndex(pool, |pool|)])
  {
    var k := VoteIndex(pool, |pool|);
    forall w | w in pool
      ensures Count(pool, w) <= Count(pool, pool[k])
      ensures Count(pool, w) == Count(pool, pool[k]) ==> |pool[k]| <= |w|
    {
      var j :| 0 <= j < |pool| && pool[j] == w;
      assert !Beats(pool, pool[j], pool[k]);
    }
  }

  /** The vote has one winner at most, so `IsVoteWinner` pins the result down. */
  lemma {:induction false} VoteWinnerUnique(pool: seq<string>, a: string, b: string)
    requires IsVoteWinner(pool, a) && IsVoteWinner(pool, b)
    ensures a == b
  {
    var ka :| 0 <= ka < |pool| && pool[ka] == a && forall j :: 0 <= j < ka ==> Beats(pool, a, pool[j]);
    var kb :| 0 <= kb < |pool| && pool[kb] == b && forall j :: 0 <= j < kb ==> Beats(pool, b, pool[j]);
    assert !Beats(pool, b, a) && !Beats(pool, a, b);
    assert ka >= kb && kb >= ka;
  }

  /** The stripped, danda-folded text that `_postprocess_single_word` splits into tokens. */
  function Folded(raw: string): string {
    PyStrip(ReplaceAll(PyStrip(raw), [Danda, Danda], [Danda]))
  }

  /** The tokens the vote of `_postprocess_single_word` looks at, after stripping, danda folding and collapsing. */
  function CollapsedTokens(raw: string): seq<string> {
    Collapse(Split(Folded(raw), PyWhitespace))
  }

  /** Input that is not blank keeps at least one token, and every token is a whitespace-free word. */
  lemma CollapsedTokensAreWords(raw: string)
    ensures PyStrip(raw) != [] ==> CollapsedTokens(raw) != []
    ensures forall w :: w in CollapsedTokens(raw) ==> IsWord(w, PyWhitespace)
  {
    var t := PyStrip(raw);
    CollapseKeepsOrderAndMembers(Split(Folded(raw), PyWhitespace));
    if t != [] {
      var u := ReplaceAll(t, [Danda, Danda], [Danda]);
      ReplaceKeepsHead(t, [Danda, Danda], [Danda]);
      assert !AllIn(u, PyWhitespace) by { assert u[0] !in PyWhitespace; }
    }
  }

  lemma JoinNonEmpty(parts: seq<string>, sep: string, ws: set<char>)
    requires forall p :: p in parts ==> IsWord(p, ws)
    ensures parts != [] ==> Join(sep, parts) != []
  {
    if parts != [] {
      assert parts[0] in parts;
    }
  }

  /** The last step of `_postprocess_single_word` on the collapsed tokens: join up to three, otherwise vote. */
  function Reduce(collapsed: seq<string>): (r: string)
    requires forall w :: w in collapsed ==> IsWord(w, PyWhitespace)
    ensures collapsed != [] ==> r != []
    ensures |collapsed| <= 3 ==> r == Join(" ", collapsed) && Split(r, PyWhitespace) == collapsed
    ensures |collapsed| > 3 ==> r in collapsed && IsWord(r, PyWhitespace) && IsVoteWinner(VotePool(collapsed), r)
    ensures |collapsed| > 3 && (exists w :: w in collapsed && HasDevanagari(w)) ==> HasDevanagari(r)
  {
    if |collapsed| > 3 then
      var pool := VotePool(collapsed);
      var k := VoteIndex(pool, |pool|);
      VoteWinner(pool);
      assert pool[k] in collapsed;
      assert IsWord(pool[k], PyWhitespace);
      pool[k]
    else
      JoinNonEmpty(collapsed, " ", PyWhitespace);
      SplitJoin(collapsed, ' ', PyWhitespace);
      Join(" ", collapsed)
  }

  /**
   * The value `_postprocess_single_word(raw)` returns. Blank input gives the
   * empty string; up to three collapsed tokens are joined by single spaces
   * and more than three are reduced to the winner of the vote over the
   * Devanagari tokens, or over all tokens when none is Devanagari.
   */
  function PostprocessedWord(raw: string): (r: string)
    ensures PyStrip(raw) == [] ==> r == []
    ensures PyStrip(raw) != [] ==> r != []
    ensures |CollapsedTokens(raw)| <= 3 ==> r == Join(" ", CollapsedTokens(raw)) && Split(r, PyWhitespace) == CollapsedTokens(raw)
    ensures |CollapsedTokens(raw)| > 3 ==> r in CollapsedTokens(raw) && IsWord(r, PyWhitespace)
    ensures |CollapsedTokens(raw)| > 3 ==> IsVoteWinner(VotePool(CollapsedTokens(raw)), r)
    ensures |CollapsedTokens(raw)| > 3 && (exists w :: w in CollapsedTokens(raw) && HasDevanagari(w)) ==> HasDevanagari(r)
  {
    CollapsedTokensAreWords(raw);
    if PyStrip(raw) == [] then
      assert CollapsedTokens(raw) == [];
      []
    else
      Reduce(CollapsedTokens(raw))
  }

  /** The `for tok in tokens` loop of `_postprocess_single_word`. */
  method CollapseTokens(tokens: seq<string>) returns (collapsed: seq<string>)
    ensures collapsed == Collapse(tokens)
  {
    collapsed := [];
    var i := 0;
    while i < |tokens|
      invariant 0 <= i <= |tokens|
      invariant collapsed == Collapse(tokens[..i])
    {
      var tok := tokens[i];
      CollapseStep(tokens, i);
      if collapsed == [] || collapsed[|collapsed| - 1] != tok {
        collapsed := collapsed + [tok];
      }
      i := i + 1;
    }
    assert tokens[..i] == tokens;
  }

  /** `FastEnglishTranslator._postprocess_single_word`. */
  method PostprocessSingleWord(raw: string) returns (r: string)
    ensures r == PostprocessedWord(raw)
  {
    r := PyStrip(raw);
    if r == [] {
      return r;
    }
    r := PyStrip(ReplaceAll(r, [Danda, Danda], [Danda]));
    var tokens := Split(r, PyWhitespace);
    var collapsed := CollapseTokens(tokens);
    CollapsedTokensAreWords(raw);
    r := Reduce(collapsed);
  }

  /** The keyword arguments `translate` gives the tokenizer and `generate`, with `None` entries dropped. */
  datatype DecodingParams = DecodingParams(
    inputText: string,
    inputMaxLength: int,
    maxLength: int,
    numBeams: int,
    earlyStopping: bool,
    doSample: bool,
    temperature: Option<real>,
    topP: Option<real>,
    noRepeatNgramSize: Option<int>,
    repetitionPenalty: Option<real>)

  /**
   * The `if single: ... else: ...` block of `translate`. Single-word mode
   * caps the length at 16, asks for at least 4 beams, never samples and
   * forbids repeated bigrams; otherwise the caller's values pass through and
   * sampling is on exactly when the temperature is positive.
   */
  function DecodingFor(text: string, maxLength: int, numBeams: int, temperature: real, single: bool): (p: DecodingParams)
    ensures single ==> p.maxLength <= 16 && p.maxLength <= maxLength && (maxLength <= 16 ==> p.maxLength == maxLength)
    ensures single && maxLength > 16 ==> p.maxLength == 16
    ensures single ==> p.numBeams >= 4 && p.numBeams >= numBeams && (numBeams >= 4 ==> p.numBeams == numBeams)
    ensures single && numBeams < 4 ==> p.numBeams == 4
    ensures single ==> p.noRepeatNgramSize == Some(2) && p.repetitionPenalty == Some(1.15)
    ensures single ==> p.inputText == PyStrip(text) && p.inputMaxLength == 64
    ensures !single ==> p.maxLength == maxLength && p.numBeams == numBeams && p.inputMaxLength == maxLength
    ensures !single ==> p.inputText == "English: " + text && p.noRepeatNgramSize == None && p.repetitionPenalty == None
    ensures p.doSample <==> !single && temperature > 0.0
    ensures p.temperature == (if p.doSample then Some(temperature) else None)
    ensures p.topP == (if p.doSample then Some(0.9) else None)
    ensures p.earlyStopping
  {
    if single then
      DecodingParams(PyStrip(text), 64, Min(maxLength, 16), Max(numBeams, 4), true,
                     false, None, None, Some(2), Some(1.15))
    else
      var doSample := temperature > 0.0;
      DecodingParams("English: " + text, maxLength, maxLength, numBeams, true,
                     doSample, if doSample then Some(temperature) else None,
                     if doSample then Some(0.9) else None, None, None)
  }

  /** `max(1, min(5, int(new_beams)))` in the interactive settings menu. */
  function ClampBeams(requested: int): (beams: int)
    ensures 1 <= beams <= 5
    ensures 1 <= requested <= 5 ==> beams == requested
    ensures requested < 1 ==> beams == 1
    ensures requested > 5 ==> beams == 5
  {
    Max(1, Min(5, requested))
  }

  /** What `translate` returns: `""` without a model, otherwise the result dictionary (its timing left out). */
  datatype TranslateOutput = ModelNotLoaded | Translated(translation: string, source: string, singleWordMode: bool)

  /**
   * `FastEnglishTranslator.translate`. `generate` stands for tokenizing,
   * generating and decoding with the loaded model.
   */
  method Translate(text: string, maxLength: int, numBeams: int, temperature: real, optimizeSingle: bool,
                   modelLoaded: bool, generate: DecodingParams -> string)
    returns (out: TranslateOutput)
    ensures !modelLoaded ==> out == ModelNotLoaded
    ensures modelLoaded ==> out.Translated? && out.source == text
    ensures modelLoaded ==> (out.singleWordMode <==> optimizeSingle && IsSingleWord(text))
    ensures modelLoaded ==>
      var decoded := PyStrip(generate(DecodingFor(text, maxLength, numBeams, temperature, out.singleWordMode)));
      out.translation == if out.singleWordMode then PostprocessedWord(decoded) else decoded
  {
    if !modelLoaded {
      return ModelNotLoaded;
    }
    var single := optimizeSingle && IsSingleWord(text);
    var params := DecodingFor(text, maxLength, numBeams, temperature, single);
    var translation := PyStrip(generate(params));
    if single {
      translation := PostprocessSingleWord(translation);
    }
    out := Translated(translation, text, single);
  }
}

/**
 * The bookkeeping of the BLEU comparison script: loading the models named in
 * `model_paths`, one translation per source text, the pair clean-up before
 * the metric, the choice of test data, the per-model summary and the best
 * model. Loading, generation and the metric are foreign and enter as
 * parameters; scores are abstract reals that are only compared.
 */
module BleuAnalysis {
  import opened Common
  import opened Strings

  /** What `load_models` runs into for one model path. */
  datatype LoadResult = PathMissing | TokenizerFails | ModelFails | Loaded

  /** `d[key] = value` on the key order of a dict: a new key goes last, an old key keeps its place. */
  function InsertKey(keys: seq<string>, key: string): (r: seq<string>)
    ensures forall k :: k in r <==> k in keys || k == key
    ensures key in keys ==> r == keys
  {
    if key in keys then keys else keys + [key]
  }

  /** The keys of `self.tokenizers` after `load_models` has handled `entries`. */
  function TokenizerKeys(keys: seq<string>, entries: seq<(string, string)>, load: string -> LoadResult): seq<string>
    decreases |entries|
  {
    if entries == [] then keys
    else
      var last := entries[|entries| - 1];
      var before := TokenizerKeys(keys, entries[..|entries| - 1], load);
      if load(last.1) == ModelFails || load(last.1) == Loaded then InsertKey(before, last.0) else before
  }

  /** The keys of `self.models` after `load_models` has handled `entries`. */
  function ModelKeys(keys: seq<string>, entries: seq<(string, string)>, load: string -> LoadResult): seq<string>
    decreases |entries|
  {
    if entries == [] then keys
    else
      var last := entries[|entries| - 1];
      var before := ModelKeys(keys, entries[..|entries| - 1], load);
      if load(last.1) == Loaded then InsertKey(before, last.0) else before
  }

  /** A model is stored only after its tokenizer, so every loaded model has a tokenizer. */
  lemma {:induction false} ModelsHaveTokenizers(models: seq<string>, tokenizers: seq<string>,
                                                entries: seq<(string, string)>, load: string -> LoadResult)
    requires forall m :: m in models ==> m in tokenizers
    ensures forall m :: m in ModelKeys(models, entries, load) ==> m in TokenizerKeys(tokenizers, entries, load)
    decreases |entries|
  {
    if entries != [] {
      ModelsHaveTokenizers(models, tokenizers, entries[..|entries| - 1], load);
    }
  }

  /** A model is loaded exactly when some entry naming it found its files. */
  lemma {:induction false} LoadedModelsFoundTheirFiles(entries: seq<(string, string)>, load: string -> LoadResult)
    ensures forall m :: m in ModelKeys([], entries, load) ==>
      exists i :: 0 <= i < |entries| && entries[i].0 == m && load(entries[i].1) == Loaded
    ensures forall i :: 0 <= i < |entries| && load(entries[i].1) == Loaded ==> entries[i].0 in ModelKeys([], entries, load)
    decreases |entries|
  {
    if entries != [] {
      var init := entries[..|entries| - 1];
      LoadedModelsFoundTheirFiles(init, load);
      forall m | m in ModelKeys([], entries, load)
        ensures exists i :: 0 <= i < |entries| && entries[i].0 == m && load(entries[i].1) == Loaded
      {
        if m in ModelKeys([], init, load) {
          var i :| 0 <= i < |init| && init[i].0 == m && load(init[i].1) == Loaded;
          assert entries[i] == init[i];
        } else {
          assert entries[|entries| - 1].0 == m;
        }
      }
      forall i | 0 <= i < |entries| && load(entries[i].1) == Loaded
        ensures entries[i].0 in ModelKeys([], entries, load)
      {
        if i < |init| {
          assert init[i] == entries[i];
          assert entries[i].0 in ModelKeys([], init, load);
        }
      }
    }
  }

  /** `s.strip()` is falsy: `s` is whitespace only. */
  predicate Blank(s: string) {
    AllIn(s, PyWhitespace)
  }

  lemma BlankIsEmptyStrip(s: string)
    ensures Blank(s) <==> PyStrip(s) == []
  {
  }

  /** The indices `i < n` whose prediction and reference are both non-blank, in increasing order. */
  function KeptIndices(predictions: seq<string>, references: seq<string>, n: nat): (ks: seq<nat>)
    requires n <= |predictions| && n <= |references|
    ensures forall j :: 0 <= j < |ks| ==> ks[j] < n
    ensures forall j, k :: 0 <= j < k < |ks| ==> ks[j] < ks[k]
    decreases n
  {
    if n == 0 then []
    else
      var before := KeptIndices(predictions, references, n - 1);
      if !Blank(predictions[n - 1]) && !Blank(references[n - 1]) then before + [n - 1] else before
  }

  /** An index below `n` is kept exactly when neither its prediction nor its reference is blank. */
  lemma {:induction false} KeptIndicesAreNonBlank(predictions: seq<string>, references: seq<string>, n: nat)
    requires n <= |predictions| && n <= |references|
    ensures forall i :: 0 <= i < n ==>
      (i in KeptIndices(predictions, references, n) <==> !Blank(predictions[i]) && !Blank(references[i]))
    decreases n
  {
    if n > 0 {
      KeptIndicesAreNonBlank(predictions, references, n - 1);
      var before := KeptIndices(predictions, references, n - 1);
      assert n - 1 !in before;
      forall i | 0 <= i < n
        ensures i in KeptIndices(predictions, references, n) <==> !Blank(predictions[i]) && !Blank(references[i])
      {
        if !Blank(predictions[n - 1]) && !Blank(references[n - 1]) {
          assert KeptIndices(predictions, references, n) == before + [n - 1];
        }
      }
    }
  }

  /** When no pair is blank, every index is kept. */
  lemma {:induction false} KeptEverything(predictions: seq<string>, references: seq<string>, n: nat)
    requires n <= |predictions| && n <= |references|
    requires forall i :: 0 <= i < n ==> !Blank(predictions[i]) && !Blank(references[i])
    ensures |KeptIndices(predictions, references, n)| == n
    decreases n
  {
    if n > 0 {
      KeptEverything(predictions, references, n - 1);
    }
  }

  /** The pairs `zip` visits: as many as the shorter list has. */
  function ZipLength(predictions: seq<string>, references: seq<string>): nat {
    Min(|predictions|, |references|)
  }

  /** The stripped texts at the indices `ks`. */
  function StrippedAt(texts: seq<string>, ks: seq<nat>): seq<string>
    requires forall j :: 0 <= j < |ks| ==> ks[j] < |texts|
  {
    seq(|ks|, j requires 0 <= j < |ks| => PyStrip(texts[ks[j]]))
  }

  /** The one-element reference lists of the stripped texts at the indices `ks`. */
  function WrappedAt(texts: seq<string>, ks: seq<nat>): seq<seq<string>>
    requires forall j :: 0 <= j < |ks| ==> ks[j] < |texts|
  {
    seq(|ks|, j requires 0 <= j < |ks| => [PyStrip(texts[ks[j]])])
  }

  /** The cleaned predictions: the stripped predictions at the kept indices. */
  function CleanPredictions(predictions: seq<string>, references: seq<string>): seq<string> {
    StrippedAt(predictions, KeptIndices(predictions, references, ZipLength(predictions, references)))
  }

  /** The cleaned references: the stripped references at the kept indices, each as a one-element list. */
  function CleanReferences(predictions: seq<string>, references: seq<string>): seq<seq<string>> {
    WrappedAt(references, KeptIndices(predictions, references, ZipLength(predictions, references)))
  }

  lemma StrippedAppend(texts: seq<string>, ks: seq<nat>, i: nat)
    requires forall j :: 0 <= j < |ks| ==> ks[j] < |texts|
    requires i < |texts|
    ensures StrippedAt(texts, ks + [i]) == StrippedAt(texts, ks) + [PyStrip(texts[i])]
    ensures WrappedAt(texts, ks + [i]) == WrappedAt(texts, ks) + [[PyStrip(texts[i])]]
  {
    var ks' := ks + [i];
    assert forall j :: 0 <= j < |ks| ==> ks'[j] == ks[j];
  }

  /**
   * The predictions the clean-up loop has kept after its first `n` turns,
   * with `strip` standing for `str.strip`.
   */
  function PredictionsKeptUpTo(strip: string -> string, predictions: seq<string>, references: seq<string>, n: nat)
    : seq<string>
    requires n <= |predictions| && n <= |references|
  {
    if n == 0 then []
    else
      var pred := strip(predictions[n - 1]);
      PredictionsKeptUpTo(strip, predictions, references, n - 1)
        + if pred != [] && strip(references[n - 1]) != [] then [pred] else []
  }

  /** The reference lists the clean-up loop has kept after its first `n` turns. */
  function ReferencesKeptUpTo(strip: string -> string, predictions: seq<string>, references: seq<string>, n: nat)
    : seq<seq<string>>
    requires n <= |predictions| && n <= |references|
  {
    if n == 0 then []
    else
      var ref := strip(references[n - 1]);
      ReferencesKeptUpTo(strip, predictions, references, n - 1)
        + if strip(predictions[n - 1]) != [] && ref != [] then [[ref]] else []
  }

  /** One turn of the clean-up loop appends the pair at `i` exactly when both its texts strip to something. */
  lemma KeptUpToStep(strip: string -> string, predictions: seq<string>, references: seq<string>, i: nat)
    requires i < |predictions| && i < |references|
    ensures var kept := strip(predictions[i]) != [] && strip(references[i]) != [];
      && PredictionsKeptUpTo(strip, predictions, references, i + 1)
         == PredictionsKeptUpTo(strip, predictions, references, i) + (if kept then [strip(predictions[i])] else [])
      && ReferencesKeptUpTo(strip, predictions, references, i + 1)
         == ReferencesKeptUpTo(strip, predictions, references, i) + (if kept then [[strip(references[i])]] else [])
  {
  }

  /**
   * What the clean-up loop keeps after `n` turns is the stripped pairs at
   * exactly the indices below `n` where neither text is blank.
   */
  lemma {:induction false} KeptUpToIsKeptIndices(predictions: seq<string>, references: seq<string>, n: nat)
    requires n <= |predictions| && n <= |references|
    ensures PredictionsKeptUpTo(PyStrip, predictions, references, n)
         == StrippedAt(predictions, KeptIndices(predictions, references, n))
    ensures ReferencesKeptUpTo(PyStrip, predictions, references, n)
         == WrappedAt(references, KeptIndices(predictions, references, n))
    decreases n
  {
    if n > 0 {
      var i := n - 1;
      KeptUpToIsKeptIndices(predictions, references, i);
      KeptUpToStep(PyStrip, predictions, references, i);
      var before := KeptIndices(predictions, references, i);
      BlankIsEmptyStrip(predictions[i]);
      BlankIsEmptyStrip(references[i]);
      if !Blank(predictions[i]) && !Blank(references[i]) {
        assert KeptIndices(predictions, references, n) == before + [i];
        StrippedAppend(predictions, before, i);
        StrippedAppend(references, before, i);
      } else {
        assert KeptIndices(predictions, references, n) == before;
      }
    }
  }

  /** Every cleaned pair is stripped and non-empty, and the two lists stay aligned. */
  lemma CleanedPairsAreUsable(predictions: seq<string>, references: seq<string>)
    ensures var ps := CleanPredictions(predictions, references);
            var rs := CleanReferences(predictions, references);
      && |ps| == |rs| <= ZipLength(predictions, references)
      && forall j :: 0 <= j < |ps| ==>
           ps[j] != [] && Trimmed(ps[j], PyWhitespace) && |rs[j]| == 1 && rs[j][0] != [] && Trimmed(rs[j][0], PyWhitespace)
  {
    var n := ZipLength(predictions, references);
    var ks := KeptIndices(predictions, references, n);
    KeptIndicesBound(ks, n);
    KeptIndicesAreNonBlank(predictions, references, n);
    var ps := CleanPredictions(predictions, references);
    var rs := CleanReferences(predictions, references);
    forall j | 0 <= j < |ps|
      ensures ps[j] != [] && Trimmed(ps[j], PyWhitespace) && rs[j][0] != [] && Trimmed(rs[j][0], PyWhitespace)
    {
      assert ks[j] in ks;
      BlankIsEmptyStrip(predictions[ks[j]]);
      BlankIsEmptyStrip(references[ks[j]]);
    }
  }

  /** An increasing sequence of indices below `n` has at most `n` elements. */
  lemma {:induction false} KeptIndicesBound(ks: seq<nat>, n: nat)
    requires forall j :: 0 <= j < |ks| ==> ks[j] < n
    requires forall j, k :: 0 <= j < k < |ks| ==> ks[j] < ks[k]
    ensures |ks| <= n
    decreases n
  {
    if ks != [] {
      var init := ks[..|ks| - 1];
      assert forall j :: 0 <= j < |init| ==> init[j] < ks[|ks| - 1];
      KeptIndicesBound(init, ks[|ks| - 1]);
    }
  }

  /** The stripped sample sources, one per line of the script. */
  const SampleSources: seq<string> := [
    "Hello, how are you?",
    "What is your name?",
    "I am learning Sanskrit and Hindi.",
    "Thank you very much.",
    "Good morning, have a nice day!"
  ]

  const SampleReferences: seq<string> := [
    "नमस्ते, आप कैसे हैं?",
    "आपका नाम क्या है?",
    "मैं संस्कृत और हिंदी सीख रहा हूँ।",
    "बहुत धन्यवाद।",
    "सुप्रभात, आपका दिन अच्छा बीते!"
  ]

  datatype TestData = TestData(sources: seq<string>, references: seq<string>)

  /**
   * `load_test_data`. A missing or empty path, or one that does not exist,
   * gives the sample pairs; `readJson` and `readCsv` stand for reading the
   * `source`/`target` lists of an existing file.
   */
  function LoadTestData(path: Option<string>, pathExists: string -> bool,
                        readJson: string -> TestData, readCsv: string -> TestData): (d: TestData)
    ensures !(path.Some? && path.value != [] && pathExists(path.value)) ==> d == TestData(SampleSources, SampleReferences)
    ensures path.Some? && path.value != [] && pathExists(path.value) ==>
      d == if EndsWith(path.value, ".json") then readJson(path.value)
           else if EndsWith(path.value, ".csv") then readCsv(path.value)
           else TestData([], [])
  {
    if path.Some? && path.value != [] && pathExists(path.value) then
      var p := path.value;
      if EndsWith(p, ".json") then readJson(p)
      else if EndsWith(p, ".csv") then readCsv(p)
      else TestData([], [])
    else TestData(SampleSources, SampleReferences)
  }

  /** The sample pairs are five aligned, non-blank pairs, so none of them is dropped before the metric. */
  lemma SampleDataIsClean(predictions: seq<string>)
    requires |predictions| == 5
    requires forall i :: 0 <= i < 5 ==> !Blank(predictions[i])
    ensures |SampleSources| == |SampleReferences| == 5
    ensures |CleanPredictions(predictions, SampleReferences)| == 5
  {
    forall i | 0 <= i < 5
      ensures !Blank(SampleReferences[i])
    {
      assert SampleReferences[i][0] !in PyWhitespace;
    }
    KeptEverything(predictions, SampleReferences, 5);
  }

  /** One row of the summary of `evaluate_models`. */
  datatype ModelSummary = ModelSummary(modelName: string, bleuScore: real, numSamples: nat)

  /**
   * `max(results.items(), key=...)` of `print_comparison`: the first row
   * with the highest score; `None` where `max` of an empty dict raises.
   */
  function BestModel(results: seq<ModelSummary>): (best: Option<nat>)
    ensures best.None? <==> results == []
    ensures best.Some? ==> best.value < |results|
    ensures best.Some? ==> forall j :: 0 <= j < |results| ==> results[j].bleuScore <= results[best.value].bleuScore
    ensures best.Some? ==> forall j :: 0 <= j < best.value ==> results[j].bleuScore < results[best.value].bleuScore
    decreases |results|
  {
    if results == [] then None
    else
      var init := results[..|results| - 1];
      var b := BestModel(init);
      if b.None? then Some(|results| - 1)
      else if results[|results| - 1].bleuScore > results[b.value].bleuScore then Some(|results| - 1)
      else
        assert forall j :: 0 <= j < |init| ==> results[j] == init[j];
        b
  }

  /** The predictions `generate_translations` returns for a loaded model: `""` where generation raised. */
  function TranslationsOf(modelName: string, sources: seq<string>, translate: (string, string) -> Option<string>)
    : seq<string>
  {
    seq(|sources|, i requires 0 <= i < |sources| =>
      match translate(modelName, sources[i]) case Some(t) => t case None => "")
  }

  /** The `"bleu"` entry `calculate_bleu_score` returns for the given lists. */
  function BleuOf(predictions: seq<string>, references: seq<string>,
                  metric: (seq<string>, seq<seq<string>>) -> real): real
  {
    var ps := CleanPredictions(predictions, references);
    if ps == [] then 0.0 else metric(ps, CleanReferences(predictions, references))
  }

  /** The calculator, with the key lists of its `models` and `tokenizers` dicts. */
  class BleuCalculator {
    const modelPaths: seq<(string, string)>
    var models: seq<string>
    var tokenizers: seq<string>

    /** Every model name has its tokenizer: `generate_translations` looks both up. */
    predicate Valid()
      reads this
    {
      forall m :: m in models ==> m in tokenizers
    }

    constructor (modelPaths: seq<(string, string)>)
      ensures this.modelPaths == modelPaths && models == [] && tokenizers == [] && Valid()
    {
      this.modelPaths := modelPaths;
      models := [];
      tokenizers := [];
    }

    /** `load_models`, with `load` telling what loading from each path runs into. */
    method LoadModels(load: string -> LoadResult)
      requires Valid()
      modifies this
      ensures models == ModelKeys(old(models), modelPaths, load)
      ensures tokenizers == TokenizerKeys(old(tokenizers), modelPaths, load)
      ensures Valid()
    {
      var i := 0;
      while i < |modelPaths|
        invariant 0 <= i <= |modelPaths|
        invariant models == ModelKeys(old(models), modelPaths[..i], load)
        invariant tokenizers == TokenizerKeys(old(tokenizers), modelPaths[..i], load)
      {
        var (name, path) := modelPaths[i];
        assert modelPaths[..i + 1][..i] == modelPaths[..i];
        var result := load(path);
        if result != PathMissing && result != TokenizerFails {
          tokenizers := InsertKey(tokenizers, name);
          if result == Loaded {
            models := InsertKey(models, name);
          }
        }
        i := i + 1;
      }
      assert modelPaths[..i] == modelPaths;
      ModelsHaveTokenizers(old(models), old(tokenizers), modelPaths, load);
    }

    /**
     * `generate_translations`: `translate(model, text)` is the decoded
     * output, `None` where generation raised.
     */
    method GenerateTranslations(modelName: string, sources: seq<string>,
                                translate: (string, string) -> Option<string>)
      returns (translations: seq<string>)
      requires Valid()
      ensures modelName !in models ==> translations == []
      ensures modelName in models ==> |translations| == |sources|
      ensures modelName in models ==> forall i :: 0 <= i < |sources| ==>
        translations[i] == match translate(modelName, sources[i]) case Some(t) => t case None => ""
      ensures modelName in models ==> translations == TranslationsOf(modelName, sources, translate)
    {
      if modelName !in models {
        return [];
      }
      translations := [];
      var i := 0;
      while i < |sources|
        invariant 0 <= i <= |sources|
        invariant |translations| == i
        invariant forall j :: 0 <= j < i ==>
          translations[j] == match translate(modelName, sources[j]) case Some(t) => t case None => ""
      {
        match translate(modelName, sources[i]) {
          case Some(t) => translations := translations + [t];
          case None => translations := translations + [""];
        }
        i := i + 1;
      }
    }

    /**
     * The clean-up loop of `calculate_bleu_score`: a pair is kept, stripped,
     * when neither text strips to the empty string.
     */
    method CleanPairs(predictions: seq<string>, references: seq<string>)
      returns (cleanedPredictions: seq<string>, cleanedReferences: seq<seq<string>>)
      ensures cleanedPredictions == CleanPredictions(predictions, references)
      ensures cleanedReferences == CleanReferences(predictions, references)
    {
      cleanedPredictions, cleanedReferences := CleanPairsWith(PyStrip, predictions, references);
      KeptUpToIsKeptIndices(predictions, references, ZipLength(predictions, references));
    }

    /** The clean-up loop itself, for any `strip`. */
    method CleanPairsWith(strip: string -> string, predictions: seq<string>, references: seq<string>)
      returns (cleanedPredictions: seq<string>, cleanedReferences: seq<seq<string>>)
      ensures cleanedPredictions == PredictionsKeptUpTo(strip, predictions, references, ZipLength(predictions, references))
      ensures cleanedReferences == ReferencesKeptUpTo(strip, predictions, references, ZipLength(predictions, references))
    {
      var n := ZipLength(predictions, references);
      cleanedPredictions := [];
      cleanedReferences := [];
      var i := 0;
      while i < n
        invariant 0 <= i <= n
        invariant cleanedPredictions == PredictionsKeptUpTo(strip, predictions, references, i)
        invariant cleanedReferences == ReferencesKeptUpTo(strip, predictions, references, i)
      {
        var pred := strip(predictions[i]);
        var ref := strip(references[i]);
        if pred != [] && ref != [] {
          cleanedPredictions := cleanedPredictions + [pred];
          cleanedReferences := cleanedReferences + [[ref]];
        }
        i := i + 1;
      }
    }

    /** `calculate_bleu_score(...)["bleu"]`: 0.0 without the metric when no pair survives. */
    method CalculateBleuScore(predictions: seq<string>, references: seq<string>,
                              metric: (seq<string>, seq<seq<string>>) -> real)
      returns (bleu: real)
      ensures CleanPredictions(predictions, references) == [] ==> bleu == 0.0
      ensures CleanPredictions(predictions, references) != [] ==>
        bleu == metric(CleanPredictions(predictions, references), CleanReferences(predictions, references))
    {
      var ps, rs := CleanPairs(predictions, references);
      if ps == [] {
        return 0.0;
      }
      bleu := metric(ps, rs);
    }

    /**
     * `evaluate_models` on the loaded test data: `None` for missing test data
     * (the early return), otherwise one summary row per loaded model, in the
     * order the models were loaded.
     */
    method EvaluateModels(data: TestData, translate: (string, string) -> Option<string>,
                          metric: (seq<string>, seq<seq<string>>) -> real)
      returns (summary: Option<seq<ModelSummary>>)
      requires Valid()
      ensures data.sources == [] || data.references == [] ==> summary.None?
      ensures data.sources != [] && data.references != [] ==>
        summary.Some? && |summary.value| == |models| &&
        forall i :: 0 <= i < |models| ==>
          summary.value[i].modelName == models[i] && summary.value[i].numSamples == |data.sources|
          && summary.value[i].bleuScore == BleuOf(TranslationsOf(models[i], data.sources, translate), data.references, metric)
    {
      if data.sources == [] || data.references == [] {
        return None;
      }
      var rows: seq<ModelSummary> := [];
      var i := 0;
      while i < |models|
        invariant 0 <= i <= |models|
        invariant |rows| == i
        invariant forall j :: 0 <= j < i ==>
          && rows[j].modelName == models[j] && rows[j].numSamples == |data.sources|
          && rows[j].bleuScore == BleuOf(TranslationsOf(models[j], data.sources, translate), data.references, metric)
      {
        var name := models[i];
        var predictions := GenerateTranslations(name, data.sources, translate);
        var bleu := CalculateBleuScore(predictions, data.references, metric);
        rows := rows + [ModelSummary(name, bleu, |predictions|)];
        i := i + 1;
      }
      summary := Some(rows);
    }
  }
}

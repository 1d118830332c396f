# English–Sanskrit translation server and practice pages: a Dafny model

This project models the decision and state logic of a language-learning
application. Its server translates English into Sanskrit using a hosted
generative model or one of two local models, and measures the local models
with BLEU. Its front end has flashcard and grammar-quiz pages. The modules
follow the program's components:

- `MbartInference` covers the mBART translator's single-word logic. It
  detects a single word, cleans up a single-word output (danda folding,
  collapsing repeated tokens, a frequency vote that prefers Devanagari
  tokens) and chooses the decoding parameters. It also has the beam-count
  clamp of the interactive settings.
- `ChildProcess` covers a translation run as a Python child process, seen
  from Node:
  - the `data` callbacks that collect stdout and stderr;
  - the `close` callback that removes the scratch script and settles the
    promise from the exit code and the output;
  - the `error` callback;
  - the synchronous launch calls before it (`mkdirSync`, `writeFileSync`,
    `spawn`), any of which can throw and reject the promise at once.

  The process is a sequence of events, and the promise settles once, with
  its first outcome.
- `FileSys` covers the file system as the set of paths that exist.
- `LocalModel` covers the `LocalModelService`:
  - the three-way dispatch;
  - the model v2 and model v3 scripts and their callback rules;
  - the v3 folder check;
  - the Gemini prompt and the wrapping of its failure;
  - the two availability checks.
- `PythonModel` covers the `PythonModelService`, the older script runner.
  Its callback rules are different.
- `TranslatorController` covers:
  - the validation chain of the translation endpoint and its 400, 500 and
    success responses;
  - the method list;
  - the server-sent-event framing of a text stream.

  The framing is proved to round-trip through an event-stream reader.
- `Json` covers `JSON.stringify` on a string (section 25.5.2 of ECMAScript
  2024, QuoteJSONString) and the matching decoder.
- `BleuAnalysis` covers the bookkeeping of the BLEU comparison script:
  model loading, one translation per source, pair clean-up before the
  metric, the choice of test data, the per-model summary and the best model.
- `Flashcards`, `Grammar` and `Scoring` cover the flashcard and grammar-quiz
  pages. Each page is a class whose fields are the page's state cells and
  whose methods are its event handlers. Each handler is tied to a pure
  transition function, and the invariants the page relies on are proved
  about those functions.

Foreign code enters as parameters. These are the model's `generate`, the
Gemini call, the BLEU metric, the availability results, the clock's
timestamp and the child process's events. `Strings` holds the helpers both
languages need:
- the whitespace sets of Python's `str.strip`/`str.split` and of
  JavaScript's `String.prototype.trim`;
- strip, split, join and replace.

## Model

| member | source | states |
|---|---|---|
| MbartInference.IsSingleWord | ai-server/mbart_inference.py:70-75 | true exactly when the stripped text is non-empty, has no whitespace (so it splits into one part) and is at most 40 characters long |
| MbartInference.Collapse | ai-server/mbart_inference.py:83-86 | the collapsed list has no two equal adjacent tokens and ends with the last input token |
| MbartInference.CollapseKeepsOrderAndMembers | ai-server/mbart_inference.py:82-86 | the collapsed list is a subsequence of the tokens, in order, and contains exactly the distinct tokens of the input |
| MbartInference.CollapseFixesDeduplicated | ai-server/mbart_inference.py:83-86 | a list without adjacent duplicates is left unchanged by the collapse |
| MbartInference.CollapseIdempotent | ai-server/mbart_inference.py:83-86 | collapsing twice is collapsing once |
| MbartInference.CollapseTokens | ai-server/mbart_inference.py:83-86 | the appending loop builds exactly the collapsed list |
| MbartInference.DevanagariTokens | ai-server/mbart_inference.py:88 | keeps exactly the tokens with a character in U+0900..U+097F, with their multiplicities |
| MbartInference.VotePool | ai-server/mbart_inference.py:89 | the pool is non-empty for non-empty input, is drawn from the collapsed tokens, and holds only Devanagari tokens when any token is Devanagari |
| MbartInference.VoteIndex | ai-server/mbart_inference.py:90-91 | the chosen position is beaten by no token under the key (-count, length), and strictly beats every earlier position |
| MbartInference.VoteWinner | ai-server/mbart_inference.py:90-92 | the token at VoteIndex wins the vote: no token is more frequent, none of equal count is shorter, and every token before its first occurrence is strictly beaten |
| MbartInference.VoteWinnerUnique | ai-server/mbart_inference.py:90-92 | at most one token wins the vote, so the winner is fully determined |
| MbartInference.CollapsedTokensAreWords | ai-server/mbart_inference.py:78-86 | input that is not blank keeps at least one token, and every token is a non-empty whitespace-free word |
| MbartInference.Reduce | ai-server/mbart_inference.py:87-93 | up to three tokens come back joined by single spaces, so splitting the result gives them back; more than three give the winner of the vote over the Devanagari tokens, or over all tokens when none is Devanagari |
| MbartInference.PostprocessedWord | ai-server/mbart_inference.py:77-93 | blank input gives the empty string and other input a non-empty result; up to three collapsed tokens are joined by single spaces, and more than three give the winner of the vote over the Devanagari tokens, or over all tokens when none is Devanagari |
| MbartInference.PostprocessSingleWord | ai-server/mbart_inference.py:77-93 | the imperative pipeline returns the value specified by PostprocessedWord |
| MbartInference.DecodingFor | ai-server/mbart_inference.py:108-148 | single-word mode has length min(max_length, 16), beams max(num_beams, 4), no sampling, no-repeat size 2, penalty 1.15 and the stripped text with input length 64; otherwise the values pass through, the input is prefixed with "English: ", and sampling with top_p 0.9 is on exactly when the temperature is positive |
| MbartInference.ClampBeams | ai-server/mbart_inference.py:209 | the beam count lies in [1, 5], keeps a value already in range, and is 1 below the range and 5 above it |
| MbartInference.Translate | ai-server/mbart_inference.py:95-163 | without a model the result is the empty-string case; otherwise single-word mode is on exactly when requested and the text is a single word, and the translation is the stripped decoder output, post-processed in single-word mode |
| Strings.Strip | ai-server/mbart_inference.py:71 | the result is a slice of the input whose removed prefix and suffix are whitespace only; it is trimmed, empty exactly when the input is whitespace only, and trimmed input comes back unchanged |
| Strings.StripIdempotent | ai-server/mbart_inference.py:81 | stripping twice is stripping once |
| Strings.Split | ai-server/mbart_inference.py:74 | every part is a non-empty whitespace-free word, and there are no parts exactly when the text is whitespace only |
| Strings.SplitConcat | ai-server/mbart_inference.py:74 | the parts, concatenated in order, are the input with its whitespace deleted |
| Strings.SplitOneIff | ai-server/mbart_inference.py:74-75 | a text splits into one part exactly when it is non-empty and has no whitespace |
| Strings.SplitJoin | ai-server/mbart_inference.py:93 | splitting words joined by a whitespace separator gives the words back |
| Strings.ReplaceKeepsHead | ai-server/mbart_inference.py:81 | replacing the double danda keeps the first character of a non-empty text |
| FileSys.Unlinked | ai-server/services/localModel.js:253-257 | an existing path is removed and nothing else is; a missing path or a refused unlink changes nothing |
| FileSys.FileSystem.constructor | ai-server/services/localModel.js:98-99 | the file system starts with the given paths |
| FileSys.FileSystem.MakeDirectory | ai-server/services/localModel.js:99-101 | a call that does not throw leaves the directory existing; a call that throws changes nothing; no other path changes |
| FileSys.FileSystem.WriteFile | ai-server/services/localModel.js:231 | a call that does not throw leaves the file existing; a call that throws changes nothing; no other path changes |
| FileSys.FileSystem.Unlink | ai-server/services/localModel.js:253-257 | succeeds exactly when the path existed and the unlink was not refused, and leaves the paths given by Unlinked |
| ChildProcess.CloseOutcome | ai-server/services/localModel.js:252-279 | exit code 0 resolves with the trimmed stdout unless it starts with the error prefix, in which case that trimmed text is the rejection; any other exit, including a signal, rejects with the failure prefix and stderr, or the stand-in text when stderr is empty |
| ChildProcess.StartFailure | ai-server/services/localModel.js:281-283 | a spawn error rejects with the start-failure prefix followed by the error's message |
| ChildProcess.Settle | ai-server/services/localModel.js:123-144 | a promise that has settled keeps its first outcome; a pending one takes the new outcome |
| ChildProcess.ReplayCollectsOutput | ai-server/services/localModel.js:241-250 | after any events, stdout and stderr are the concatenation of their chunks in order |
| ChildProcess.SettledIsFinal | ai-server/services/localModel.js:252-283 | once settled, no later callback changes the outcome |
| ChildProcess.PendingUntilSettled | ai-server/services/localModel.js:241-250 | data chunks alone leave the promise pending and remove no file |
| ChildProcess.FirstSettlementWins | ai-server/services/localModel.js:241-283 | the promise settles with the outcome of the first close or error callback, decided on the output received before it |
| ChildProcess.UnlinkFailureIsHarmless | ai-server/services/localModel.js:253-257 | a failure to remove the scratch script changes neither the outcome nor the collected output |
| ChildProcess.ScriptRemovedOnClose | ai-server/services/localModel.js:252-257 | the callbacks remove nothing but the scratch script, and a close whose unlink succeeds leaves it removed |
| ChildProcess.LaunchFailure | ai-server/services/localModel.js:225-239 | the promise rejects at launch exactly when `mkdirSync` throws on a missing temp folder, `writeFileSync` throws or `spawn` throws, with the message of the first of them to throw |
| ChildProcess.LaunchPaths | ai-server/services/localModel.js:225-231 | after the launch calls the temp folder exists unless creating it threw, the script exists once it was written, and no other path is added |
| ChildProcess.ScriptRun | ai-server/services/localModel.js:225-283 | nothing is spawned exactly when a launch call throws, and then the promise rejects with its message; otherwise `python` gets exactly the given arguments and the callbacks decide the outcome and the final paths |
| ChildProcess.SpawnThrowLeavesScript | ai-server/services/localModel.js:231-232 | a `spawn` that throws rejects with its message and leaves the written script on disk, since no close callback runs |
| ChildProcess.SpawnedRunRemovesScript | ai-server/services/localModel.js:252-257 | when the process is spawned and a close removes the script, the run ends with the temp folder and without the script |
| ChildProcess.PendingTranslation.constructor | ai-server/services/localModel.js:241-242 | empty stdout and stderr, a pending promise |
| ChildProcess.PendingTranslation.OnStdout | ai-server/services/localModel.js:244-246 | the chunk is appended to stdout, and nothing else changes |
| ChildProcess.PendingTranslation.OnStderr | ai-server/services/localModel.js:248-250 | the chunk is appended to stderr, and nothing else changes |
| ChildProcess.PendingTranslation.OnClose | ai-server/services/localModel.js:252-279 | the script is unlinked, with a failure swallowed, and the promise settles by CloseOutcome unless already settled |
| ChildProcess.PendingTranslation.OnError | ai-server/services/localModel.js:281-283 | the promise settles by StartFailure unless already settled |
| ChildProcess.PendingTranslation.Deliver | ai-server/services/localModel.js:241-283 | running the callbacks one at a time gives the state of the event replay |
| LocalModel.Dispatch | ai-server/services/localModel.js:15-23 | "local" goes to model v2 and "modelv3" to model v3; everything else, including an omitted method, goes to the API |
| LocalModel.V2CloseOutcomes | ai-server/services/localModel.js:259-278 | model v2: "Model Error:" output rejects with that text, other output resolves with method "local", and a failed exit rejects with "Translation failed: " and stderr or "Unknown error" |
| LocalModel.V3CloseOutcomes | ai-server/services/localModel.js:125-139 | model v3: "ModelV3 Error:" output rejects with that text, other output resolves with method "modelv3", and a failed exit rejects with "ModelV3 translation failed: " and stderr or "Unknown error" |
| LocalModel.ApiPrompt | ai-server/services/localModel.js:288 | the prompt is the fixed instruction, then the text between double quotes, and nothing else |
| LocalModel.ApiOutcome | ai-server/services/localModel.js:287-303 | a reply resolves with its text and method "api"; a failure rejects with "API translation failed: " and its message |
| LocalModel.ModelV2Available | ai-server/services/localModel.js:306-316 | true exactly when both config.json and model.safetensors exist under the model path |
| LocalModel.ModelV3Available | ai-server/services/localModel.js:318-333 | true exactly when the v3 folder and each of its four required files exist |
| LocalModel.AvailableV3HasFolder | ai-server/services/localModel.js:318-333 | a v3 model that passes the availability check also passes the folder check of the v3 translation |
| LocalModel.LocalModelService.constructor | ai-server/services/localModel.js:10-13 | the model path is the modelv2 folder of the server directory |
| LocalModel.LocalModelService.RunScript | ai-server/services/localModel.js:225-283 | the outcome and the final paths are those of ScriptRun: the first launch call that throws rejects with its error and nothing is spawned; otherwise `python` runs on the given arguments and the callbacks decide |
| LocalModel.LocalModelService.TranslateWithModelV3 | ai-server/services/localModel.js:24-145 | a missing v3 folder rejects with "Model v3 folder not found: " and the path, and nothing is written or spawned; otherwise the v3 script runs on the text and the folder under the v3 callback rule, unless a launch call throws |
| LocalModel.LocalModelService.TranslateWithLocalModel | ai-server/services/localModel.js:148-284 | the v2 script runs on the text and the model path under the v2 callback rule, unless a launch call throws, which rejects with its error |
| LocalModel.LocalModelService.TranslateText | ai-server/services/localModel.js:15-23 | each route runs only its own translation; the API route touches no file and spawns nothing |
| PythonModel.PythonCloseOutcomes | ai-server/services/pythonModel.js:87-98 | exit code 0 always resolves with the trimmed stdout and method "local"; any other exit rejects with "Translation failed: " and stderr as it is, even when empty |
| PythonModel.ExitZeroOutcomes | ai-server/services/pythonModel.js:87-94 | on exit code 0 this service resolves with the trimmed stdout whatever it says, while the v2 service rejects exactly when that text starts with "Model Error:" and otherwise gives the same result |
| PythonModel.PythonModelService.constructor | ai-server/services/pythonModel.js:10-12 | the model path is the modelv2 folder of the server directory |
| PythonModel.PythonModelService.TranslateWithPythonModel | ai-server/services/pythonModel.js:60-104 | the outcome and the final paths are those of ScriptRun under this service's rule: a throwing launch call rejects with its error and spawns nothing; otherwise `python` gets exactly the script, the text and the model path |
| Json.HexDigit | ai-server/controller/translator.controller.js:84 | the digit decodes back to its value |
| Json.Quote | ai-server/controller/translator.controller.js:84 | the literal begins and ends with a double quote |
| Json.UnescapeEscaped | ai-server/controller/translator.controller.js:84 | decoding the escaped body gives the string back |
| Json.QuoteRoundTrip | ai-server/controller/translator.controller.js:84 | parsing the output of `JSON.stringify` gives the string back |
| Json.QuoteHasNoNewline | ai-server/controller/translator.controller.js:84 | a quoted string has no line feed, so a frame's payload stays on one line |
| TranslatorController.Rejection | ai-server/controller/translator.controller.js:92-112 | a missing or empty text is refused first, then an invalid method (an omitted one defaults to "api"); a request passes exactly when the text is present, the method is valid and its model is available; every refusal is a 400 |
| TranslatorController.HandleTranslate | ai-server/controller/translator.controller.js:90-130 | a refused request gets its 400; a success carries the request text, the service result and the timestamp; a failure is a 500 "Translation failed" with the service's message |
| TranslatorController.RejectedRequestSkipsService | ai-server/controller/translator.controller.js:93-112 | the response to a refused request does not depend on the translation service |
| TranslatorController.SuccessfulRequest | ai-server/controller/translator.controller.js:98-121 | a success comes from a valid method whose model is available, and the service routes it to the matching model |
| TranslatorController.Availability | ai-server/controller/translator.controller.js:134-148 | a check counts as available exactly when it returned true; a throwing check counts as false |
| TranslatorController.TranslationMethods | ai-server/controller/translator.controller.js:150-169 | three entries in the order api, local, modelv3; api is always available and the other two mirror their checks |
| TranslatorController.MethodsMatchValidation | ai-server/controller/translator.controller.js:150-169 | the list offers exactly the methods the translation endpoint accepts, and marks one available exactly when a request for it passes validation |
| TranslatorController.Frames | ai-server/controller/translator.controller.js:82-85 | one frame per chunk, in order, each "data: " followed by the JSON of the chunk and a blank line |
| TranslatorController.StreamRoundTrip | ai-server/controller/translator.controller.js:81-88 | an event-stream reader gets back every chunk of the stream, in order, and stops at the single [DONE] frame |
| TranslatorController.StreamResponse.constructor | ai-server/controller/translator.controller.js:81 | nothing written, not ended |
| TranslatorController.StreamResponse.Write | ai-server/controller/translator.controller.js:84 | the text is appended to what was written |
| TranslatorController.StreamResponse.End | ai-server/controller/translator.controller.js:87 | the response is ended and what was written is kept |
| TranslatorController.StreamToStdout | ai-server/controller/translator.controller.js:81-88 | a stream that ends gets its chunk frames in order, then one [DONE] frame, then the end of the response; one that throws gets only the frames before the throw, no [DONE] and no end, and the error is passed on |
| TranslatorController.TruncatedStreamIsIncomplete | ai-server/controller/translator.controller.js:81-88 | a reader of the frames `streamToStdout` has written by itself when the stream throws, which lack [DONE], gets no result |
| BleuAnalysis.InsertKey | ai-server/bleu_score_analysis.py:48 | a dict assignment adds the key once; an existing key keeps its place |
| BleuAnalysis.ModelsHaveTokenizers | ai-server/bleu_score_analysis.py:36-60 | every loaded model also has a tokenizer |
| BleuAnalysis.LoadedModelsFoundTheirFiles | ai-server/bleu_score_analysis.py:36-60 | a model is loaded exactly when some entry naming it had an existing path whose tokenizer and model both loaded |
| BleuAnalysis.BlankIsEmptyStrip | ai-server/bleu_score_analysis.py:134 | a text is blank exactly when it strips to the empty string |
| BleuAnalysis.KeptIndices | ai-server/bleu_score_analysis.py:133-136 | the kept positions are below the bound and strictly increasing |
| BleuAnalysis.KeptIndicesAreNonBlank | ai-server/bleu_score_analysis.py:133-136 | a position is kept exactly when neither its prediction nor its reference is blank |
| BleuAnalysis.KeptEverything | ai-server/bleu_score_analysis.py:133-136 | when no pair is blank, every position is kept |
| BleuAnalysis.KeptUpToStep | ai-server/bleu_score_analysis.py:133-136 | one turn of the loop appends the stripped pair exactly when both texts strip to something |
| BleuAnalysis.KeptUpToIsKeptIndices | ai-server/bleu_score_analysis.py:130-137 | what the loop keeps is the stripped pairs at exactly the non-blank positions, in order |
| BleuAnalysis.CleanedPairsAreUsable | ai-server/bleu_score_analysis.py:130-137 | the cleaned lists have equal length, no more than the shorter input; every prediction is stripped and non-empty, and every reference is a one-element list of a stripped, non-empty text |
| BleuAnalysis.KeptIndicesBound | ai-server/bleu_score_analysis.py:133 | no more pairs are kept than `zip` visits |
| BleuAnalysis.LoadTestData | ai-server/bleu_score_analysis.py:150-198 | no path, an empty one or a missing one gives the five sample pairs; an existing path is read as JSON or CSV by its extension, and any other extension gives two empty lists |
| BleuAnalysis.SampleDataIsClean | ai-server/bleu_score_analysis.py:179-196 | the sample has five aligned pairs, and none is dropped before the metric when the predictions are not blank |
| BleuAnalysis.BestModel | ai-server/bleu_score_analysis.py:263 | none only for an empty summary; otherwise the first row whose score is at least every other score |
| BleuAnalysis.BleuCalculator.constructor | ai-server/bleu_score_analysis.py:24-34 | no models and no tokenizers are loaded |
| BleuAnalysis.BleuCalculator.LoadModels | ai-server/bleu_score_analysis.py:36-60 | the model and tokenizer keys after the loop, entry by entry; every model keeps a tokenizer |
| BleuAnalysis.BleuCalculator.GenerateTranslations | ai-server/bleu_score_analysis.py:62-116 | an unloaded model gives `[]`; a loaded one gives exactly one output per source, in order, with `""` where generation raised |
| BleuAnalysis.BleuCalculator.CleanPairsWith | ai-server/bleu_score_analysis.py:130-137 | the loop keeps, in order, the pairs whose texts both strip to something |
| BleuAnalysis.BleuCalculator.CleanPairs | ai-server/bleu_score_analysis.py:130-137 | the cleaned lists are the stripped pairs at the non-blank positions, each reference wrapped in a list |
| BleuAnalysis.BleuCalculator.CalculateBleuScore | ai-server/bleu_score_analysis.py:118-148 | 0.0 without calling the metric when no pair survives, otherwise the metric on the cleaned lists |
| BleuAnalysis.BleuCalculator.EvaluateModels | ai-server/bleu_score_analysis.py:200-239 | nothing when either test list is empty; otherwise one row per loaded model, in load order, with the sample count and the score of that model's translations |
| Scoring.Accuracy | frontend/src/pages/Flashcards.tsx:126 | 0 without attempts; otherwise 100·score/attempts rounded half up, within [0, 100] when score ≤ attempts |
| Flashcards.NextCardStep | frontend/src/pages/Flashcards.tsx:75-86 | advances by one and unflips, or changes nothing; counters and deck are kept |
| Flashcards.PrevCardStep | frontend/src/pages/Flashcards.tsx:88-99 | goes back by one and unflips, or changes nothing; counters and deck are kept |
| Flashcards.HandleCorrectStep | frontend/src/pages/Flashcards.tsx:101-105 | one more correct answer and one more attempt |
| Flashcards.HandleIncorrectStep | frontend/src/pages/Flashcards.tsx:107-110 | one more attempt, the score unchanged |
| Flashcards.Shuffled | frontend/src/pages/Flashcards.tsx:113 | any sequence of random choices yields a permutation of the deck |
| Flashcards.InitialValid | frontend/src/pages/Flashcards.tsx:49-51 | the mounted page is valid |
| Flashcards.NavigationKeepsValid | frontend/src/pages/Flashcards.tsx:75-99 | moving and flipping keep the current card on the deck |
| Flashcards.NextPrevInverse | frontend/src/pages/Flashcards.tsx:75-99 | going back undoes going forward and vice versa, apart from unflipping |
| Flashcards.AnswersKeepValid | frontend/src/pages/Flashcards.tsx:101-110 | scoring an answer keeps the index in range and score ≤ attempts |
| Flashcards.ShuffleIsPermutation | frontend/src/pages/Flashcards.tsx:112-117 | the shuffled deck has the same multiset of cards, the first card is current and unflipped, and the counters are kept |
| Flashcards.GenerateKeepsValid | frontend/src/pages/Flashcards.tsx:60-69 | both outcomes of a generate leave a valid page holding the new deck or the demo deck |
| Flashcards.GenerateFailedAsWrittenLosesCard | frontend/src/pages/Flashcards.tsx:66-69 | as written, a failed generate on the sixth card of six leaves the index past the demo deck |
| Flashcards.Accuracy | frontend/src/pages/Flashcards.tsx:126 | the page's accuracy lies in [0, 100] and is 0 without attempts |
| Flashcards.FlashcardsPage.constructor | frontend/src/pages/Flashcards.tsx:38-51 | the demo deck, the first card, unflipped, no score |
| Flashcards.FlashcardsPage.NextCard | frontend/src/pages/Flashcards.tsx:75-86 | the page moves as NextCardStep and stays valid |
| Flashcards.FlashcardsPage.PrevCard | frontend/src/pages/Flashcards.tsx:88-99 | the page moves as PrevCardStep and stays valid |
| Flashcards.FlashcardsPage.ToggleFlip | frontend/src/pages/Flashcards.tsx:294 | the card flips and nothing else changes |
| Flashcards.FlashcardsPage.HandleCorrect | frontend/src/pages/Flashcards.tsx:101-105 | the page moves as HandleCorrectStep and stays valid |
| Flashcards.FlashcardsPage.HandleIncorrect | frontend/src/pages/Flashcards.tsx:107-110 | the page moves as HandleIncorrectStep and stays valid |
| Flashcards.FlashcardsPage.ShuffleCards | frontend/src/pages/Flashcards.tsx:112-117 | the page moves as ShuffleCardsStep and stays valid |
| Flashcards.FlashcardsPage.HandleGenerate | frontend/src/pages/Flashcards.tsx:53-73 | success installs the deck with everything reset; failure runs the repaired branch of Findings (the demo deck with everything reset and the error set) rather than lines 66-69 as written; the page stays valid |
| Grammar.FindOption | frontend/src/pages/Grammar.tsx:92-94 | returns the first option with the answer's text, or none exactly when no option has it |
| Grammar.HandleAnswerStep | frontend/src/pages/Grammar.tsx:86-98 | ignored while an answer is selected; otherwise records the answer, shows the explanation, counts one attempt and scores it exactly when the first matching option is correct |
| Grammar.NextQuestionStep | frontend/src/pages/Grammar.tsx:100-110 | advances and clears the selection unless on the last question, where nothing changes; counters are kept |
| Grammar.Accuracy | frontend/src/pages/Grammar.tsx:112 | the page's accuracy lies in [0, 100] and is 0 without attempts |
| Grammar.InitialValid | frontend/src/pages/Grammar.tsx:60-62 | the mounted page is valid |
| Grammar.AnswerKeepsValid | frontend/src/pages/Grammar.tsx:86-98 | an answer given while none is selected, or one the guard ignores, keeps score ≤ attempts ≤ questions reached; once a non-empty answer is selected, every further answer to the question is ignored |
| Grammar.EmptyAnswerIsCountedTwice | frontend/src/pages/Grammar.tsx:87 | the truthiness guard lets an empty answer text through twice, counting two attempts on one question |
| Grammar.NextKeepsValid | frontend/src/pages/Grammar.tsx:100-110 | moving on keeps the index in range and the counters meaningful |
| Grammar.CompleteIsFinal | frontend/src/pages/Grammar.tsx:113 | on a complete quiz, moving on and answering change nothing |
| Grammar.GenerateKeepsValid | frontend/src/pages/Grammar.tsx:71-80 | both outcomes of a generate leave a valid page, the failure with the demo questions |
| Grammar.GenerateFailedAsWrittenLosesQuestion | frontend/src/pages/Grammar.tsx:77-80 | as written, a failed generate on the fourth of five questions leaves the index past the demo questions |
| Grammar.GrammarPage.constructor | frontend/src/pages/Grammar.tsx:50-62 | the demo questions, the first question, no answer, no score |
| Grammar.GrammarPage.HandleAnswer | frontend/src/pages/Grammar.tsx:86-98 | a click while no answer is selected, or one the guard ignores, moves the page as HandleAnswerStep, and the page stays valid |
| Grammar.GrammarPage.NextQuestion | frontend/src/pages/Grammar.tsx:100-110 | the page moves as NextQuestionStep and stays valid |
| Grammar.GrammarPage.HandleGenerate | frontend/src/pages/Grammar.tsx:64-84 | success installs the questions with everything reset; failure runs the repaired branch of Findings (the demo questions with everything reset and the error set) rather than lines 77-80 as written; the page stays valid |

## Left out

- Tokenizer and model loading, `generate` and decoding are foreign (torch and transformers). `Translate` receives the decoder as a function. The forced BOS token, the pad and EOS ids and the device are not modelled.
- The Python script bodies written by the services are opaque constants. The text and the model path reach them as process arguments, not spliced into the script text, so the script text does not depend on the input.
- Spawning, environment variables (`PYTHONIOENCODING`, `PYTORCH_CUDA_ALLOC_CONF`) and the child process are events the model receives. Whether `mkdirSync`, `writeFileSync` or `spawn` throws is an input of each call (which arguments make `spawn` throw is not modelled). A process that never reports `close` or `error` leaves the promise pending, which the model only represents as an unsettled outcome.
- Two concurrent requests race on the fixed scratch file names. That race is a concurrency hazard outside a sequential model. The v2 service and `PythonModelService` use the same `translate_temp.py`.
- Paths are strings joined with `/`. `path.join` normalisation, other separators and the ancestors created by `mkdirSync({ recursive: true })` are not modelled. File contents are not modelled either.
- The Gemini call is a parameter. `geminiChatText`, `geminiTextStream`, image upload handling and the other routes and pages are outside this model.
- TranslatorController.TruncatedStreamIsIncomplete: speaks of `streamToStdout`'s own output only. Its caller `geminiTextStream` catches the error and writes `data: [DONE]` before ending the response (`translator.controller.js`, lines 28-31), so the client receives the frames before the throw followed by `[DONE]`. That is the shape of a finished stream, which StreamRoundTrip decodes as complete: the client cannot tell a cut-off stream from a finished one.
- Console logging, `console.error` diagnostics and the wall-clock `time` of a translation are left out. The ISO timestamp of a response is a parameter.
- MbartInference.DecodingFor: the temperature is an exact real. The float clamp of the interactive settings (`mbart_inference.py`, line 213) and the interactive and batch drivers are console I/O, so they are left out.
- MbartInference.Translate: Python's default arguments (`max_length=128`, `num_beams=3`, `temperature=0.8`, `optimize_single=True`, line 95) are not modelled; every caller passes all four.
- The request body's fields are `undefined`, `null` or strings. Numbers, objects and arrays sent as `text` or `method` are not modelled.
- Json.Unescaped: Dafny characters are Unicode scalar values. Lone UTF-16 surrogates, and a `\u` escape naming a surrogate half, are not represented.
- The BLEU metric, JSON and CSV file reading (`readJson`, `readCsv`) and writing the results file are foreign or file I/O, so they enter as parameters or are left out. Scores are abstract reals that are only compared.
- BleuAnalysis.BleuCalculator.CleanPairs: predictions and references are strings. A CSV cell that pandas reads as NaN makes `strip()` raise (`bleu_score_analysis.py`, line 134); non-string entries are not modelled.
- BleuAnalysis.BestModel: `max` over an empty summary raises in the script; the model returns `None` there.
- Scoring.Accuracy: computed on exact rationals rounded half up. `Math.round` on a floating-point quotient times 100 can differ by one where the float product falls just below an exact half.
- Flashcards.Shuffled: the random comparator of `sort` is replaced by a sequence of random choices. Any permutation can result, and which orders the browser's sort actually produces, and how likely each is, is not modelled.
- Rendering, CSS, the language selectors, `isLoading`, `slideDirection`, `isAnimating` and the `setTimeout` delays are left out. Each handler applies its deferred update at once, so rapid clicks that interleave with the timers are not modelled.
- Flashcards.FlashcardsPage.HandleGenerate: the page class runs the repaired failure branch, Flashcards.GenerateFailed, which resets the index, the flip and the counters. The code as written (`Flashcards.tsx`, lines 66-69) keeps them; Flashcards.GenerateFailedAsWritten models that, as listed under Findings.
- Grammar.GrammarPage.HandleGenerate: the page class runs the repaired failure branch, Grammar.GenerateFailed, which resets the index, the selection, the explanation and the counters. The code as written (`Grammar.tsx`, lines 77-80) keeps them; Grammar.GenerateFailedAsWritten models that, as listed under Findings.
- Grammar.GrammarPage.HandleAnswer: a second click while an empty option text is selected is not admitted. The page disables the options once `selectedAnswer` is not `null` (`Grammar.tsx`, line 253); Grammar.EmptyAnswerIsCountedTwice shows what the handler would do with it.
- A generate result whose `result[language]` is missing (`undefined`) is not modelled. The generated list is a sequence.

## Findings

| source | as written | input that shows it | evidently intended | confidence | as-written member | corrected member |
|---|---|---|---|---|---|---|
| frontend/src/pages/Flashcards.tsx:66-69 | a failed generate restores the five demo cards but keeps `currentCard`, `isFlipped`, `score` and `totalAttempts` | a generated deck of six cards, the sixth card current, then a generate that fails: `currentCard` is 5 on a deck of 5, and the page renders `cards[5]` | the failure branch resets the page as the success branch does, on the demo deck | medium, not executed | Flashcards.GenerateFailedAsWritten, Flashcards.GenerateFailedAsWrittenLosesCard | Flashcards.GenerateFailed, Flashcards.GenerateKeepsValid |
| frontend/src/pages/Grammar.tsx:77-80 | a failed generate restores the three demo questions but keeps `currentQuestion`, `selectedAnswer`, `score` and `totalAttempts` | five generated questions, the fourth current, then a generate that fails: `currentQuestion` is 3 on three questions, and the page renders `questions[3]` | the failure branch resets the quiz as the success branch does, on the demo questions | medium, not executed | Grammar.GenerateFailedAsWritten, Grammar.GenerateFailedAsWrittenLosesQuestion | Grammar.GenerateFailed, Grammar.GenerateKeepsValid |

/**
 * `LocalModelService`: the dispatch between the Gemini API and the two
 * local model versions, the script-running translations for model v2 and
 * model v3, the API prompt and the model availability checks. `root` is the
 * server directory (`path.join(__dirname, '..')`); the Gemini call is a
 * parameter and the child process is the event sequence it reports.
 */
module LocalModel {
  import opened Common
  import opened Strings
  import opened FileSys
  import opened ChildProcess

  /** The three translation paths of `translateText`. */
  datatype Route = LocalV2 | ModelV3 | Api

  /** `translateText(text, method = 'api')`: `None` is an omitted method. */
  function Dispatch(translationMethod: Option<string>): (r: Route)
    ensures r == LocalV2 <==> translationMethod == Some("local")
    ensures r == ModelV3 <==> translationMethod == Some("modelv3")
    ensures r == Api <==> translationMethod != Some("local") && translationMethod != Some("modelv3")
  {
    var m := if translationMethod.Some? then translationMethod.value else "api";
    if m == "local" then LocalV2
    else if m == "modelv3" then ModelV3
    else Api
  }

  function ModelV2Path(root: string): string { PathJoin(root, "modelv2") }
  function ModelV3Path(root: string): string { PathJoin(root, "modelv3") }
  function TempDir(root: string): string { PathJoin(root, "temp") }
  function V2Script(root: string): string { PathJoin(TempDir(root), "translate_temp.py") }
  function V3Script(root: string): string { PathJoin(TempDir(root), "translate_modelv3_temp.py") }

  /** The callbacks of `translateWithLocalModel`. */
  const V2Rule := HandlerRule("local", Some("Model Error:"), "Translation failed: ", "Unknown error",
                              "Failed to start Python process: ")

  /** The callbacks of `translateWithModelV3`. */
  const V3Rule := HandlerRule("modelv3", Some("ModelV3 Error:"), "ModelV3 translation failed: ", "Unknown error",
                              "Failed to start Python process: ")

  /** The `close` callback of model v2, case by case. */
  lemma V2CloseOutcomes(code: Option<int>, output: string, errorOutput: string)
    ensures var o := CloseOutcome(V2Rule, code, output, errorOutput);
      && (code == Some(0) && StartsWith(JsTrim(output), "Model Error:") ==> o == Rejected(JsTrim(output)))
      && (code == Some(0) && !StartsWith(JsTrim(output), "Model Error:") ==>
            o == Resolved(TranslationResult(JsTrim(output), "local", "English", "Sanskrit")))
      && (code != Some(0) && errorOutput != [] ==> o == Rejected("Translation failed: " + errorOutput))
      && (code != Some(0) && errorOutput == [] ==> o == Rejected("Translation failed: Unknown error"))
  {
  }

  /** The `close` callback of model v3, case by case. */
  lemma V3CloseOutcomes(code: Option<int>, output: string, errorOutput: string)
    ensures var o := CloseOutcome(V3Rule, code, output, errorOutput);
      && (code == Some(0) && StartsWith(JsTrim(output), "ModelV3 Error:") ==> o == Rejected(JsTrim(output)))
      && (code == Some(0) && !StartsWith(JsTrim(output), "ModelV3 Error:") ==>
            o == Resolved(TranslationResult(JsTrim(output), "modelv3", "English", "Sanskrit")))
      && (code != Some(0) && errorOutput != [] ==> o == Rejected("ModelV3 translation failed: " + errorOutput))
      && (code != Some(0) && errorOutput == [] ==> o == Rejected("ModelV3 translation failed: Unknown error"))
  {
  }

  /** What the Gemini call does: returns a response text or throws with a message. */
  datatype ApiReply = ApiText(text: string) | ApiFailure(message: string)

  const ApiPromptPrefix := "Translate the following English text to Sanskrit: \""

  /** The prompt of `translateWithAPI`: the text, in double quotes, after a fixed instruction. */
  function ApiPrompt(text: string): (prompt: string)
    ensures StartsWith(prompt, ApiPromptPrefix) && EndsWith(prompt, "\"")
    ensures |prompt| == |ApiPromptPrefix| + |text| + 1
    ensures prompt[|ApiPromptPrefix|..|prompt| - 1] == text
  {
    var p := ApiPromptPrefix + text + "\"";
    assert p[..|ApiPromptPrefix|] == ApiPromptPrefix;
    assert p[|ApiPromptPrefix|..|p| - 1] == text;
    p
  }

  /** `translateWithAPI`, with `generate` standing for `Model().generateContent(prompt)` and `.response.text()`. */
  function ApiOutcome(text: string, generate: string -> ApiReply): (o: Outcome)
    ensures generate(ApiPrompt(text)).ApiText? ==>
      o == Resolved(TranslationResult(generate(ApiPrompt(text)).text, "api", "English", "Sanskrit"))
    ensures generate(ApiPrompt(text)).ApiFailure? ==>
      o == Rejected("API translation failed: " + generate(ApiPrompt(text)).message)
  {
    match generate(ApiPrompt(text))
    case ApiText(translatedText) => Resolved(TranslationResult(translatedText, "api", "English", "Sanskrit"))
    case ApiFailure(message) => Rejected("API translation failed: " + message)
  }

  /** The file names `checkModelV3Availability` requires inside the model v3 folder. */
  const RequiredV3Files: seq<string> := ["config.json", "model.safetensors", "tokenizer_config.json", "special_tokens_map.json"]

  /** `checkModelAvailability` on the service's `modelPath`: the configuration and the weights both exist. */
  function ModelV2Available(paths: set<string>, modelPath: string): (ok: bool)
    ensures ok ==> PathJoin(modelPath, "config.json") in paths
    ensures ok ==> PathJoin(modelPath, "model.safetensors") in paths
    ensures PathJoin(modelPath, "config.json") in paths && PathJoin(modelPath, "model.safetensors") in paths ==> ok
  {
    PathJoin(modelPath, "config.json") in paths && PathJoin(modelPath, "model.safetensors") in paths
  }

  /** `checkModelV3Availability`: the v3 folder and each of its four required files exist. */
  function ModelV3Available(paths: set<string>, root: string): (ok: bool)
    ensures ok <==> (ModelV3Path(root) in paths
                     && PathJoin(ModelV3Path(root), "config.json") in paths
                     && PathJoin(ModelV3Path(root), "model.safetensors") in paths
                     && PathJoin(ModelV3Path(root), "tokenizer_config.json") in paths
                     && PathJoin(ModelV3Path(root), "special_tokens_map.json") in paths)
  {
    var dir := ModelV3Path(root);
    dir in paths && forall f :: f in RequiredV3Files ==> PathJoin(dir, f) in paths
  }

  class LocalModelService {
    const root: string
    const modelPath: string
    const files: FileSystem

    constructor (root: string, files: FileSystem)
      ensures this.root == root && this.files == files && modelPath == ModelV2Path(root)
    {
      this.root := root;
      this.files := files;
      modelPath := ModelV2Path(root);
    }

    /**
     * Creates the temp folder when missing, writes the script and spawns
     * `python` on it with `argv`; the first of these calls that throws
     * rejects the promise with its error, and the ones after it do not run.
     */
    method RunScript(rule: HandlerRule, script: string, argv: seq<string>, faults: LaunchFaults, events: seq<Event>)
      returns (run: Run)
      modifies files
      ensures (run, files.paths) == ScriptRun(rule, TempDir(root), script, argv, faults, old(files.paths), events)
    {
      var tempDir := TempDir(root);
      if !files.Exists(tempDir) {
        var made := files.MakeDirectory(tempDir, faults.mkdir.Some?);
        if !made {
          assert files.paths == LaunchPaths(old(files.paths), tempDir, script, faults);
          return Run(Some(Rejected(faults.mkdir.value)), None);
        }
      }
      var written := files.WriteFile(script, faults.write.Some?);
      if !written {
        assert files.paths == LaunchPaths(old(files.paths), tempDir, script, faults);
        return Run(Some(Rejected(faults.write.value)), None);
      }
      assert files.paths == LaunchPaths(old(files.paths), tempDir, script, faults);
      if faults.spawn.Some? {
        return Run(Some(Rejected(faults.spawn.value)), None);
      }
      var pending := new PendingTranslation(rule, script, files);
      pending.Deliver(events);
      run := Run(pending.settled, Some(argv));
    }

    /**
     * `translateWithModelV3`: a missing model folder rejects before anything
     * is written or spawned; otherwise the script runs on the text and the
     * v3 folder.
     */
    method TranslateWithModelV3(text: string, faults: LaunchFaults, events: seq<Event>) returns (run: Run)
      modifies files
      ensures ModelV3Path(root) !in old(files.paths) ==>
        run == Run(Some(Rejected("Model v3 folder not found: " + ModelV3Path(root))), None)
        && files.paths == old(files.paths)
      ensures ModelV3Path(root) in old(files.paths) ==>
        (run, files.paths)
          == ScriptRun(V3Rule, TempDir(root), V3Script(root), [V3Script(root), text, ModelV3Path(root)], faults,
                       old(files.paths), events)
    {
      var folder := ModelV3Path(root);
      if !files.Exists(folder) {
        return Run(Some(Rejected("Model v3 folder not found: " + folder)), None);
      }
      run := RunScript(V3Rule, V3Script(root), [V3Script(root), text, folder], faults, events);
    }

    /** `translateWithLocalModel`: the script runs on the text and the v2 folder. */
    method TranslateWithLocalModel(text: string, faults: LaunchFaults, events: seq<Event>) returns (run: Run)
      modifies files
      ensures (run, files.paths)
        == ScriptRun(V2Rule, TempDir(root), V2Script(root), [V2Script(root), text, modelPath], faults, old(files.paths), events)
    {
      run := RunScript(V2Rule, V2Script(root), [V2Script(root), text, modelPath], faults, events);
    }

    /** `translateText`: each route runs only its own translation. */
    method TranslateText(text: string, translationMethod: Option<string>, faults: LaunchFaults, events: seq<Event>,
                         generate: string -> ApiReply)
      returns (run: Run)
      modifies files
      ensures Dispatch(translationMethod) == Api ==>
        run == Run(Some(ApiOutcome(text, generate)), None) && files.paths == old(files.paths)
      ensures Dispatch(translationMethod) == LocalV2 ==>
        (run, files.paths)
          == ScriptRun(V2Rule, TempDir(root), V2Script(root), [V2Script(root), text, modelPath], faults,
                       old(files.paths), events)
      ensures Dispatch(translationMethod) == ModelV3 && ModelV3Path(root) !in old(files.paths) ==>
        run == Run(Some(Rejected("Model v3 folder not found: " + ModelV3Path(root))), None)
        && files.paths == old(files.paths)
      ensures Dispatch(translationMethod) == ModelV3 && ModelV3Path(root) in old(files.paths) ==>
        (run, files.paths)
          == ScriptRun(V3Rule, TempDir(root), V3Script(root), [V3Script(root), text, ModelV3Path(root)], faults,
                       old(files.paths), events)
    {
      match Dispatch(translationMethod) {
        case LocalV2 => run := TranslateWithLocalModel(text, faults, events);
        case ModelV3 => run := TranslateWithModelV3(text, faults, events);
        case Api => run := Run(Some(ApiOutcome(text, generate)), None);
      }
    }
  }

  /** A v3 model that passes the availability check also passes the folder check of `translateWithModelV3`. */
  lemma AvailableV3HasFolder(paths: set<string>, root: string)
    requires ModelV3Available(paths, root)
    ensures ModelV3Path(root) in paths
  {
  }
}

/**
 * `PythonModelService.translateWithPythonModel`: the older script-running
 * translation. Unlike the services of `LocalModelService` it does not look
 * for an error prefix in stdout and adds no stand-in text for empty stderr.
 */
module PythonModel {
  import opened Common
  import opened Strings
  import opened FileSys
  import opened ChildProcess
  import LocalModel

  /** The callbacks of `translateWithPythonModel`. */
  const PythonRule := HandlerRule("local", None, "Translation failed: ", "", "Failed to start translation process: ")

  /** The `close` callback: exit code 0 always resolves, any other exit rejects with stderr as it is. */
  lemma PythonCloseOutcomes(code: Option<int>, output: string, errorOutput: string)
    ensures var o := CloseOutcome(PythonRule, code, output, errorOutput);
      && (code == Some(0) ==> o == Resolved(TranslationResult(JsTrim(output), "local", "English", "Sanskrit")))
      && (code != Some(0) ==> o == Rejected("Translation failed: " + errorOutput))
  {
  }

  /**
   * On exit code 0 this service always resolves with the trimmed stdout,
   * while the v2 service rejects exactly when that text starts with
   * "Model Error:", using it as the message: a model error the script
   * reports on stdout comes back from here as a translation.
   */
  lemma ExitZeroOutcomes(output: string, errorOutput: string)
    ensures CloseOutcome(PythonRule, Some(0), output, errorOutput)
         == Resolved(TranslationResult(JsTrim(output), "local", "English", "Sanskrit"))
    ensures CloseOutcome(LocalModel.V2Rule, Some(0), output, errorOutput).Rejected?
        <==> StartsWith(JsTrim(output), "Model Error:")
    ensures StartsWith(JsTrim(output), "Model Error:") ==>
      CloseOutcome(LocalModel.V2Rule, Some(0), output, errorOutput) == Rejected(JsTrim(output))
    ensures !StartsWith(JsTrim(output), "Model Error:") ==>
      CloseOutcome(LocalModel.V2Rule, Some(0), output, errorOutput)
        == CloseOutcome(PythonRule, Some(0), output, errorOutput)
  {
  }

  class PythonModelService {
    const root: string
    const modelPath: string
    const files: FileSystem

    constructor (root: string, files: FileSystem)
      ensures this.root == root && this.files == files && modelPath == LocalModel.ModelV2Path(root)
    {
      this.root := root;
      this.files := files;
      modelPath := LocalModel.ModelV2Path(root);
    }

    /**
     * `translateWithPythonModel`: the temp folder and the script exist
     * before `python` is spawned on the script, the text and the model path;
     * the callbacks then settle the promise and remove the script. The first
     * launch call that throws rejects the promise with its error instead.
     */
    method TranslateWithPythonModel(text: string, faults: LaunchFaults, events: seq<Event>) returns (run: Run)
      modifies files
      ensures var script := LocalModel.V2Script(root);
        (run, files.paths)
          == ScriptRun(PythonRule, LocalModel.TempDir(root), script, [script, text, modelPath], faults,
                       old(files.paths), events)
    {
      var tempDir := LocalModel.TempDir(root);
      if !files.Exists(tempDir) {
        var made := files.MakeDirectory(tempDir, faults.mkdir.Some?);
        if !made {
          assert files.paths == LaunchPaths(old(files.paths), tempDir, LocalModel.V2Script(root), faults);
          return Run(Some(Rejected(faults.mkdir.value)), None);
        }
      }
      var script := PathJoin(tempDir, "translate_temp.py");
      var written := files.WriteFile(script, faults.write.Some?);
      if !written {
        assert files.paths == LaunchPaths(old(files.paths), tempDir, script, faults);
        return Run(Some(Rejected(faults.write.value)), None);
      }
      assert files.paths == LaunchPaths(old(files.paths), tempDir, script, faults);
      if faults.spawn.Some? {
        return Run(Some(Rejected(faults.spawn.value)), None);
      }
      var pending := new PendingTranslation(PythonRule, script, files);
      pending.Deliver(events);
      run := Run(pending.settled, Some([script, text, modelPath]));
    }
  }
}

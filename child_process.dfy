/**
 * A translation that runs a Python script as a child process, seen from the
 * Node side: the promise the services return, the `data` callbacks that
 * accumulate stdout and stderr, the `close` callback that removes the scratch
 * script and settles the promise from the exit code and the collected
 * output, and the `error` callback for a process that could not be started;
 * before them, the launch calls that can throw and reject the promise at
 * once. The process itself is an abstract source of events.
 */
module ChildProcess {
  import opened Common
  import opened Strings
  import opened FileSys

  /** The object a translation resolves with. */
  datatype TranslationResult = TranslationResult(
    translatedText: string,
    translationMethod: string,
    sourceLanguage: string,
    targetLanguage: string)

  /** How the promise settles: `resolve(result)` or `reject(new Error(message))`. */
  datatype Outcome = Resolved(result: TranslationResult) | Rejected(message: string)

  /**
   * What the child process reports. `Close.code` is `None` when the process
   * was ended by a signal (Node passes `null`); `unlinkFails` says whether
   * removing the scratch script in the `close` callback throws.
   */
  datatype Event =
    | StdoutData(chunk: string)
    | StderrData(chunk: string)
    | Close(code: Option<int>, unlinkFails: bool)
    | SpawnError(message: string)

  /** The constants in which the callbacks of the three script-running services differ. */
  datatype HandlerRule = HandlerRule(
    translationMethod: string,
    modelErrorPrefix: Option<string>,
    failurePrefix: string,
    emptyStderrText: string,
    startFailurePrefix: string)

  /**
   * The decision of a `close` callback. Exit code 0 resolves with the
   * trimmed stdout, unless it starts with the rule's model-error prefix, in
   * which case that trimmed text is the rejection message; any other exit
   * rejects with the failure prefix followed by stderr, or by the rule's
   * stand-in text when stderr is empty.
   */
  function CloseOutcome(rule: HandlerRule, code: Option<int>, output: string, errorOutput: string): (o: Outcome)
    ensures o.Resolved? <==> code == Some(0) && !(rule.modelErrorPrefix.Some? && StartsWith(JsTrim(output), rule.modelErrorPrefix.value))
    ensures o.Resolved? ==> o.result == TranslationResult(JsTrim(output), rule.translationMethod, "English", "Sanskrit")
    ensures o.Resolved? ==> Trimmed(o.result.translatedText, JsWhitespace)
    ensures o.Rejected? && code == Some(0) ==> o.message == JsTrim(output)
    ensures code != Some(0) ==> StartsWith(o.message, rule.failurePrefix)
    ensures code != Some(0) && errorOutput != [] ==> o.message == rule.failurePrefix + errorOutput
    ensures code != Some(0) && errorOutput == [] ==> o.message == rule.failurePrefix + rule.emptyStderrText
  {
    if code == Some(0) then
      var translatedText := JsTrim(output);
      if rule.modelErrorPrefix.Some? && StartsWith(translatedText, rule.modelErrorPrefix.value) then
        Rejected(translatedText)
      else
        Resolved(TranslationResult(translatedText, rule.translationMethod, "English", "Sanskrit"))
    else
      Rejected(rule.failurePrefix + (if errorOutput == [] then rule.emptyStderrText else errorOutput))
  }

  /** The rejection of an `error` callback. */
  function StartFailure(rule: HandlerRule, message: string): (o: Outcome)
    ensures o.Rejected? && StartsWith(o.message, rule.startFailurePrefix)
    ensures o.message[|rule.startFailurePrefix|..] == message
  {
    Rejected(rule.startFailurePrefix + message)
  }

  /** Everything the callbacks observe or change, with the file system as its set of paths. */
  datatype ChildState = ChildState(output: string, errorOutput: string, settled: Option<Outcome>, paths: set<string>)

  /** `resolve` or `reject` on a promise: a promise that has settled keeps its first outcome. */
  function Settle(settled: Option<Outcome>, o: Outcome): (s: Option<Outcome>)
    ensures s.Some?
    ensures settled.Some? ==> s == settled
    ensures settled.None? ==> s == Some(o)
  {
    if settled.Some? then settled else Some(o)
  }

  /** The effect of one callback. */
  function Step(rule: HandlerRule, script: string, st: ChildState, e: Event): ChildState {
    match e
    case StdoutData(chunk) => st.(output := st.output + chunk)
    case StderrData(chunk) => st.(errorOutput := st.errorOutput + chunk)
    case Close(code, unlinkFails) =>
      st.(paths := Unlinked(st.paths, script, unlinkFails),
          settled := Settle(st.settled, CloseOutcome(rule, code, st.output, st.errorOutput)))
    case SpawnError(message) => st.(settled := Settle(st.settled, StartFailure(rule, message)))
  }

  /** The state after the callbacks for `events`, in order. */
  function Replay(rule: HandlerRule, script: string, st: ChildState, events: seq<Event>): ChildState
    decreases |events|
  {
    if events == [] then st
    else Step(rule, script, Replay(rule, script, st, events[..|events| - 1]), events[|events| - 1])
  }

  /** Events that settle the promise. */
  predicate Settles(e: Event) {
    e.Close? || e.SpawnError?
  }

  /** The stdout chunks of `events`, concatenated in order. */
  function StdoutOf(events: seq<Event>): string
    decreases |events|
  {
    if events == [] then []
    else StdoutOf(events[..|events| - 1]) + (if events[|events| - 1].StdoutData? then events[|events| - 1].chunk else [])
  }

  /** The stderr chunks of `events`, concatenated in order. */
  function StderrOf(events: seq<Event>): string
    decreases |events|
  {
    if events == [] then []
    else StderrOf(events[..|events| - 1]) + (if events[|events| - 1].StderrData? then events[|events| - 1].chunk else [])
  }

  lemma {:induction false} ReplayAppend(rule: HandlerRule, script: string, st: ChildState, a: seq<Event>, b: seq<Event>)
    ensures Replay(rule, script, st, a + b) == Replay(rule, script, Replay(rule, script, st, a), b)
    decreases |b|
  {
    if b == [] {
      assert a + b == a;
    } else {
      assert (a + b)[..|a + b| - 1] == a + b[..|b| - 1];
      ReplayAppend(rule, script, st, a, b[..|b| - 1]);
    }
  }

  /** The `data` callbacks accumulate stdout and stderr exactly, whatever else happens. */
  lemma {:induction false} ReplayCollectsOutput(rule: HandlerRule, script: string, st: ChildState, events: seq<Event>)
    ensures Replay(rule, script, st, events).output == st.output + StdoutOf(events)
    ensures Replay(rule, script, st, events).errorOutput == st.errorOutput + StderrOf(events)
    decreases |events|
  {
    if events != [] {
      ReplayCollectsOutput(rule, script, st, events[..|events| - 1]);
    }
  }

  /** A settled promise never changes: later callbacks cannot override the first outcome. */
  lemma {:induction false} SettledIsFinal(rule: HandlerRule, script: string, st: ChildState, events: seq<Event>)
    requires st.settled.Some?
    ensures Replay(rule, script, st, events).settled == st.settled
    decreases |events|
  {
    if events != [] {
      SettledIsFinal(rule, script, st, events[..|events| - 1]);
    }
  }

  /** Before the first `close` or `error` the promise is pending and no file has been removed. */
  lemma {:induction false} PendingUntilSettled(rule: HandlerRule, script: string, st: ChildState, events: seq<Event>)
    requires forall e :: e in events ==> !Settles(e)
    ensures Replay(rule, script, st, events).settled == st.settled
    ensures Replay(rule, script, st, events).paths == st.paths
    decreases |events|
  {
    if events != [] {
      assert forall e :: e in events[..|events| - 1] ==> e in events;
      assert events[|events| - 1] in events;
      PendingUntilSettled(rule, script, st, events[..|events| - 1]);
    }
  }

  /** The outcome of the first settling event on the output collected before it. */
  function FirstOutcome(rule: HandlerRule, e: Event, output: string, errorOutput: string): Outcome
    requires Settles(e)
  {
    if e.Close? then CloseOutcome(rule, e.code, output, errorOutput) else StartFailure(rule, e.message)
  }

  /**
   * The promise settles with the outcome of the first `close` or `error`
   * callback, decided on the stdout and stderr received before it.
   */
  lemma FirstSettlementWins(rule: HandlerRule, script: string, st: ChildState,
                            before: seq<Event>, e: Event, after: seq<Event>)
    requires st.settled.None?
    requires forall x :: x in before ==> !Settles(x)
    requires Settles(e)
    ensures Replay(rule, script, st, before + [e] + after).settled
         == Some(FirstOutcome(rule, e, st.output + StdoutOf(before), st.errorOutput + StderrOf(before)))
  {
    var mid := Replay(rule, script, st, before);
    PendingUntilSettled(rule, script, st, before);
    ReplayCollectsOutput(rule, script, st, before);
    ReplayAppend(rule, script, st, before, [e]);
    assert Replay(rule, script, mid, [e]) == Step(rule, script, mid, e);
    ReplayAppend(rule, script, st, before + [e], after);
    SettledIsFinal(rule, script, Replay(rule, script, st, before + [e]), after);
  }

  /** The events with every unlink succeeding. */
  function UnlinksSucceed(events: seq<Event>): (r: seq<Event>)
    ensures |r| == |events|
    decreases |events|
  {
    if events == [] then []
    else
      var e := events[|events| - 1];
      UnlinksSucceed(events[..|events| - 1]) + [if e.Close? then Close(e.code, false) else e]
  }

  /** A failure to remove the scratch script never changes the outcome or the collected output. */
  lemma {:induction false} UnlinkFailureIsHarmless(rule: HandlerRule, script: string, st: ChildState, events: seq<Event>)
    ensures var a := Replay(rule, script, st, events);
            var b := Replay(rule, script, st, UnlinksSucceed(events));
            a.settled == b.settled && a.output == b.output && a.errorOutput == b.errorOutput
    decreases |events|
  {
    if events != [] {
      var init := events[..|events| - 1];
      UnlinkFailureIsHarmless(rule, script, st, init);
      var u := UnlinksSucceed(events);
      assert u[..|u| - 1] == UnlinksSucceed(init);
    }
  }

  /**
   * The callbacks remove nothing but the scratch script, and a `close`
   * whose unlink succeeds leaves it removed.
   */
  lemma {:induction false} ScriptRemovedOnClose(rule: HandlerRule, script: string, st: ChildState, events: seq<Event>)
    ensures var p := Replay(rule, script, st, events).paths;
      p == st.paths || p == st.paths - {script}
    ensures (exists i :: 0 <= i < |events| && events[i].Close? && !events[i].unlinkFails) ==>
      script !in Replay(rule, script, st, events).paths
    decreases |events|
  {
    if events != [] {
      var init := events[..|events| - 1];
      ScriptRemovedOnClose(rule, script, st, init);
      if exists i :: 0 <= i < |events| && events[i].Close? && !events[i].unlinkFails {
        var i :| 0 <= i < |events| && events[i].Close? && !events[i].unlinkFails;
        if i < |init| {
          assert init[i] == events[i];
        }
      }
    }
  }

  /**
   * What a translation call leaves behind: the settlement of its promise
   * (`None` while it is pending) and the arguments `python` was spawned with
   * (`None` when nothing was spawned).
   */
  datatype Run = Run(settled: Option<Outcome>, spawned: Option<seq<string>>)

  /**
   * The errors thrown by the synchronous calls a service's promise executor
   * makes before the child process exists: `fs.mkdirSync`, `fs.writeFileSync`
   * and `spawn`, which throws at once on an argument it refuses (one holding
   * a NUL character, say). `None` is a call that returns normally. A throw
   * rejects the promise with that error, and the calls after it do not run.
   */
  datatype LaunchFaults = LaunchFaults(mkdir: Option<string>, write: Option<string>, spawn: Option<string>)

  /**
   * The message of the first launch call that throws, or `None` when the
   * process is spawned; `mkdirSync` runs only when the temp folder is missing.
   */
  function LaunchFailure(paths: set<string>, tempDir: string, f: LaunchFaults): (r: Option<string>)
    ensures r.None? <==> (tempDir in paths || f.mkdir.None?) && f.write.None? && f.spawn.None?
    ensures r.Some? ==> r == f.mkdir || r == f.write || r == f.spawn
    ensures tempDir !in paths && f.mkdir.Some? ==> r == f.mkdir
  {
    if tempDir !in paths && f.mkdir.Some? then f.mkdir
    else if f.write.Some? then f.write
    else f.spawn
  }

  /**
   * The paths once the launch calls have run: the temp folder exists unless
   * creating it threw, and the script exists once it was written, whether or
   * not `spawn` then threw.
   */
  function LaunchPaths(paths: set<string>, tempDir: string, script: string, f: LaunchFaults): (after: set<string>)
    ensures paths <= after <= paths + {tempDir, script}
    ensures tempDir in after <==> tempDir in paths || f.mkdir.None?
    ensures script != tempDir ==>
      (script in after <==> script in paths || ((tempDir in paths || f.mkdir.None?) && f.write.None?))
  {
    if tempDir !in paths && f.mkdir.Some? then paths
    else if f.write.Some? then paths + {tempDir}
    else paths + {tempDir, script}
  }

  /**
   * A scratch-script translation from start to its last callback: the launch
   * calls, then, when `python` was spawned with `argv`, the callbacks for
   * `events` on empty buffers. The second component is the final set of paths.
   */
  function ScriptRun(rule: HandlerRule, tempDir: string, script: string, argv: seq<string>, f: LaunchFaults,
                     paths: set<string>, events: seq<Event>): (r: (Run, set<string>))
    ensures r.0.spawned.None? <==> LaunchFailure(paths, tempDir, f).Some?
    ensures r.0.spawned.Some? ==> r.0.spawned.value == argv
    ensures r.0.spawned.None? ==>
      r.0.settled == Some(Rejected(LaunchFailure(paths, tempDir, f).value)) && r.1 == LaunchPaths(paths, tempDir, script, f)
    ensures r.0.spawned.Some? ==>
      var final := Replay(rule, script, ChildState([], [], None, LaunchPaths(paths, tempDir, script, f)), events);
      r.0.settled == final.settled && r.1 == final.paths
  {
    var failure := LaunchFailure(paths, tempDir, f);
    var launched := LaunchPaths(paths, tempDir, script, f);
    if failure.Some? then (Run(Some(Rejected(failure.value)), None), launched)
    else
      var final := Replay(rule, script, ChildState([], [], None, launched), events);
      (Run(final.settled, Some(argv)), final.paths)
  }

  /**
   * A `spawn` that throws leaves the script on disk: no `close` callback
   * ever runs to remove it, and the promise rejects with the thrown message.
   */
  lemma SpawnThrowLeavesScript(rule: HandlerRule, tempDir: string, script: string, argv: seq<string>,
                               f: LaunchFaults, paths: set<string>, events: seq<Event>)
    requires script != tempDir
    requires (tempDir in paths || f.mkdir.None?) && f.write.None? && f.spawn.Some?
    ensures ScriptRun(rule, tempDir, script, argv, f, paths, events).0 == Run(Some(Rejected(f.spawn.value)), None)
    ensures script in ScriptRun(rule, tempDir, script, argv, f, paths, events).1
  {
  }

  /**
   * When the process is spawned and a `close` callback removes the script,
   * the run leaves the script removed and every other path as the launch
   * left it.
   */
  lemma {:induction false} SpawnedRunRemovesScript(rule: HandlerRule, tempDir: string, script: string, argv: seq<string>,
                                                   f: LaunchFaults, paths: set<string>, events: seq<Event>)
    requires LaunchFailure(paths, tempDir, f).None?
    requires exists i :: 0 <= i < |events| && events[i].Close? && !events[i].unlinkFails
    ensures ScriptRun(rule, tempDir, script, argv, f, paths, events).1 == (paths + {tempDir, script}) - {script}
  {
    var launched := LaunchPaths(paths, tempDir, script, f);
    ScriptRemovedOnClose(rule, script, ChildState([], [], None, launched), events);
  }

  /** One pending translation: the promise and the closures the service registers on the child process. */
  class PendingTranslation {
    const rule: HandlerRule
    const scriptPath: string
    const files: FileSystem
    var output: string
    var errorOutput: string
    var settled: Option<Outcome>

    function State(): ChildState
      reads this, files
    {
      ChildState(output, errorOutput, settled, files.paths)
    }

    /** `let output = ''; let errorOutput = '';` and a promise not yet settled. */
    constructor (rule: HandlerRule, scriptPath: string, files: FileSystem)
      ensures this.rule == rule && this.scriptPath == scriptPath && this.files == files
      ensures output == [] && errorOutput == [] && settled.None?
    {
      this.rule := rule;
      this.scriptPath := scriptPath;
      this.files := files;
      output := [];
      errorOutput := [];
      settled := None;
    }

    /** `pythonProcess.stdout.on('data', ...)`. */
    method OnStdout(chunk: string)
      modifies this
      ensures State() == Step(rule, scriptPath, old(State()), StdoutData(chunk))
    {
      output := output + chunk;
    }

    /** `pythonProcess.stderr.on('data', ...)`. */
    method OnStderr(chunk: string)
      modifies this
      ensures State() == Step(rule, scriptPath, old(State()), StderrData(chunk))
    {
      errorOutput := errorOutput + chunk;
    }

    /** `pythonProcess.on('close', ...)`: remove the script, swallowing a failure, then settle. */
    method OnClose(code: Option<int>, unlinkFails: bool)
      modifies this, files
      ensures State() == Step(rule, scriptPath, old(State()), Close(code, unlinkFails))
    {
      var _ := files.Unlink(scriptPath, unlinkFails);
      settled := Settle(settled, CloseOutcome(rule, code, output, errorOutput));
    }

    /** `pythonProcess.on('error', ...)`. */
    method OnError(message: string)
      modifies this
      ensures State() == Step(rule, scriptPath, old(State()), SpawnError(message))
    {
      settled := Settle(settled, StartFailure(rule, message));
    }

    /** Runs the callbacks for `events`, one at a time, in order. */
    method Deliver(events: seq<Event>)
      modifies this, files
      ensures State() == Replay(rule, scriptPath, old(State()), events)
    {
      var i := 0;
      while i < |events|
        invariant 0 <= i <= |events|
        invariant State() == Replay(rule, scriptPath, old(State()), events[..i])
      {
        assert events[..i + 1][..i] == events[..i];
        match events[i] {
          case StdoutData(chunk) => OnStdout(chunk);
          case StderrData(chunk) => OnStderr(chunk);
          case Close(code, unlinkFails) => OnClose(code, unlinkFails);
          case SpawnError(message) => OnError(message);
        }
        i := i + 1;
      }
      assert events[..i] == events;
    }
  }
}

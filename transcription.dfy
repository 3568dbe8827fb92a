/**
 * `run_transcription` of whisper.py: the argument vector handed to the
 * whisper-faster engine, and the `transcribing` flag that turns a request
 * made while a run is in flight into a no-op.
 */
module Transcription {

  import opened Wrappers

  // The hard-coded paths; the model treats them as opaque strings.
  const WhisperFasterPath: string :=
    @"C:\Users\voothi\AppData\Roaming\Subtitle Edit\Whisper\Purfview-Whisper-Faster\whisper-faster.exe"
  const AudioFilePath: string := @".\input_audio_file.wav"
  const OutputFilePath: string := @".\output_transcript.txt"
  const ModelPath: string :=
    @"C:\Tools\open-webui\venv\Lib\site-packages\open_webui\data\cache\whisper\models\models--Systran--faster-whisper-base\snapshots\ebe41f70d5b6dfa9166e2c581c45c9c0cfc57b66\model.bin"

  const ModelFlag: string := "--model"
  const OutputFlag: string := "--output"

  /** The argument vector: engine, audio file, then the two `--name value` pairs. */
  function BuildCommand(exe: string, audio: string, model: string, output: string): (cmd: seq<string>)
    ensures |cmd| == 6
    ensures cmd[0] == exe && cmd[1] == audio
    ensures cmd[2] == ModelFlag && cmd[3] == model
    ensures cmd[4] == OutputFlag && cmd[5] == output
  {
    [exe, audio, ModelFlag, model, OutputFlag, output]
  }

  /**
   * How an option parser reads `--name value` from an argument vector: the
   * word after the first occurrence of `flag`, if there is one.
   */
  function FlagValue(args: seq<string>, flag: string): (r: Option<string>)
    decreases |args|
    ensures r.Some? ==> exists i :: 0 <= i < |args| - 1 && args[i] == flag && args[i + 1] == r.value &&
                                    flag !in args[..i]
    ensures r.None? ==> forall i :: 0 <= i < |args| - 1 ==> args[i] != flag
  {
    if |args| < 2 then None
    else if args[0] == flag then Some(args[1])
    else
      var rest := FlagValue(args[1..], flag);
      assert forall i :: 1 <= i < |args| ==> args[i] == args[1..][i - 1];
      rest
  }

  /**
   * Provided none of the paths before it is spelled like a flag, the engine
   * reads back exactly the model and output paths it was given.
   */
  lemma BuildCommandReadsBack(exe: string, audio: string, model: string, output: string)
    requires exe != ModelFlag && audio != ModelFlag
    requires exe != OutputFlag && audio != OutputFlag && model != OutputFlag
    ensures FlagValue(BuildCommand(exe, audio, model, output), ModelFlag) == Some(model)
    ensures FlagValue(BuildCommand(exe, audio, model, output), OutputFlag) == Some(output)
  {
    var cmd := BuildCommand(exe, audio, model, output);
    var fromModel := [ModelFlag, model, OutputFlag, output];
    var fromOutput := [OutputFlag, output];
    assert cmd[1..][1..] == fromModel;
    assert fromModel[1..][1..] == fromOutput;
    assert FlagValue(fromModel, ModelFlag) == Some(model);
    assert FlagValue(cmd, ModelFlag) == FlagValue(cmd[1..], ModelFlag) == FlagValue(fromModel, ModelFlag);
    assert FlagValue(fromOutput, OutputFlag) == Some(output);
    assert FlagValue(fromModel, OutputFlag) == FlagValue(fromModel[1..], OutputFlag) == FlagValue(fromOutput, OutputFlag);
    assert FlagValue(cmd, OutputFlag) == FlagValue(cmd[1..], OutputFlag) == FlagValue(fromModel, OutputFlag);
  }

  /** The command run_transcription builds from the hard-coded paths. */
  const EngineCommand: seq<string> :=
    BuildCommand(WhisperFasterPath, AudioFilePath, ModelPath, OutputFilePath)

  /** The engine reads the hard-coded model and output paths back from that command. */
  lemma EngineCommandReadsBack()
    ensures FlagValue(EngineCommand, ModelFlag) == Some(ModelPath)
    ensures FlagValue(EngineCommand, OutputFlag) == Some(OutputFilePath)
    ensures EngineCommand[0] == WhisperFasterPath && EngineCommand[1] == AudioFilePath
  {
    BuildCommandReadsBack(WhisperFasterPath, AudioFilePath, ModelPath, OutputFilePath);
  }

  /**
   * How the engine call ends: normally, with CalledProcessError (non-zero
   * exit, since the call checks the exit status), with another Exception
   * (for instance a missing executable), or with a BaseException that is
   * not an Exception, which no handler catches.
   */
  datatype Outcome = Success | ProcessError | OtherError | Uncaught

  /** Which branch of run_transcription reported the run. */
  datatype Report =
    | AlreadyRunning  // the guard returned early
    | Completed       // the engine finished; its output is printed
    | EngineFailed    // CalledProcessError; its stderr is printed
    | Failed          // any other Exception
    | Propagated      // the exception leaves the thread after `finally`

  /** What `except Exception` catches: CalledProcessError is a subclass of Exception. */
  predicate IsException(o: Outcome) {
    o.ProcessError? || o.OtherError?
  }

  predicate IsCalledProcessError(o: Outcome) {
    o.ProcessError?
  }

  /** An `except` clause of the `try` around the engine call. */
  datatype ExceptClause = CatchCalledProcessError | CatchException

  predicate Catches(h: ExceptClause, o: Outcome) {
    match h
    case CatchCalledProcessError => IsCalledProcessError(o)
    case CatchException => IsException(o)
  }

  function HandlerReport(h: ExceptClause): Report {
    match h
    case CatchCalledProcessError => EngineFailed
    case CatchException => Failed
  }

  /** The `except` clauses in the order they are written. */
  const Handlers: seq<ExceptClause> := [CatchCalledProcessError, CatchException]

  /**
   * Python's dispatch of a raised exception: the first clause that catches
   * it handles it; with none, it propagates once `finally` has run.
   */
  function Dispatch(handlers: seq<ExceptClause>, o: Outcome): Report
    decreases |handlers|
  {
    if |handlers| == 0 then Propagated
    else if Catches(handlers[0], o) then HandlerReport(handlers[0])
    else Dispatch(handlers[1..], o)
  }

  /** The report of a run that reached the engine. */
  function ReportOf(outcome: Outcome): Report {
    if outcome.Success? then Completed else Dispatch(Handlers, outcome)
  }

  /** An exception propagates exactly when none of the clauses catches it. */
  lemma {:induction false} DispatchPropagatesIffUncaught(handlers: seq<ExceptClause>, o: Outcome)
    ensures Dispatch(handlers, o) == Propagated <==> forall i :: 0 <= i < |handlers| ==> !Catches(handlers[i], o)
    decreases |handlers|
  {
    if |handlers| > 0 {
      DispatchPropagatesIffUncaught(handlers[1..], o);
      assert forall i :: 1 <= i < |handlers| ==> handlers[i] == handlers[1..][i - 1];
    }
  }

  /** A clause handles the exception only if every clause before it lets it pass. */
  lemma {:induction false} DispatchFirstMatch(handlers: seq<ExceptClause>, o: Outcome, i: nat)
    requires i < |handlers| && Catches(handlers[i], o)
    requires forall j :: 0 <= j < i ==> !Catches(handlers[j], o)
    ensures Dispatch(handlers, o) == HandlerReport(handlers[i])
    decreases i
  {
    if i > 0 {
      DispatchFirstMatch(handlers[1..], o, i - 1);
    }
  }

  /**
   * Each outcome of the engine call has its own report: CalledProcessError
   * reaches its own clause because that clause comes before the general
   * one, and only an exception outside Exception propagates.
   */
  lemma ReportOfByOutcome(outcome: Outcome)
    ensures ReportOf(outcome) != AlreadyRunning
    ensures ReportOf(outcome) == Completed <==> outcome == Success
    ensures ReportOf(outcome) == EngineFailed <==> outcome == ProcessError
    ensures ReportOf(outcome) == Failed <==> outcome == OtherError
    ensures ReportOf(outcome) == Propagated <==> outcome == Uncaught
  {
    DispatchPropagatesIffUncaught(Handlers, outcome);
    if IsCalledProcessError(outcome) {
      DispatchFirstMatch(Handlers, outcome, 0);
    } else if IsException(outcome) {
      DispatchFirstMatch(Handlers, outcome, 1);
    }
  }

  /**
   * The clause order matters: with `except Exception` first, a
   * CalledProcessError would be reported by the general handler.
   */
  lemma SwappedClausesShadowProcessError()
    ensures Dispatch([CatchException, CatchCalledProcessError], ProcessError) == Failed
    ensures Dispatch(Handlers, ProcessError) == EngineFailed
  {
    DispatchFirstMatch([CatchException, CatchCalledProcessError], ProcessError, 0);
    DispatchFirstMatch(Handlers, ProcessError, 0);
  }

  /** One engine invocation: the argument vector, and the flag's value while it ran. */
  datatype EngineCall = EngineCall(command: seq<string>, flagSet: bool)

  /**
   * The module-level `transcribing` flag. `engineCalls` records every
   * invocation of the engine, so that contracts can say whether a request
   * reached it and what a concurrent request would have seen meanwhile.
   */
  class Transcriber {
    var transcribing: bool
    ghost var engineCalls: seq<EngineCall>

    /** `transcribing = False`, before any request. */
    constructor ()
      ensures !transcribing && engineCalls == []
    {
      transcribing := false;
      engineCalls := [];
    }

    /**
     * The guard: with the flag set, the request is refused and nothing
     * changes; otherwise the flag is set and the run goes ahead.
     */
    method BeginRun() returns (started: bool)
      modifies this
      ensures started <==> !old(transcribing)
      ensures transcribing && engineCalls == old(engineCalls)
    {
      if transcribing {
        return false;
      }
      transcribing := true;
      started := true;
    }

    /**
     * The body of the run, entered with the flag set: the engine is invoked
     * once with EngineCommand while the flag is still set, and the `finally`
     * clause clears it whatever the outcome.
     */
    method EndRun(outcome: Outcome) returns (report: Report)
      requires transcribing
      modifies this
      ensures !transcribing
      ensures engineCalls == old(engineCalls) + [EngineCall(EngineCommand, true)]
      ensures report == ReportOf(outcome)
    {
      var command := EngineCommand;
      engineCalls := engineCalls + [EngineCall(command, transcribing)];
      report := ReportOf(outcome);
      transcribing := false;  // the `finally` clause
    }

    /**
     * One request. Seen with the flag already set (that is, by a request
     * that arrives while another run is in flight) it returns at once: the
     * engine is not invoked and the flag stays set. Otherwise the engine is
     * invoked once with EngineCommand while the flag is set, and the flag is
     * clear afterwards whatever the outcome.
     */
    method RunTranscription(outcome: Outcome) returns (report: Report)
      modifies this
      ensures old(transcribing) ==> transcribing && engineCalls == old(engineCalls) && report == AlreadyRunning
      ensures !old(transcribing) ==> !transcribing && engineCalls == old(engineCalls) + [EngineCall(EngineCommand, true)]
      ensures !old(transcribing) ==> report == ReportOf(outcome)
    {
      var started := BeginRun();
      if !started {
        return AlreadyRunning;
      }
      report := EndRun(outcome);
    }
  }

  /**
   * Two requests where the second arrives while the first is inside the
   * engine call: the second is refused without reaching the engine, the
   * engine runs once, the flag is clear at the end, and a later request is
   * admitted again.
   */
  method OverlappingRequests(first: Outcome, second: Outcome)
    returns (firstStarted: bool, secondReport: Report, firstReport: Report, idleAfter: bool, laterStarted: bool,
             ghost calls: seq<EngineCall>)
    ensures firstStarted && secondReport == AlreadyRunning
    ensures firstReport == ReportOf(first)
    ensures calls == [EngineCall(EngineCommand, true)]
    ensures idleAfter && laterStarted
  {
    var t := new Transcriber();
    firstStarted := t.BeginRun();
    secondReport := t.RunTranscription(second);
    firstReport := t.EndRun(first);
    calls := t.engineCalls;
    idleAfter := !t.transcribing;
    laterStarted := t.BeginRun();
  }
}

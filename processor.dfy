/**
 * The orchestrator as the source runs it: `process` sets up one job, and the handlers
 * the running engine pass attached are called one event at a time, each updating the
 * job in place. Every method is proved to do exactly what `Job.Step` describes, and to
 * keep the job invariant `Job.Inv`.
 */
module AudioProcessor {
  import opened Wrappers
  import opened EffectCatalog
  import opened ProgressScale
  import TempPath
  import opened Job

  class ConversionJob {
    const inputPath: string
    const outputPath: string
    const tempPath: string
    /** The preset found by the lookup; None when the effect id was rejected. */
    const config: Option<Preset>

    var phase: Phase
    /** Whether the temporary file exists. */
    var tempExists: bool
    /** Whether the output file exists. */
    var outputWritten: bool
    /** Every launch, callback, deletion and settlement, in order. */
    ghost var trace: seq<Action>

    ghost function State(): JobState
      reads this
    {
      JobState(inputPath, outputPath, tempPath, config, phase, tempExists, outputWritten, trace)
    }

    ghost predicate Valid()
      reads this
    {
      Inv(State())
    }

    /**
     * `process(inputPath, outputPath, effectType, ...)` up to its first suspension:
     * the lookup, then the rejection or the launch of pass 1 into the temporary file
     * (`now` is the clock reading the temporary name is built from).
     */
    constructor (inputPath: string, outputPath: string, effectType: string, now: nat)
      ensures Valid()
      ensures State() == Start(inputPath, outputPath, effectType, now)
    {
      this.inputPath := inputPath;
      this.outputPath := outputPath;
      var found := Lookup(effectType);
      if found.Failure? {
        config := None;
        tempPath := "";
        phase := Failed;
        tempExists := false;
        outputWritten := false;
        trace := [Settle(Rejected(found.error))];
      } else {
        var tempFile := TempPath.TempFile(outputPath, now);
        config := Some(found.value);
        tempPath := tempFile;
        phase := Pass1Running;
        tempExists := false;
        outputWritten := false;
        trace := [Spawn(Pass(inputPath, tempFile, found.value.filters))];
      }
      new;
      assert State() == Start(inputPath, outputPath, effectType, now);
    }

    /** The `progress` handler of the running pass. */
    method OnProgress(percent: Option<EnginePercent>)
      requires Valid()
      modifies this
      ensures Valid()
      ensures State() == Step(old(State()), Progressed(percent))
    {
      if config.Some? && Running(phase) {
        // pass 1 fills 0..80 of the job, pass 2 fills 80..100
        var report := if phase == Pass1Running
          then Progress(Pass1Percent(percent), Pass1Label(config.value.name), Processing)
          else Progress(Pass2Percent(percent), Pass2Label, Processing);
        assert Notify(report) == Tick(phase, config.value, percent);
        trace := trace + [Notify(report)];
        assert State() == old(State()).(trace := old(trace) + [Tick(phase, config.value, percent)]);
        ProgressStep(old(State()), percent);
        ProgressKeepsInv(old(State()), percent);
      }
    }

    /** The `end` handler of the running pass. */
    method OnEnd()
      requires Valid()
      modifies this
      ensures Valid()
      ensures State() == Step(old(State()), Ended)
    {
      if config.Some? {
        if phase == Pass1Running {
          // pass 1 has written the temporary file
          tempExists := true;
          match config.value.secondPass
          case Some(chain) =>
            phase := Pass2Running;
            trace := trace + [Spawn(Pass(tempPath, outputPath, chain))];
          case None =>
            phase := Succeeded;
            trace := trace + [Notify(Progress(100, CompleteLabel, Status.Success))];
            trace := trace + [Settle(Resolved)];
        } else if phase == Pass2Running {
          outputWritten := true;
          if tempExists {
            tempExists := false;
            trace := trace + [Unlink(tempPath)];
          }
          phase := Succeeded;
          trace := trace + [Notify(Progress(100, CompleteLabel, Status.Success))];
          trace := trace + [Settle(Resolved)];
        }
      }
      assert State() == Step(old(State()), Ended);
      StepKeepsInv(old(State()), Ended);
    }

    /**
     * The `error` handler of the running pass; `fileLeft` says whether the file that
     * pass writes exists when the handler runs.
     */
    method OnError(message: string, fileLeft: bool)
      requires Valid()
      modifies this
      ensures Valid()
      ensures State() == Step(old(State()), Errored(message, fileLeft))
    {
      if config.Some? && Running(phase) {
        if phase == Pass1Running {
          tempExists := fileLeft;
        } else {
          outputWritten := fileLeft;
        }
        if tempExists {
          tempExists := false;
          trace := trace + [Unlink(tempPath)];
        }
        phase := Failed;
        trace := trace + [Notify(ErrorMessage(message))];
        trace := trace + [Settle(Rejected(message))];
      }
      assert State() == Step(old(State()), Errored(message, fileLeft));
      StepKeepsInv(old(State()), Errored(message, fileLeft));
    }

    /** Whether the promise `process` returned has settled. */
    method Settled() returns (settled: bool)
      requires Valid()
      ensures settled <==> !Running(phase)
      ensures settled <==> |trace| > 0 && trace[|trace| - 1].Settle?
    {
      settled := !(phase == Pass1Running || phase == Pass2Running);
    }
  }
}

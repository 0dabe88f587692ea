/**
 * One conversion job as a state machine driven by engine events.
 *
 * `Start` is the synchronous part of `process`: the catalog lookup, then either the
 * rejection or the launch of pass 1 into the temporary file. `Step` is the handler the
 * running pass attaches to the event it receives: `progress`, `end` or `error`. Every
 * observable effect is appended, in the order the handlers perform it, to the job's
 * `trace`: an engine launch, a callback to the caller, a file deletion, the settlement
 * of the returned promise.
 */
module Job {
  import opened Wrappers
  import opened EffectCatalog
  import opened ProgressScale
  import TempPath

  /** The output parameters every pass uses, whatever the effect. */
  const OutputFormat: string := "mp3"
  const OutputBitrate: string := "320k"
  const OutputChannels: nat := 2

  const CompleteLabel: string := "Conversion Complete!"
  const Pass2Label: string := "Adding effects..."

  function Pass1Label(name: string): string {
    "Applying " + name + "..."
  }

  /** One launch of the engine: read `source`, apply `chain` in order, write `target`. */
  datatype Invocation = Invocation(
    source: string, target: string,
    format: string, bitrate: string, channels: nat,
    chain: seq<FilterStage>)

  function Pass(source: string, target: string, chain: seq<FilterStage>): Invocation {
    Invocation(source, target, OutputFormat, OutputBitrate, OutputChannels, chain)
  }

  datatype Status = Processing | Success

  /** A call of the progress callback, or a call of the error callback. */
  datatype Report =
    | Progress(percent: int, caption: string, status: Status)
    | ErrorMessage(message: string)

  /** How the promise `process` returns settles. */
  datatype Outcome = Resolved | Rejected(reason: string)

  datatype Action =
    | Spawn(pass: Invocation)
    | Notify(report: Report)
    | Unlink(path: string)
    | Settle(outcome: Outcome)

  datatype Phase = Pass1Running | Pass2Running | Succeeded | Failed

  /**
   * What a running pass can emit. `fileLeft` of an error says whether the file the
   * failing pass writes exists when the error is handled.
   */
  datatype Event =
    | Progressed(percent: Option<EnginePercent>)
    | Ended
    | Errored(message: string, fileLeft: bool)

  /**
   * `config` is None exactly when the lookup failed (and then no temporary path was
   * built: `tempPath` is empty). `tempExists` and `outputWritten` say whether the
   * temporary file and the output file exist.
   */
  datatype JobState = JobState(
    inputPath: string, outputPath: string, tempPath: string,
    config: Option<Preset>, phase: Phase,
    tempExists: bool, outputWritten: bool,
    trace: seq<Action>)

  predicate Running(phase: Phase) {
    phase == Pass1Running || phase == Pass2Running
  }

  /** The deletion of a file, done only when the file exists. */
  function Release(present: bool, path: string): seq<Action> {
    if present then [Unlink(path)] else []
  }

  /** `process(inputPath, outputPath, effectType, ...)`, with `Date.now()` as `stamp`. */
  function Start(inputPath: string, outputPath: string, effectType: string, stamp: nat): (s: JobState)
    ensures effectType !in Effects <==> s.phase == Failed
    ensures effectType !in Effects ==> s.trace == [Settle(Rejected(InvalidEffect))]
    ensures effectType in Effects ==>
      && s.tempPath == TempPath.TempFile(outputPath, stamp)
      && s.trace == [Spawn(Pass(inputPath, s.tempPath, Effects[effectType].filters))]
    ensures Inv(s)
  {
    match Lookup(effectType)
    case Failure(reason) =>
      JobState(inputPath, outputPath, "", None, Failed, false, false, [Settle(Rejected(reason))])
    case Success(config) =>
      var tempPath := TempPath.TempFile(outputPath, stamp);
      JobState(inputPath, outputPath, tempPath, Some(config), Pass1Running, false, false,
               [Spawn(Pass(inputPath, tempPath, config.filters))])
  }

  /** The handler of the running pass for one event; with no pass running nothing happens. */
  function Step(s: JobState, e: Event): (r: JobState)
    ensures r.inputPath == s.inputPath && r.outputPath == s.outputPath
    ensures r.tempPath == s.tempPath && r.config == s.config
    ensures s.config.None? || !Running(s.phase) ==> r == s
  {
    if s.config.None? || !Running(s.phase) then s
    else
      var config := s.config.value;
      match (s.phase, e)
      case (Pass1Running, Progressed(p)) =>
        s.(trace := s.trace + [Notify(Progress(Pass1Percent(p), Pass1Label(config.name), Processing))])
      case (Pass1Running, Errored(message, fileLeft)) =>
        s.(phase := Failed, tempExists := false,
           trace := s.trace + Release(fileLeft, s.tempPath)
                    + [Notify(ErrorMessage(message)), Settle(Rejected(message))])
      case (Pass1Running, Ended) =>
        (match config.secondPass
         case None =>
           s.(phase := Succeeded, tempExists := true,
              trace := s.trace + [Notify(Progress(100, CompleteLabel, Status.Success)), Settle(Resolved)])
         case Some(chain) =>
           s.(phase := Pass2Running, tempExists := true,
              trace := s.trace + [Spawn(Pass(s.tempPath, s.outputPath, chain))]))
      case (Pass2Running, Progressed(p)) =>
        s.(trace := s.trace + [Notify(Progress(Pass2Percent(p), Pass2Label, Processing))])
      case (Pass2Running, Ended) =>
        s.(phase := Succeeded, tempExists := false, outputWritten := true,
           trace := s.trace + Release(s.tempExists, s.tempPath)
                    + [Notify(Progress(100, CompleteLabel, Status.Success)), Settle(Resolved)])
      case (Pass2Running, Errored(message, fileLeft)) =>
        s.(phase := Failed, tempExists := false, outputWritten := fileLeft,
           trace := s.trace + Release(s.tempExists, s.tempPath)
                    + [Notify(ErrorMessage(message)), Settle(Rejected(message))])
  }

  function Mapped(phase: Phase, p: Option<EnginePercent>): int {
    if phase == Pass1Running then Pass1Percent(p) else Pass2Percent(p)
  }

  function Caption(phase: Phase, config: Preset): string {
    if phase == Pass1Running then Pass1Label(config.name) else Pass2Label
  }

  /** The progress callback the running pass makes for one estimate. */
  function Tick(phase: Phase, config: Preset, p: Option<EnginePercent>): Action {
    Notify(Progress(Mapped(phase, p), Caption(phase, config), Processing))
  }

  lemma ProgressStep(s: JobState, p: Option<EnginePercent>)
    requires s.config.Some? && Running(s.phase)
    ensures Step(s, Progressed(p)) == s.(trace := s.trace + [Tick(s.phase, s.config.value, p)])
  {
  }

  /** The job after the engine emits `events`, one after another. */
  function Run(s: JobState, events: seq<Event>): (r: JobState)
    ensures r.inputPath == s.inputPath && r.outputPath == s.outputPath
    ensures r.tempPath == s.tempPath && r.config == s.config
    decreases |events|
  {
    if events == [] then s else Run(Step(s, events[0]), events[1..])
  }

  /** A handler only ever appends to the trace: what happened stays recorded. */
  lemma StepExtends(s: JobState, e: Event)
    ensures |s.trace| <= |Step(s, e).trace| && Step(s, e).trace[..|s.trace|] == s.trace
  {
  }

  lemma {:induction false} RunExtends(s: JobState, events: seq<Event>)
    ensures |s.trace| <= |Run(s, events).trace| && Run(s, events).trace[..|s.trace|] == s.trace
    decreases |events|
  {
    if events != [] {
      var s1 := Step(s, events[0]);
      StepExtends(s, events[0]);
      RunExtends(s1, events[1..]);
      var t := Run(s, events).trace;
      assert t[..|s1.trace|][..|s.trace|] == t[..|s.trace|];
    }
  }

  // ---------------------------------------------------------------------------
  // The invariant of every job state reachable from Start

  /** The engine launches recorded in a trace, in order. */
  function Spawns(t: seq<Action>): seq<Invocation> {
    if t == [] then []
    else Spawns(t[..|t| - 1]) + (if t[|t| - 1].Spawn? then [t[|t| - 1].pass] else [])
  }

  /** Which pass was running when action `i` happened: the launches before it. */
  function Stage(t: seq<Action>, i: nat): nat
    requires i <= |t|
  {
    |Spawns(t[..i])|
  }

  predicate IsProcessing(a: Action) {
    a.Notify? && a.report.Progress? && a.report.status == Processing
  }

  /** A call of the error callback or the success report. */
  predicate IsTerminalNote(a: Action) {
    a.Notify? && !IsProcessing(a)
  }

  /** A progress report lies in the band, and carries the label, of the pass that made it. */
  predicate InBand(config: Preset, stage: nat, r: Report) {
    && r.Progress?
    && ((stage == 1 && r.caption == Pass1Label(config.name) && 0 <= r.percent <= 80)
        || (stage == 2 && r.caption == Pass2Label && 80 <= r.percent <= 100))
  }

  predicate BandsHold(config: Preset, t: seq<Action>) {
    forall i :: 0 <= i < |t| && IsProcessing(t[i]) ==> InBand(config, Stage(t, i), t[i].report)
  }

  /** The trace of a job still running: launches and progress reports only. */
  predicate Quiet(t: seq<Action>) {
    forall i :: 0 <= i < |t| ==> t[i].Spawn? || IsProcessing(t[i])
  }

  /** The promise settles once, and nothing follows the settlement. */
  predicate SettlesLast(t: seq<Action>) {
    forall i :: 0 <= i < |t| && t[i].Settle? ==> i == |t| - 1
  }

  /** The one callback other than a progress report comes right before the settlement. */
  predicate CallbackLast(t: seq<Action>) {
    forall i :: 0 <= i < |t| && IsTerminalNote(t[i]) ==> i == |t| - 2
  }

  /** The temporary file is deleted at most once, right before that callback. */
  predicate UnlinkLast(t: seq<Action>, tempPath: string) {
    forall i :: 0 <= i < |t| && t[i].Unlink? ==> i == |t| - 3 && t[i].path == tempPath
  }

  ghost predicate AcceptedInv(s: JobState, config: Preset) {
    var t := s.trace;
    && |t| >= 1
    && t[0] == Spawn(Pass(s.inputPath, s.tempPath, config.filters))
    && 1 <= |Spawns(t)| <= 2
    && (|Spawns(t)| == 2 ==>
          config.secondPass.Some? && Spawns(t)[1] == Pass(s.tempPath, s.outputPath, config.secondPass.value))
    && BandsHold(config, t)
    && match s.phase
       case Pass1Running => Quiet(t) && |Spawns(t)| == 1 && !s.tempExists && !s.outputWritten
       case Pass2Running => Quiet(t) && |Spawns(t)| == 2 && s.tempExists && !s.outputWritten
       case Succeeded =>
         && |t| >= 2 && SettlesLast(t) && CallbackLast(t) && UnlinkLast(t, s.tempPath)
         && t[|t| - 2] == Notify(Progress(100, CompleteLabel, Status.Success))
         && t[|t| - 1] == Settle(Resolved)
         && (|Spawns(t)| == 2 <==> config.secondPass.Some?)
         && (if |Spawns(t)| == 2
             then !s.tempExists && s.outputWritten && |t| >= 3 && t[|t| - 3] == Unlink(s.tempPath)
             else s.tempExists && !s.outputWritten)
       case Failed =>
         && |t| >= 2 && SettlesLast(t) && CallbackLast(t) && UnlinkLast(t, s.tempPath)
         && t[|t| - 1].Settle? && t[|t| - 1].outcome.Rejected?
         && t[|t| - 2] == Notify(ErrorMessage(t[|t| - 1].outcome.reason))
         && !s.tempExists
         && (|Spawns(t)| == 1 ==> !s.outputWritten)
         && (|Spawns(t)| == 2 ==> |t| >= 3 && t[|t| - 3] == Unlink(s.tempPath))
  }

  ghost predicate Inv(s: JobState) {
    match s.config
    case None =>
      s.phase == Failed && !s.tempExists && !s.outputWritten && s.trace == [Settle(Rejected(InvalidEffect))]
    case Some(config) =>
      AcceptedInv(s, config)
  }

  // ---------------------------------------------------------------------------
  // Facts about traces

  lemma {:induction false} SpawnsAppend(t: seq<Action>, u: seq<Action>)
    ensures Spawns(t + u) == Spawns(t) + Spawns(u)
    decreases |u|
  {
    if u != [] {
      var v := u[..|u| - 1];
      var a := u[|u| - 1];
      assert (t + u)[..|t + u| - 1] == t + v;
      assert (t + u)[|t + u| - 1] == a;
      SpawnsAppend(t, v);
      calc {
        Spawns(t + u);
        Spawns(t + v) + (if a.Spawn? then [a.pass] else []);
        Spawns(t) + Spawns(v) + (if a.Spawn? then [a.pass] else []);
        Spawns(t) + Spawns(u);
      }
    } else {
      assert t + u == t;
    }
  }

  lemma SpawnsSingle(a: Action)
    ensures Spawns([a]) == if a.Spawn? then [a.pass] else []
  {
    assert [a][..0] == [];
  }

  lemma {:induction false} NoSpawns(u: seq<Action>)
    requires forall j :: 0 <= j < |u| ==> !u[j].Spawn?
    ensures Spawns(u) == []
    decreases |u|
  {
    if u != [] {
      NoSpawns(u[..|u| - 1]);
    }
  }

  /** Appending actions leaves the stage of every earlier action as it was. */
  lemma StagePrefix(t: seq<Action>, u: seq<Action>, i: nat)
    requires i <= |t|
    ensures Stage(t + u, i) == Stage(t, i)
  {
    assert (t + u)[..i] == t[..i];
  }

  lemma StageEnd(t: seq<Action>)
    ensures Stage(t, |t|) == |Spawns(t)|
  {
    assert t[..|t|] == t;
  }

  /** The bands of earlier reports survive appending actions that report no progress. */
  lemma BandsAppend(config: Preset, t: seq<Action>, u: seq<Action>)
    requires BandsHold(config, t)
    requires forall j :: 0 <= j < |u| ==> !IsProcessing(u[j])
    ensures BandsHold(config, t + u)
  {
    forall i | 0 <= i < |t + u| && IsProcessing((t + u)[i])
      ensures InBand(config, Stage(t + u, i), (t + u)[i].report)
    {
      StagePrefix(t, u, i);
    }
  }

  /** A progress report made while launch number |Spawns(t)| runs, in that pass's band. */
  lemma BandsAppendReport(config: Preset, t: seq<Action>, a: Action)
    requires BandsHold(config, t) && IsProcessing(a) && InBand(config, |Spawns(t)|, a.report)
    ensures BandsHold(config, t + [a])
  {
    forall i | 0 <= i < |t + [a]| && IsProcessing((t + [a])[i])
      ensures InBand(config, Stage(t + [a], i), (t + [a])[i].report)
    {
      StagePrefix(t, [a], i);
      if i == |t| { StageEnd(t); }
    }
  }

  /** The closing actions of a job appended to the trace it had while running. */
  lemma FinishShape(t: seq<Action>, release: seq<Action>, r: Report, o: Outcome, tempPath: string)
    requires Quiet(t)
    requires release == [] || release == [Unlink(tempPath)]
    requires IsTerminalNote(Notify(r))
    ensures SettlesLast(t + release + [Notify(r), Settle(o)])
    ensures CallbackLast(t + release + [Notify(r), Settle(o)])
    ensures UnlinkLast(t + release + [Notify(r), Settle(o)], tempPath)
  {
  }

  // ---------------------------------------------------------------------------
  // The invariant holds of every reachable state

  /** A progress event adds one report in the band of the running pass. */
  lemma ProgressKeepsInv(s: JobState, p: Option<EnginePercent>)
    requires s.config.Some? && Running(s.phase) && Inv(s)
    ensures Inv(Step(s, Progressed(p)))
  {
    var config := s.config.value;
    var t := s.trace;
    var a := Tick(s.phase, config, p);
    ProgressStep(s, p);
    SpawnsAppend(t, [a]);
    SpawnsSingle(a);
    assert InBand(config, |Spawns(t)|, a.report);
    BandsAppendReport(config, t, a);
  }

  /** The end of pass 1 of a two-pass effect launches pass 2. */
  lemma SecondLaunchKeepsInv(s: JobState)
    requires s.config.Some? && s.phase == Pass1Running && s.config.value.secondPass.Some? && Inv(s)
    ensures Inv(Step(s, Ended))
  {
    var config := s.config.value;
    var t := s.trace;
    var a := Spawn(Pass(s.tempPath, s.outputPath, config.secondPass.value));
    assert Step(s, Ended).trace == t + [a];
    SpawnsAppend(t, [a]);
    SpawnsSingle(a);
    BandsAppend(config, t, [a]);
  }

  /** The closing actions appended to a running job's trace keep the launches and bands. */
  lemma CloseKeeps(s: JobState, s': JobState, release: seq<Action>, r: Report, o: Outcome)
    requires s.config.Some? && Running(s.phase) && Inv(s)
    requires release == [] || release == [Unlink(s.tempPath)]
    requires IsTerminalNote(Notify(r))
    requires s'.trace == s.trace + release + [Notify(r), Settle(o)]
    ensures SettlesLast(s'.trace) && CallbackLast(s'.trace) && UnlinkLast(s'.trace, s.tempPath)
    ensures Spawns(s'.trace) == Spawns(s.trace)
    ensures BandsHold(s.config.value, s'.trace)
    ensures s'.trace[0] == s.trace[0]
  {
    var t := s.trace;
    var u := release + [Notify(r), Settle(o)];
    assert s'.trace == t + u;
    FinishShape(t, release, r, o, s.tempPath);
    SpawnsAppend(t, u);
    NoSpawns(u);
    BandsAppend(s.config.value, t, u);
  }

  lemma Pass1ErrorKeepsInv(s: JobState, message: string, fileLeft: bool)
    requires s.config.Some? && s.phase == Pass1Running && Inv(s)
    ensures Inv(Step(s, Errored(message, fileLeft)))
  {
    CloseKeeps(s, Step(s, Errored(message, fileLeft)), Release(fileLeft, s.tempPath),
               ErrorMessage(message), Rejected(message));
  }

  lemma SingleEndKeepsInv(s: JobState)
    requires s.config.Some? && s.phase == Pass1Running && s.config.value.secondPass.None? && Inv(s)
    ensures Inv(Step(s, Ended))
  {
    CloseKeeps(s, Step(s, Ended), [], Progress(100, CompleteLabel, Status.Success), Resolved);
  }

  lemma Pass2EndKeepsInv(s: JobState)
    requires s.config.Some? && s.phase == Pass2Running && Inv(s)
    ensures Inv(Step(s, Ended))
  {
    CloseKeeps(s, Step(s, Ended), Release(s.tempExists, s.tempPath),
               Progress(100, CompleteLabel, Status.Success), Resolved);
  }

  lemma Pass2ErrorKeepsInv(s: JobState, message: string, fileLeft: bool)
    requires s.config.Some? && s.phase == Pass2Running && Inv(s)
    ensures Inv(Step(s, Errored(message, fileLeft)))
  {
    CloseKeeps(s, Step(s, Errored(message, fileLeft)), Release(s.tempExists, s.tempPath),
               ErrorMessage(message), Rejected(message));
  }

  lemma StepKeepsInv(s: JobState, e: Event)
    requires Inv(s)
    ensures Inv(Step(s, e))
  {
    if s.config.Some? && Running(s.phase) {
      match e
      case Progressed(p) => ProgressKeepsInv(s, p);
      case Ended =>
        if s.phase == Pass2Running {
          Pass2EndKeepsInv(s);
        } else if s.config.value.secondPass.Some? {
          SecondLaunchKeepsInv(s);
        } else {
          SingleEndKeepsInv(s);
        }
      case Errored(message, fileLeft) =>
        if s.phase == Pass1Running {
          Pass1ErrorKeepsInv(s, message, fileLeft);
        } else {
          Pass2ErrorKeepsInv(s, message, fileLeft);
        }
    }
  }
  lemma {:induction false} RunKeepsInv(s: JobState, events: seq<Event>)
    requires Inv(s)
    ensures Inv(Run(s, events))
    decreases |events|
  {
    if events != [] {
      StepKeepsInv(s, events[0]);
      RunKeepsInv(Step(s, events[0]), events[1..]);
    }
  }

  /** Once settled, a job takes no further action whatever the engine emits. */
  lemma {:induction false} FinishedIsFinal(s: JobState, events: seq<Event>)
    requires s.config.None? || !Running(s.phase)
    ensures Run(s, events) == s
    decreases |events|
  {
    if events != [] {
      FinishedIsFinal(Step(s, events[0]), events[1..]);
    }
  }

  lemma {:induction false} RunAppend(s: JobState, a: seq<Event>, b: seq<Event>)
    ensures Run(s, a + b) == Run(Run(s, a), b)
    decreases |a|
  {
    if a == [] {
      assert a + b == b;
    } else {
      assert (a + b)[0] == a[0];
      assert (a + b)[1..] == a[1..] + b;
      RunAppend(Step(s, a[0]), a[1..], b);
    }
  }

  lemma RunSingle(s: JobState, e: Event)
    ensures Run(s, [e]) == Step(s, e)
  {
    assert [e][1..] == [];
  }

  // ---------------------------------------------------------------------------
  // What the caller observes over a whole job

  /**
   * An unknown effect id is rejected with "Invalid effect type" and nothing else: no
   * temporary path, no engine launch, no callback, whatever the engine would emit.
   */
  lemma InvalidEffectRejected(inputPath: string, outputPath: string, effectType: string, stamp: nat,
                              events: seq<Event>)
    requires effectType !in Effects
    ensures Run(Start(inputPath, outputPath, effectType, stamp), events).trace == [Settle(Rejected(InvalidEffect))]
    ensures Run(Start(inputPath, outputPath, effectType, stamp), events).phase == Failed
    ensures Spawns(Run(Start(inputPath, outputPath, effectType, stamp), events).trace) == []
  {
    FinishedIsFinal(Start(inputPath, outputPath, effectType, stamp), events);
    SpawnsSingle(Settle(Rejected(InvalidEffect)));
  }

  /**
   * Whatever the engine emits, a job for a known effect: launches pass 1 from the input
   * into the temporary file with the preset's first chain, and pass 2 (if ever) from the
   * temporary file into the output with the second chain; reports every pass-1 progress
   * in 0..80 and every pass-2 progress in 80..100; settles at most once, as its last
   * action, right after the one terminal callback; and leaves no temporary file behind
   * except after a single-pass success, whose result stays at the temporary path.
   */
  lemma JobGuarantees(inputPath: string, outputPath: string, effectType: string, stamp: nat,
                      events: seq<Event>)
    requires effectType in Effects
    ensures var s := Run(Start(inputPath, outputPath, effectType, stamp), events);
      var config := Effects[effectType];
      var t := s.trace;
      && |t| >= 1
      && t[0] == Spawn(Pass(inputPath, TempPath.TempFile(outputPath, stamp), config.filters))
      && (|Spawns(t)| == 2 ==>
            && config.secondPass.Some?
            && Spawns(t)[1] == Pass(TempPath.TempFile(outputPath, stamp), outputPath, config.secondPass.value))
      && |Spawns(t)| <= 2
      && (forall i :: 0 <= i < |t| && IsProcessing(t[i]) ==> InBand(config, Stage(t, i), t[i].report))
      && (Running(s.phase) ==> Quiet(t))
      && (!Running(s.phase) ==> SettlesLast(t) && CallbackLast(t) && t[|t| - 1].Settle?)
      && (s.phase == Failed ==>
            && !s.tempExists
            && t[|t| - 1].outcome.Rejected?
            && t[|t| - 2] == Notify(ErrorMessage(t[|t| - 1].outcome.reason))
            && (|Spawns(t)| == 2 ==> |t| >= 3 && t[|t| - 3] == Unlink(TempPath.TempFile(outputPath, stamp))))
      && (s.phase == Succeeded && config.secondPass.Some? ==>
            && !s.tempExists && s.outputWritten && |t| >= 3
            && t[|t| - 3..] == [Unlink(TempPath.TempFile(outputPath, stamp)),
                                Notify(Progress(100, CompleteLabel, Status.Success)), Settle(Resolved)])
      && (s.phase == Succeeded && config.secondPass.None? ==>
            && s.tempExists && !s.outputWritten && |t| >= 2
            && t[|t| - 2..] == [Notify(Progress(100, CompleteLabel, Status.Success)), Settle(Resolved)])
  {
    var s0 := Start(inputPath, outputPath, effectType, stamp);
    RunKeepsInv(s0, events);
  }

  // ---------------------------------------------------------------------------
  // A job driven pass by pass: each pass reports a list of estimates, then ends or fails

  datatype Finish = Completes | Fails(message: string, fileLeft: bool)

  datatype PassRun = PassRun(estimates: seq<Option<EnginePercent>>, finish: Finish)

  function Ticks(ps: seq<Option<EnginePercent>>): seq<Event> {
    if ps == [] then [] else [Progressed(ps[0])] + Ticks(ps[1..])
  }

  function FinishEvent(f: Finish): Event {
    match f
    case Completes => Ended
    case Fails(message, fileLeft) => Errored(message, fileLeft)
  }

  function PassEvents(r: PassRun): seq<Event> {
    Ticks(r.estimates) + [FinishEvent(r.finish)]
  }

  /** Estimates that never go back, a missing one counting as 0. */
  predicate Sorted(ps: seq<Option<EnginePercent>>) {
    forall i, j :: 0 <= i <= j < |ps| ==> OrZero(ps[i]) <= OrZero(ps[j])
  }

  predicate NonDecreasing(xs: seq<int>) {
    forall i, j :: 0 <= i <= j < |xs| ==> xs[i] <= xs[j]
  }

  /** The percents of the progress callbacks in a trace, in order. */
  function Percents(t: seq<Action>): seq<int> {
    if t == [] then []
    else (if t[0].Notify? && t[0].report.Progress? then [t[0].report.percent] else []) + Percents(t[1..])
  }

  /** The progress callbacks a running pass makes for a list of estimates. */
  function Notes(phase: Phase, config: Preset, ps: seq<Option<EnginePercent>>): seq<Action> {
    if ps == [] then []
    else [Tick(phase, config, ps[0])] + Notes(phase, config, ps[1..])
  }

  lemma FirstTick(s: JobState, ps: seq<Option<EnginePercent>>)
    requires s.config.Some? && Running(s.phase) && ps != []
    ensures Run(s, Ticks(ps)) == Run(s.(trace := s.trace + [Tick(s.phase, s.config.value, ps[0])]), Ticks(ps[1..]))
  {
    var events := Ticks(ps);
    assert events[0] == Progressed(ps[0]) && events[1..] == Ticks(ps[1..]);
    ProgressStep(s, ps[0]);
  }

  lemma {:induction false} FeedTicks(s: JobState, ps: seq<Option<EnginePercent>>)
    requires s.config.Some? && Running(s.phase)
    ensures Run(s, Ticks(ps)) == s.(trace := s.trace + Notes(s.phase, s.config.value, ps))
    decreases |ps|
  {
    var config := s.config.value;
    if ps == [] {
      assert s.trace + [] == s.trace;
    } else {
      var tick := Tick(s.phase, config, ps[0]);
      var rest := Notes(s.phase, config, ps[1..]);
      var s1 := s.(trace := s.trace + [tick]);
      FirstTick(s, ps);
      FeedTicks(s1, ps[1..]);
      assert Notes(s.phase, config, ps) == [tick] + rest;
      assert s.trace + [tick] + rest == s.trace + ([tick] + rest);
      assert s1.(trace := s1.trace + rest) == s.(trace := s.trace + Notes(s.phase, config, ps));
    }
  }

  lemma {:induction false} PercentsAppend(t: seq<Action>, u: seq<Action>)
    ensures Percents(t + u) == Percents(t) + Percents(u)
    decreases |t|
  {
    if t == [] {
      assert t + u == u;
    } else {
      assert (t + u)[0] == t[0];
      assert (t + u)[1..] == t[1..] + u;
      PercentsAppend(t[1..], u);
    }
  }

  lemma {:induction false} NotesPercents(phase: Phase, config: Preset, ps: seq<Option<EnginePercent>>)
    ensures |Percents(Notes(phase, config, ps))| == |ps|
    ensures forall i :: 0 <= i < |ps| ==> Percents(Notes(phase, config, ps))[i] == Mapped(phase, ps[i])
    decreases |ps|
  {
    if ps != [] {
      var n := Notes(phase, config, ps);
      assert n[0].Notify? && n[0].report.Progress?;
      assert n[1..] == Notes(phase, config, ps[1..]);
      NotesPercents(phase, config, ps[1..]);
    }
  }

  /** Sorted estimates of one pass give non-decreasing percents within that pass's band. */
  lemma NotesMonotone(phase: Phase, config: Preset, ps: seq<Option<EnginePercent>>)
    requires Sorted(ps)
    ensures NonDecreasing(Percents(Notes(phase, config, ps)))
    ensures phase == Pass1Running ==> forall x :: x in Percents(Notes(phase, config, ps)) ==> 0 <= x <= 80
    ensures phase != Pass1Running ==> forall x :: x in Percents(Notes(phase, config, ps)) ==> 80 <= x <= 100
  {
    var xs := Percents(Notes(phase, config, ps));
    NotesPercents(phase, config, ps);
    forall i, j | 0 <= i <= j < |xs| ensures xs[i] <= xs[j] {
      if phase == Pass1Running {
        Pass1Monotone(ps[i], ps[j]);
      } else {
        Pass2Monotone(ps[i], ps[j]);
      }
    }
  }

  lemma NonDecreasingAppend(a: seq<int>, b: seq<int>, bound: int)
    requires NonDecreasing(a) && NonDecreasing(b)
    requires forall x :: x in a ==> x <= bound
    requires forall y :: y in b ==> bound <= y
    ensures NonDecreasing(a + b)
  {
    forall i, j | 0 <= i <= j < |a + b| ensures (a + b)[i] <= (a + b)[j] {
      if i < |a| && j >= |a| {
        assert a[i] in a && b[j - |a|] in b;
      }
    }
  }

  lemma PercentsSingle(a: Action)
    ensures Percents([a]) == if a.Notify? && a.report.Progress? then [a.report.percent] else []
  {
    assert [a][1..] == [];
  }

  /** The percents of the actions that close a job: only a success report carries one. */
  lemma ClosingPercents(release: seq<Action>, r: Report, o: Outcome, path: string)
    requires release == [] || release == [Unlink(path)]
    ensures Percents(release + [Notify(r), Settle(o)]) == if r.Progress? then [r.percent] else []
  {
    assert release + [Notify(r), Settle(o)] == release + [Notify(r)] + [Settle(o)];
    PercentsAppend(release + [Notify(r)], [Settle(o)]);
    PercentsAppend(release, [Notify(r)]);
    PercentsSingle(Notify(r));
    PercentsSingle(Settle(o));
    if release != [] {
      PercentsSingle(Unlink(path));
    }
  }

  lemma {:induction false} NotesAreReports(phase: Phase, config: Preset, ps: seq<Option<EnginePercent>>)
    ensures forall i :: 0 <= i < |Notes(phase, config, ps)| ==> IsProcessing(Notes(phase, config, ps)[i])
    decreases |ps|
  {
    if ps != [] {
      NotesAreReports(phase, config, ps[1..]);
    }
  }

  /** Pass 1 of a known effect after its estimates: only the launch and the pass-1 reports. */
  lemma Pass1Fed(inputPath: string, outputPath: string, effectType: string, stamp: nat, first: PassRun)
    requires effectType in Effects
    ensures var s0 := Start(inputPath, outputPath, effectType, stamp);
      var s1 := Run(s0, Ticks(first.estimates));
      && s1 == s0.(trace := s0.trace + Notes(Pass1Running, Effects[effectType], first.estimates))
      && Percents(s1.trace) == Percents(Notes(Pass1Running, Effects[effectType], first.estimates))
      && |Spawns(s1.trace)| == 1
  {
    var config := Effects[effectType];
    var s0 := Start(inputPath, outputPath, effectType, stamp);
    var n1 := Notes(Pass1Running, config, first.estimates);
    FeedTicks(s0, first.estimates);
    PercentsAppend(s0.trace, n1);
    PercentsSingle(s0.trace[0]);
    NotesAreReports(Pass1Running, config, first.estimates);
    NoSpawns(n1);
    SpawnsAppend(s0.trace, n1);
    SpawnsSingle(s0.trace[0]);
  }

  /** The terminal callback and the settlement with which a pass's end or failure closes the job. */
  function Settlement(f: Finish): seq<Action> {
    match f
    case Completes => [Notify(Progress(100, CompleteLabel, Status.Success)), Settle(Resolved)]
    case Fails(message, _) => [Notify(ErrorMessage(message)), Settle(Rejected(message))]
  }

  /** Proof device: the actions `Step` appends when `f` closes a job running `s.phase`. */
  function Closing(s: JobState, f: Finish): seq<Action> {
    (if s.phase == Pass1Running && f.Fails? then Release(f.fileLeft, s.tempPath)
     else Release(s.tempExists, s.tempPath))
    + Settlement(f)
  }

  lemma FinishTrace(s: JobState, f: Finish)
    requires s.config.Some? && Running(s.phase)
    requires f.Completes? ==> s.phase == Pass2Running || s.config.value.secondPass.None?
    requires s.phase == Pass2Running ==> s.tempExists
    requires s.phase == Pass1Running ==> !s.tempExists && !s.outputWritten
    ensures var s' := Step(s, FinishEvent(f));
      && s'.trace == s.trace + Closing(s, f)
      && s'.phase == (if f.Completes? then Succeeded else Failed)
      && !s'.tempExists == (s.phase == Pass2Running || f.Fails?)
      && s'.outputWritten == (s.phase == Pass2Running && (f.Completes? || f.fileLeft))
  {
  }

  lemma FinishStep(s: JobState, f: Finish)
    requires s.config.Some? && Running(s.phase)
    requires f.Completes? ==> s.phase == Pass2Running || s.config.value.secondPass.None?
    requires s.phase == Pass2Running ==> s.tempExists
    requires s.phase == Pass1Running ==> !s.tempExists && !s.outputWritten
    ensures var s' := Step(s, FinishEvent(f));
      && s'.phase == (if f.Completes? then Succeeded else Failed)
      && Percents(s'.trace) == Percents(s.trace) + (if f.Completes? then [100] else [])
      && Spawns(s'.trace) == Spawns(s.trace)
      && !s'.tempExists == (s.phase == Pass2Running || f.Fails?)
      && s'.outputWritten == (s.phase == Pass2Running && (f.Completes? || f.fileLeft))
  {
    FinishTrace(s, f);
    ClosingFacts(s, f);
    PercentsAppend(s.trace, Closing(s, f));
    SpawnsAppend(s.trace, Closing(s, f));
  }

  lemma ClosingFacts(s: JobState, f: Finish)
    ensures Percents(Closing(s, f)) == if f.Completes? then [100] else []
    ensures Spawns(Closing(s, f)) == []
  {
    var release := if s.phase == Pass1Running && f.Fails? then Release(f.fileLeft, s.tempPath)
                   else Release(s.tempExists, s.tempPath);
    var note := if f.Completes? then Progress(100, CompleteLabel, Status.Success) else ErrorMessage(f.message);
    var outcome := if f.Completes? then Resolved else Rejected(f.message);
    assert Closing(s, f) == release + [Notify(note), Settle(outcome)];
    ClosingPercents(release, note, outcome, s.tempPath);
    NoSpawns(Closing(s, f));
  }

  /** A pass that runs through its estimates, then ends or fails, on a job running it. */
  lemma PassFed(s: JobState, r: PassRun)
    requires s.config.Some? && Running(s.phase)
    requires r.finish.Completes? ==> s.phase == Pass2Running || s.config.value.secondPass.None?
    requires s.phase == Pass2Running ==> s.tempExists
    requires s.phase == Pass1Running ==> !s.tempExists && !s.outputWritten
    ensures var s' := Run(s, PassEvents(r));
      var notes := Notes(s.phase, s.config.value, r.estimates);
      && s'.phase == (if r.finish.Completes? then Succeeded else Failed)
      && Percents(s'.trace) == Percents(s.trace) + Percents(notes)
                               + (if r.finish.Completes? then [100] else [])
      && Spawns(s'.trace) == Spawns(s.trace)
      && !s'.tempExists == (s.phase == Pass2Running || r.finish.Fails?)
      && s'.outputWritten == (s.phase == Pass2Running && (r.finish.Completes? || r.finish.fileLeft))
      && s'.trace == s.trace + notes + Closing(s, r.finish)
  {
    var notes := Notes(s.phase, s.config.value, r.estimates);
    RunAppend(s, Ticks(r.estimates), [FinishEvent(r.finish)]);
    FeedTicks(s, r.estimates);
    var s1 := s.(trace := s.trace + notes);
    RunSingle(s1, FinishEvent(r.finish));
    FinishStep(s1, r.finish);
    FinishTrace(s1, r.finish);
    assert Closing(s1, r.finish) == Closing(s, r.finish);
    PercentsAppend(s.trace, notes);
    NotesAreReports(s.phase, s.config.value, r.estimates);
    NoSpawns(notes);
    SpawnsAppend(s.trace, notes);
  }

  /** A known effect's job once pass 1 has run through its estimates and ended or failed. */
  lemma AfterFirstPass(inputPath: string, outputPath: string, effectType: string, stamp: nat, first: PassRun)
    requires effectType in Effects
    ensures var config := Effects[effectType];
      var temp := TempPath.TempFile(outputPath, stamp);
      var s := Run(Start(inputPath, outputPath, effectType, stamp), PassEvents(first));
      var notes := Notes(Pass1Running, config, first.estimates);
      var p1 := Percents(notes);
      && s.config == Some(config) && s.tempPath == temp
      && (if first.finish.Fails? || config.secondPass.None? then
            && s.trace == [Spawn(Pass(inputPath, temp, config.filters))] + notes
                          + Release(first.finish.Fails? && first.finish.fileLeft, temp) + Settlement(first.finish)
            && s.phase == (if first.finish.Completes? then Succeeded else Failed)
            && Percents(s.trace) == p1 + (if first.finish.Completes? then [100] else [])
            && |Spawns(s.trace)| == 1
            && s.tempExists == first.finish.Completes? && !s.outputWritten
          else
            && s.trace == [Spawn(Pass(inputPath, temp, config.filters))] + notes
                          + [Spawn(Pass(temp, outputPath, config.secondPass.value))]
            && s.phase == Pass2Running
            && Percents(s.trace) == p1
            && |Spawns(s.trace)| == 2
            && s.tempExists && !s.outputWritten)
  {
    var config := Effects[effectType];
    var s0 := Start(inputPath, outputPath, effectType, stamp);
    RunAppend(s0, Ticks(first.estimates), [FinishEvent(first.finish)]);
    Pass1Fed(inputPath, outputPath, effectType, stamp, first);
    var s1 := Run(s0, Ticks(first.estimates));
    RunSingle(s1, FinishEvent(first.finish));
    if first.finish.Fails? || config.secondPass.None? {
      FinishStep(s1, first.finish);
      FinishTrace(s1, first.finish);
      assert Closing(s1, first.finish)
          == Release(first.finish.Fails? && first.finish.fileLeft, s1.tempPath) + Settlement(first.finish);
    } else {
      var launch := Spawn(Pass(s1.tempPath, outputPath, config.secondPass.value));
      assert Step(s1, Ended).trace == s1.trace + [launch];
      PercentsAppend(s1.trace, [launch]);
      PercentsSingle(launch);
      SpawnsAppend(s1.trace, [launch]);
      SpawnsSingle(launch);
    }
  }

  /** Pass-1 percents, then pass-2 percents, then possibly the closing 100, never go back. */
  lemma BandsConcatenate(p1: seq<int>, p2: seq<int>, done: bool)
    requires NonDecreasing(p1) && (forall x :: x in p1 ==> x <= 80)
    requires NonDecreasing(p2) && (forall x :: x in p2 ==> 80 <= x <= 100)
    ensures var xs := p1 + p2 + (if done then [100] else []);
      && NonDecreasing(xs)
      && (done ==> xs[|xs| - 1] == 100)
  {
    NonDecreasingAppend(p1, p2, 80);
    if done {
      assert forall x :: x in p1 + p2 ==> x <= 100;
      NonDecreasingAppend(p1 + p2, [100], 100);
    } else {
      assert p1 + p2 + [] == p1 + p2;
    }
  }

  /**
   * Pass 2 run through its estimates: its reports, then the deletion of the temporary
   * file, then the callback and settlement that carry its outcome.
   */
  lemma SecondPassTail(s: JobState, second: PassRun)
    requires s.config.Some? && s.phase == Pass2Running && s.tempExists && !s.outputWritten
    ensures var s' := Run(s, PassEvents(second));
      var xs := Percents(s'.trace);
      && s'.trace == s.trace + Notes(Pass2Running, s.config.value, second.estimates)
                     + [Unlink(s.tempPath)] + Settlement(second.finish)
      && ((NonDecreasing(Percents(s.trace)) && (forall x :: x in Percents(s.trace) ==> x <= 80)
           && Sorted(second.estimates)) ==> NonDecreasing(xs))
      && (s'.phase == Succeeded ==> |xs| > 0 && xs[|xs| - 1] == 100)
      && Spawns(s'.trace) == Spawns(s.trace)
      && !s'.tempExists
      && (second.finish.Completes? ==> s'.phase == Succeeded && s'.outputWritten)
      && (second.finish.Fails? ==> s'.phase == Failed && s'.outputWritten == second.finish.fileLeft)
  {
    PassFed(s, second);
    assert Closing(s, second.finish) == [Unlink(s.tempPath)] + Settlement(second.finish);
    var p1 := Percents(s.trace);
    var p2 := Percents(Notes(Pass2Running, s.config.value, second.estimates));
    if NonDecreasing(p1) && (forall x :: x in p1 ==> x <= 80) && Sorted(second.estimates) {
      NotesMonotone(Pass2Running, s.config.value, second.estimates);
      BandsConcatenate(p1, p2, second.finish.Completes?);
    }
  }

  /**
   * A job for a known effect driven pass by pass, whatever the estimates. Its trace is
   * exactly: the launch of pass 1 from the input into the temporary file, the pass-1
   * reports, then
   * - when pass 1 fails: the deletion of the temporary file if the engine left one, the
   *   error callback with the engine's message, the rejection with that message;
   * - when a single-pass effect's pass 1 ends: the success report, the resolution;
   * - when a two-pass effect's pass 1 ends: the launch of pass 2 from the temporary file
   *   into the output, the pass-2 reports, the deletion of the temporary file, and the
   *   success report and resolution, or the error callback and rejection with pass 2's
   *   message.
   * With non-decreasing estimates the reported percents never go back; on success they
   * end at 100. On success of a two-pass effect the output is written; on success of a
   * single-pass effect the result stays at the temporary path and the output is never
   * written; on failure only a failing pass 2 may leave an output file.
   */
  lemma ScriptRun(inputPath: string, outputPath: string, effectType: string, stamp: nat,
                  first: PassRun, second: PassRun)
    requires effectType in Effects
    ensures var config := Effects[effectType];
      var temp := TempPath.TempFile(outputPath, stamp);
      var s := Run(Start(inputPath, outputPath, effectType, stamp), PassEvents(first) + PassEvents(second));
      var head := [Spawn(Pass(inputPath, temp, config.filters))] + Notes(Pass1Running, config, first.estimates);
      var xs := Percents(s.trace);
      && (Sorted(first.estimates) && Sorted(second.estimates) ==> NonDecreasing(xs))
      && (s.phase == Succeeded ==> |xs| > 0 && xs[|xs| - 1] == 100)
      && (first.finish.Fails? || config.secondPass.None? ==>
            s.trace == head + Release(first.finish.Fails? && first.finish.fileLeft, temp) + Settlement(first.finish))
      && (first.finish.Fails? ==>
            s.phase == Failed && |Spawns(s.trace)| == 1 && !s.tempExists && !s.outputWritten)
      && (first.finish.Completes? && config.secondPass.None? ==>
            s.phase == Succeeded && |Spawns(s.trace)| == 1 && s.tempExists && !s.outputWritten)
      && (first.finish.Completes? && config.secondPass.Some? ==>
            && s.trace == head + [Spawn(Pass(temp, outputPath, config.secondPass.value))]
                          + Notes(Pass2Running, config, second.estimates) + [Unlink(temp)] + Settlement(second.finish)
            && |Spawns(s.trace)| == 2
            && !s.tempExists
            && (second.finish.Completes? ==> s.phase == Succeeded && s.outputWritten)
            && (second.finish.Fails? ==> s.phase == Failed && s.outputWritten == second.finish.fileLeft))
  {
    if first.finish.Fails? || Effects[effectType].secondPass.None? {
      ClosedAfterFirst(inputPath, outputPath, effectType, stamp, first, PassEvents(second));
    } else {
      ClosedAfterSecond(inputPath, outputPath, effectType, stamp, first, second);
    }
  }

  /** A job that closes in pass 1: whatever the engine emits afterwards changes nothing. */
  lemma ClosedAfterFirst(inputPath: string, outputPath: string, effectType: string, stamp: nat,
                         first: PassRun, rest: seq<Event>)
    requires effectType in Effects
    requires first.finish.Fails? || Effects[effectType].secondPass.None?
    ensures var config := Effects[effectType];
      var temp := TempPath.TempFile(outputPath, stamp);
      var s := Run(Start(inputPath, outputPath, effectType, stamp), PassEvents(first) + rest);
      var xs := Percents(s.trace);
      && s.trace == [Spawn(Pass(inputPath, temp, config.filters))] + Notes(Pass1Running, config, first.estimates)
                    + Release(first.finish.Fails? && first.finish.fileLeft, temp) + Settlement(first.finish)
      && (Sorted(first.estimates) ==> NonDecreasing(xs))
      && (s.phase == Succeeded ==> |xs| > 0 && xs[|xs| - 1] == 100)
      && s.phase == (if first.finish.Completes? then Succeeded else Failed)
      && |Spawns(s.trace)| == 1
      && s.tempExists == first.finish.Completes? && !s.outputWritten
  {
    var config := Effects[effectType];
    var s0 := Start(inputPath, outputPath, effectType, stamp);
    RunAppend(s0, PassEvents(first), rest);
    AfterFirstPass(inputPath, outputPath, effectType, stamp, first);
    FinishedIsFinal(Run(s0, PassEvents(first)), rest);
    var p1 := Percents(Notes(Pass1Running, config, first.estimates));
    if Sorted(first.estimates) {
      NotesMonotone(Pass1Running, config, first.estimates);
      if first.finish.Completes? {
        NonDecreasingAppend(p1, [100], 80);
      }
    }
  }

  /** A two-pass job whose pass 1 ends: pass 2 decides the outcome. */
  lemma ClosedAfterSecond(inputPath: string, outputPath: string, effectType: string, stamp: nat,
                          first: PassRun, second: PassRun)
    requires effectType in Effects
    requires first.finish.Completes? && Effects[effectType].secondPass.Some?
    ensures var config := Effects[effectType];
      var temp := TempPath.TempFile(outputPath, stamp);
      var s := Run(Start(inputPath, outputPath, effectType, stamp), PassEvents(first) + PassEvents(second));
      var xs := Percents(s.trace);
      && s.trace == [Spawn(Pass(inputPath, temp, config.filters))] + Notes(Pass1Running, config, first.estimates)
                    + [Spawn(Pass(temp, outputPath, config.secondPass.value))]
                    + Notes(Pass2Running, config, second.estimates) + [Unlink(temp)] + Settlement(second.finish)
      && (Sorted(first.estimates) && Sorted(second.estimates) ==> NonDecreasing(xs))
      && (s.phase == Succeeded ==> |xs| > 0 && xs[|xs| - 1] == 100)
      && |Spawns(s.trace)| == 2
      && !s.tempExists
      && (second.finish.Completes? ==> s.phase == Succeeded && s.outputWritten)
      && (second.finish.Fails? ==> s.phase == Failed && s.outputWritten == second.finish.fileLeft)
  {
    var config := Effects[effectType];
    var s0 := Start(inputPath, outputPath, effectType, stamp);
    RunAppend(s0, PassEvents(first), PassEvents(second));
    AfterFirstPass(inputPath, outputPath, effectType, stamp, first);
    var s1 := Run(s0, PassEvents(first));
    if Sorted(first.estimates) {
      NotesMonotone(Pass1Running, config, first.estimates);
    }
    SecondPassTail(s1, second);
  }
}

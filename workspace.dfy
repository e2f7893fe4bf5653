/** The workspace page as an object: its state hooks become fields that the
    handlers update in place. Each handler is proved to leave the page in
    the state the functions of the Engine, BlockList and RobotSettings
    modules describe, so their lemmas carry over to the page. */
module Workspace {
  import opened Wrappers
  import Seqs
  import opened Blocks
  import BlockList
  import RobotSettings
  import opened Engine

  class WorkspacePage {
    var codeBlocks: seq<CodeBlock>
    var robotConfig: RobotSettings.RobotConfig
    var executing: bool
    var wheelSpeed: real
    var armRotation: real
    var droneHeight: real
    var sensorReadings: map<string, real>
    var executionLog: seq<string>
    /** The `setTimeout` durations requested so far, in order. */
    var delays: seq<real>

    /** The simulation state and the console. */
    function State(): Snapshot
      reads this
    {
      Snapshot(executing, wheelSpeed, armRotation, droneHeight, sensorReadings, executionLog, delays)
    }

    /** The page as first rendered: no blocks, the default wheeled robot,
        nothing executing and an empty console. */
    constructor ()
      ensures State() == InitialSnapshot
      ensures codeBlocks == [] && robotConfig == RobotSettings.InitialConfig
    {
      codeBlocks := [];
      robotConfig := RobotSettings.InitialConfig;
      executing := false;
      wheelSpeed := 0.0;
      armRotation := 0.0;
      droneHeight := 0.0;
      sensorReadings := map[];
      executionLog := [];
      delays := [];
    }

    // -------------------------------------------------------------------
    // Block list and configuration

    method AddBlock(b: CodeBlock)
      modifies this
      ensures codeBlocks == BlockList.Appended(old(codeBlocks), b)
      ensures robotConfig == old(robotConfig) && State() == old(State())
    {
      codeBlocks := BlockList.Appended(codeBlocks, b);
    }

    method RemoveBlock(id: string)
      modifies this
      ensures codeBlocks == BlockList.Removed(old(codeBlocks), id)
      ensures robotConfig == old(robotConfig) && State() == old(State())
    {
      codeBlocks := BlockList.Removed(codeBlocks, id);
    }

    /** An edit of a block's number field; `parsed` is the input's parse,
        None where it is not a number. */
    method UpdateBlock(id: string, parsed: Option<real>)
      modifies this
      ensures codeBlocks == BlockList.Updated(old(codeBlocks), id, EditedValue(parsed))
      ensures robotConfig == old(robotConfig) && State() == old(State())
    {
      codeBlocks := BlockList.Updated(codeBlocks, id, EditedValue(parsed));
    }

    /** `onUpdateConfig(updates)`: `{ ...prev, ...updates }`. */
    method UpdateConfig(p: RobotSettings.Patch)
      modifies this
      ensures robotConfig == RobotSettings.Merge(old(robotConfig), p)
      ensures codeBlocks == old(codeBlocks) && State() == old(State())
    {
      robotConfig := RobotSettings.Merge(robotConfig, p);
    }

    // -------------------------------------------------------------------
    // Execution

    /** `handleStop`: clear the flag and zero the three actuators. */
    method Stop()
      modifies this
      ensures State() == Halted(old(State()))
      ensures codeBlocks == old(codeBlocks) && robotConfig == old(robotConfig)
    {
      executing := false;
      wheelSpeed := 0.0;
      armRotation := 0.0;
      droneHeight := 0.0;
    }

    /** The move_forward case: twenty 50 ms steps, each scaling the wheel
        speed by 0.95, then the speed is reset to 0. */
    method DecayWheels()
      modifies this
      ensures State() == old(State()).(wheelSpeed := 0.0, delays := old(delays) + Seqs.Repeat(StepDelay, DecaySteps))
      ensures codeBlocks == old(codeBlocks) && robotConfig == old(robotConfig)
    {
      var i := 0;
      while i < DecaySteps
        invariant 0 <= i <= DecaySteps
        invariant wheelSpeed == Decayed(old(wheelSpeed), i)
        invariant delays == old(delays) + Seqs.Repeat(StepDelay, i)
        invariant State() == old(State()).(wheelSpeed := wheelSpeed, delays := delays)
        invariant codeBlocks == old(codeBlocks) && robotConfig == old(robotConfig)
      {
        delays := delays + [StepDelay];
        wheelSpeed := wheelSpeed * DecayFactor;
        i := i + 1;
      }
      wheelSpeed := 0.0;
    }

    /** `executeBlock(block, index)`, with `r` the value `Math.random()`
        returns if the block reads a sensor. */
    method ExecuteBlock(b: CodeBlock, index: nat, r: real, fmt: Format)
      modifies this
      ensures State() == BlockEffect(old(State()), b, index, r, fmt)
      ensures codeBlocks == old(codeBlocks) && robotConfig == old(robotConfig)
    {
      executionLog := executionLog + [ExecLine(index, b.caption)];
      match Dispatch(b.kind) {
        case SetWheelSpeed =>
          wheelSpeed := ValueOr(b.value, 0.0);
        case SetArmAngle =>
          armRotation := ValueOr(b.value, 0.0);
        case SetDroneHeight =>
          droneHeight := ValueOr(b.value, 0.0);
        case MoveForward =>
          DecayWheels();
        case Wait =>
          delays := delays + [WaitTime(b.value)];
        case ReadDistance =>
          var distance := DistanceSample(r);
          executionLog := executionLog + [DistanceLine(distance, fmt)];
          sensorReadings := sensorReadings[DistanceKey := distance];
        case ReadGyro =>
          executionLog := executionLog + [RotationLine(RotationSample(r), fmt)];
        case ReadCamera =>
          executionLog := executionLog + [CameraLine];
        case Repeat =>
          executionLog := executionLog + [RepeatLine(ValueOr(b.value, 1.0), fmt)];
        case IfSensor =>
          executionLog := executionLog + [ConditionLine];
        case AiPredict =>
          executionLog := executionLog + [PredictionLine];
        case PathPlan =>
          executionLog := executionLog + [PathLine(ValueOr(b.value, 100.0), fmt)];
        case Unhandled =>
      }
      delays := delays + [SettleDelay];
    }

    /** The tail of `runExecution`. */
    method Complete()
      modifies this
      ensures State() == Finish(old(State()))
      ensures codeBlocks == old(codeBlocks) && robotConfig == old(robotConfig)
    {
      Stop();
      executionLog := executionLog + [CompletedLine];
    }

    /** `executeBlocks(blocks)` as written. `guard` is the `executing` value
        the callback captured when it was built; the loop tests it, not the
        live flag. `stopAt` places the user's Stop click just before block
        `stopAt` is reached, and `samples[i]` is block i's random draw. */
    method Run(blocks: seq<CodeBlock>, guard: bool, stopAt: nat, samples: seq<real>, fmt: Format)
      requires |samples| == |blocks|
      modifies this
      ensures State() == RunSpec(old(State()), blocks, guard, stopAt, samples, fmt)
      ensures codeBlocks == old(codeBlocks) && robotConfig == old(robotConfig)
    {
      executing := true;
      executionLog := [];
      ghost var start := State();
      var i := 0;
      while i < |blocks|
        invariant 0 <= i <= |blocks|
        invariant guard || i == 0
        invariant State() == Progress(start, blocks, stopAt, samples, fmt, i)
        invariant codeBlocks == old(codeBlocks) && robotConfig == old(robotConfig)
      {
        if !guard {
          break;
        }
        if i == stopAt {
          Stop();
        }
        ExecuteBlock(blocks[i], i, samples[i], fmt);
        i := i + 1;
      }
      assert i == if guard then |blocks| else 0;
      Complete();
    }

    /** The Run button: it is offered and enabled only while nothing executes
        and there is a block, and it calls the callback built at the last
        render, whose captured flag is the `executing` of that moment. */
    method ClickRun(stopAt: nat, samples: seq<real>, fmt: Format)
      requires ExecuteControl(executing, |codeBlocks|) == RunButton(true)
      requires |samples| == |codeBlocks|
      modifies this
      ensures State() == RunSpec(old(State()), old(codeBlocks), old(executing), stopAt, samples, fmt)
      ensures executionLog == [CompletedLine] && !executing
      ensures codeBlocks == old(codeBlocks) && robotConfig == old(robotConfig)
    {
      ClickedRunExecutesNoBlock(State(), codeBlocks, stopAt, samples, fmt);
      Run(codeBlocks, executing, stopAt, samples, fmt);
    }

    /** The loop as evidently intended: it tests the live flag, so a Stop
        click before block `stopAt` ends it there. */
    method RunLive(blocks: seq<CodeBlock>, stopAt: nat, samples: seq<real>, fmt: Format)
      requires |samples| == |blocks|
      modifies this
      ensures State() == LiveRunSpec(old(State()), blocks, stopAt, samples, fmt)
      ensures codeBlocks == old(codeBlocks) && robotConfig == old(robotConfig)
    {
      executing := true;
      executionLog := [];
      ghost var start := State();
      var i := 0;
      while i < |blocks|
        invariant 0 <= i <= |blocks| && i <= stopAt
        invariant executing ==> State() == Progress(start, blocks, stopAt, samples, fmt, i)
        invariant !executing ==> i == stopAt && State() == Halted(Progress(start, blocks, stopAt, samples, fmt, i))
        invariant codeBlocks == old(codeBlocks) && robotConfig == old(robotConfig)
      {
        if i == stopAt {
          Stop();
        }
        if !executing {
          break;
        }
        ghost var before := State();
        ExecuteBlock(blocks[i], i, samples[i], fmt);
        BlockTrace(before, blocks[i], i, samples[i], fmt);
        i := i + 1;
      }
      assert i == Seqs.Min(stopAt, |blocks|);
      Complete();
    }
  }
}

/** The block interpreter of the workspace page, as functions on a snapshot
    of the simulation state and the console. The class in workspace.dfy runs
    the same steps imperatively and is proved equal to these functions; the
    lemmas here state what a block and what a whole run do. */
module Engine {
  import opened Wrappers
  import Seqs
  import opened Blocks

  /** The simulated robot and the console together. `delays` records the
      duration of every `setTimeout` the page requests, in milliseconds, in
      order, standing in for real time. */
  datatype Snapshot = Snapshot(
    executing: bool,
    wheelSpeed: real,
    armRotation: real,
    droneHeight: real,
    sensorReadings: map<string, real>,
    log: seq<string>,
    delays: seq<real>)

  /** The state before anything has run. */
  const InitialSnapshot: Snapshot := Snapshot(false, 0.0, 0.0, 0.0, map[], [], [])

  /** Number formatting the page leaves to JavaScript: `toFixed(2)` and the
      default conversion of a number inside a template literal. */
  datatype Format = Format(fixed2: real -> string, number: real -> string)

  /** `(value as number) || d`: an absent value and 0 are falsy. */
  function ValueOr(v: Option<real>, d: real): real {
    if v.Some? && v.value != 0.0 then v.value else d
  }

  // ---------------------------------------------------------------------
  // Dispatch

  /** The cases of the `switch (block.type)`; Unhandled is its `default`. */
  datatype Op =
    | SetWheelSpeed | SetArmAngle | SetDroneHeight | MoveForward | Wait
    | ReadDistance | ReadGyro | ReadCamera | Repeat | IfSensor | AiPredict | PathPlan
    | Unhandled

  function Dispatch(kind: string): Op {
    if kind == "set_wheel_speed" then SetWheelSpeed
    else if kind == "set_arm_angle" then SetArmAngle
    else if kind == "set_drone_height" then SetDroneHeight
    else if kind == "move_forward" then MoveForward
    else if kind == "wait" then Wait
    else if kind == "read_distance" then ReadDistance
    else if kind == "read_gyro" then ReadGyro
    else if kind == "read_camera" then ReadCamera
    else if kind == "repeat" then Repeat
    else if kind == "if_sensor" then IfSensor
    else if kind == "ai_predict" then AiPredict
    else if kind == "path_plan" then PathPlan
    else Unhandled
  }

  /** The type string a case label matches. */
  function KindName(op: Op): string
    requires !op.Unhandled?
  {
    match op
    case SetWheelSpeed => "set_wheel_speed"
    case SetArmAngle => "set_arm_angle"
    case SetDroneHeight => "set_drone_height"
    case MoveForward => "move_forward"
    case Wait => "wait"
    case ReadDistance => "read_distance"
    case ReadGyro => "read_gyro"
    case ReadCamera => "read_camera"
    case Repeat => "repeat"
    case IfSensor => "if_sensor"
    case AiPredict => "ai_predict"
    case PathPlan => "path_plan"
  }

  /** Each case label selects its own case, and only the twelve labels
      select a case other than `default`. */
  lemma DispatchKindName(op: Op, kind: string)
    ensures !op.Unhandled? ==> Dispatch(KindName(op)) == op
    ensures !Dispatch(kind).Unhandled? ==> KindName(Dispatch(kind)) == kind
  {
  }

  /** Every catalog entry but custom_script has a case in the switch. */
  lemma CatalogDispatch(k: nat)
    requires k < |AllTemplates()|
    ensures Dispatch(AllTemplates()[k].kind).Unhandled? <==> AllTemplates()[k].kind == "custom_script"
  {
  }

  // ---------------------------------------------------------------------
  // Constants and console lines

  const SettleDelay: real := 500.0
  const StepDelay: real := 50.0
  const DecaySteps: nat := 20
  const DecayFactor: real := 0.95
  const DistanceKey: string := "distance"

  /** The indent that starts every detail line. */
  const Arrow: string := "  \U{2192} "
  const CompletedLine: string := "Execution completed"
  const CameraLine: string := Arrow + "Camera active"
  const ConditionLine: string := Arrow + "Condition evaluated"
  const PredictionLine: string := Arrow + "AI model prediction: 0.92"

  /** The character of the decimal digit `k`. */
  function DigitChar(k: nat): (c: char)
    requires k < 10
    ensures '0' <= c <= '9' && (c - '0') as nat == k
  {
    ('0' as int + k) as char
  }

  /** The decimal digits of `n`. */
  function Digits(n: nat): (r: string)
    ensures |r| > 0
    ensures forall i :: 0 <= i < |r| ==> '0' <= r[i] <= '9'
  {
    if n < 10 then [DigitChar(n)] else Digits(n / 10) + [DigitChar(n % 10)]
  }

  /** The number a string of decimal digits spells, most significant first. */
  function DigitsValue(s: string): nat
    requires forall i :: 0 <= i < |s| ==> '0' <= s[i] <= '9'
  {
    if s == [] then 0 else DigitsValue(s[..|s| - 1]) * 10 + (s[|s| - 1] - '0') as nat
  }

  /** The digits of `n` spell `n`. */
  lemma {:induction false} DigitsRoundTrip(n: nat)
    ensures DigitsValue(Digits(n)) == n
  {
    if n >= 10 {
      DigitsRoundTrip(n / 10);
      var d := Digits(n);
      assert d[..|d| - 1] == Digits(n / 10);
    }
  }

  /** Different numbers have different digits. */
  lemma DigitsInjective(a: nat, b: nat)
    ensures Digits(a) == Digits(b) ==> a == b
  {
    DigitsRoundTrip(a);
    DigitsRoundTrip(b);
  }

  /** `[${index + 1}] Executing: ${block.label}` */
  function ExecLine(index: nat, caption: string): string {
    "[" + Digits(index + 1) + "] Executing: " + caption
  }

  /** A header reads `[`, then the digits of the 1-based block number, then
      `] Executing: ` and the label; headers of different blocks differ. */
  lemma ExecLineNumber(index: nat, caption: string, other: nat, caption': string)
    ensures var l := ExecLine(index, caption);
      var d := Digits(index + 1);
      && l == "[" + d + "] Executing: " + caption
      && DigitsValue(d) == index + 1
      && (other != index ==> ExecLine(other, caption') != l)
  {
    DigitsRoundTrip(index + 1);
    if other != index {
      DigitsInjective(index + 1, other + 1);
      var t, t' := "] Executing: " + caption, "] Executing: " + caption';
      assert ExecLine(index, caption) == "[" + Digits(index + 1) + t;
      assert ExecLine(other, caption') == "[" + Digits(other + 1) + t';
      BracketedDigitsDiffer(Digits(index + 1), Digits(other + 1), t, t');
    }
  }

  /** Digits closed by a `]` can be read back unambiguously: two such texts
      with different digits differ. */
  lemma BracketedDigitsDiffer(d: string, d': string, t: string, t': string)
    requires forall i :: 0 <= i < |d| ==> '0' <= d[i] <= '9'
    requires forall i :: 0 <= i < |d'| ==> '0' <= d'[i] <= '9'
    requires |t| > 0 && t[0] == ']' && |t'| > 0 && t'[0] == ']'
    requires d != d'
    ensures "[" + d + t != "[" + d' + t'
  {
    var l := "[" + d + t;
    var l' := "[" + d' + t';
    if |d| == |d'| {
      var k :| 0 <= k < |d| && d[k] != d'[k];
      assert l[1 + k] == d[k] && l'[1 + k] == d'[k];
    } else if |d| < |d'| {
      assert l[1 + |d|] == ']' && l'[1 + |d|] == d'[|d|];
    } else {
      assert l'[1 + |d'|] == ']' && l[1 + |d'|] == d[|d'|];
    }
  }

  function DistanceLine(d: real, fmt: Format): string {
    Arrow + "Distance: " + fmt.fixed2(d) + " cm"
  }

  function RotationLine(rot: real, fmt: Format): string {
    Arrow + "Rotation: " + fmt.fixed2(rot) + "\U{00B0}"
  }

  function RepeatLine(count: real, fmt: Format): string {
    Arrow + "Repeating " + fmt.number(count) + " times"
  }

  function PathLine(waypoints: real, fmt: Format): string {
    Arrow + "Path planned with " + fmt.number(waypoints) + " waypoints"
  }

  /** `Math.random() * 100 + 10` and `Math.random() * 360` for a sample `r`. */
  function DistanceSample(r: real): real { r * 100.0 + 10.0 }
  function RotationSample(r: real): real { r * 360.0 }

  /** What `Math.random()` returns: a number in [0, 1). */
  predicate ValidSamples(samples: seq<real>) {
    forall i :: 0 <= i < |samples| ==> 0.0 <= samples[i] < 1.0
  }

  /** `((block.value as number) || 1) * 1000` */
  function WaitTime(v: Option<real>): real {
    ValueOr(v, 1.0) * 1000.0
  }

  /** The wheel speed after `n` of move_forward's decay steps from `w`;
      the step after the last one resets it to 0. */
  function Decayed(w: real, n: nat): real {
    if n == 0 then w else Decayed(w, n - 1) * DecayFactor
  }

  /** Each decay step moves the speed towards 0 without crossing it: the
      robot slows down. */
  lemma {:induction false} DecaySlows(w: real, n: nat)
    ensures w >= 0.0 ==> 0.0 <= Decayed(w, n + 1) <= Decayed(w, n) <= w
    ensures w <= 0.0 ==> w <= Decayed(w, n) <= Decayed(w, n + 1) <= 0.0
  {
    if n > 0 {
      DecaySlows(w, n - 1);
    }
  }

  // ---------------------------------------------------------------------
  // One block

  /** The effect of the switch on the state, for the block `b` and the
      random sample `r` that a sensor read would draw. */
  function Apply(s: Snapshot, b: CodeBlock, r: real, fmt: Format): Snapshot {
    match Dispatch(b.kind)
    case SetWheelSpeed => s.(wheelSpeed := ValueOr(b.value, 0.0))
    case SetArmAngle => s.(armRotation := ValueOr(b.value, 0.0))
    case SetDroneHeight => s.(droneHeight := ValueOr(b.value, 0.0))
    case MoveForward => s.(wheelSpeed := 0.0, delays := s.delays + Seqs.Repeat(StepDelay, DecaySteps))
    case Wait => s.(delays := s.delays + [WaitTime(b.value)])
    case ReadDistance =>
      s.(log := s.log + [DistanceLine(DistanceSample(r), fmt)],
         sensorReadings := s.sensorReadings[DistanceKey := DistanceSample(r)])
    case ReadGyro => s.(log := s.log + [RotationLine(RotationSample(r), fmt)])
    case ReadCamera => s.(log := s.log + [CameraLine])
    case Repeat => s.(log := s.log + [RepeatLine(ValueOr(b.value, 1.0), fmt)])
    case IfSensor => s.(log := s.log + [ConditionLine])
    case AiPredict => s.(log := s.log + [PredictionLine])
    case PathPlan => s.(log := s.log + [PathLine(ValueOr(b.value, 100.0), fmt)])
    case Unhandled => s
  }

  /** `executeBlock(block, index)`: the "Executing" line, the switch, then
      the settle delay. */
  function BlockEffect(s: Snapshot, b: CodeBlock, index: nat, r: real, fmt: Format): Snapshot {
    var s' := Apply(s.(log := s.log + [ExecLine(index, b.caption)]), b, r, fmt);
    s'.(delays := s'.delays + [SettleDelay])
  }

  /** The detail lines a block adds after its "Executing" line, as the
      console shows them. */
  function Details(b: CodeBlock, r: real, fmt: Format): seq<string> {
    match Dispatch(b.kind)
    case ReadDistance => [DistanceLine(DistanceSample(r), fmt)]
    case ReadGyro => [RotationLine(RotationSample(r), fmt)]
    case ReadCamera => [CameraLine]
    case Repeat => [RepeatLine(ValueOr(b.value, 1.0), fmt)]
    case IfSensor => [ConditionLine]
    case AiPredict => [PredictionLine]
    case PathPlan => [PathLine(ValueOr(b.value, 100.0), fmt)]
    case _ => []
  }

  /** The delays a block requests, its settle delay last. */
  function BlockDelays(b: CodeBlock): seq<real> {
    match Dispatch(b.kind)
    case MoveForward => Seqs.Repeat(StepDelay, DecaySteps) + [SettleDelay]
    case Wait => [WaitTime(b.value), SettleDelay]
    case _ => [SettleDelay]
  }

  /** All the lines a block appends. */
  function BlockLog(b: CodeBlock, index: nat, r: real, fmt: Format): seq<string> {
    [ExecLine(index, b.caption)] + Details(b, r, fmt)
  }

  /** A block appends exactly its "Executing" line and its detail lines to
      the console and its delays to the trace, and neither depends on the
      rest of the state. */
  lemma BlockTrace(s: Snapshot, b: CodeBlock, index: nat, r: real, fmt: Format)
    ensures BlockEffect(s, b, index, r, fmt).log == s.log + BlockLog(b, index, r, fmt)
    ensures BlockEffect(s, b, index, r, fmt).delays == s.delays + BlockDelays(b)
    ensures BlockEffect(s, b, index, r, fmt).executing == s.executing
  {
    var s1 := s.(log := s.log + [ExecLine(index, b.caption)]);
    assert s1.log + Details(b, r, fmt) == s.log + BlockLog(b, index, r, fmt);
    assert Dispatch(b.kind).MoveForward? ==>
      s.delays + Seqs.Repeat(StepDelay, DecaySteps) + [SettleDelay] == s.delays + BlockDelays(b);
    assert Dispatch(b.kind).Wait? ==>
      s.delays + [WaitTime(b.value)] + [SettleDelay] == s.delays + BlockDelays(b);
  }

  /** The "Executing" line comes first; the at most one detail line after it
      is indented, so the console never mistakes it for a block header. */
  lemma BlockLogShape(b: CodeBlock, index: nat, r: real, fmt: Format)
    ensures var l := BlockLog(b, index, r, fmt);
      1 <= |l| <= 2 && l[0] == ExecLine(index, b.caption) && IsHeader(l[0]) &&
      forall k :: 1 <= k < |l| ==> !IsHeader(l[k]) && l[k][..|Arrow|] == Arrow
  {
  }

  /** set_wheel_speed, set_arm_angle and set_drone_height assign their own
      channel the block's value, or 0 when it is absent or 0, and touch
      nothing else but the console line and the settle delay. */
  lemma SetterAssignsOwnChannel(s: Snapshot, b: CodeBlock, index: nat, r: real, fmt: Format)
    requires Dispatch(b.kind) in {SetWheelSpeed, SetArmAngle, SetDroneHeight}
    ensures var t := BlockEffect(s, b, index, r, fmt);
      var v := if b.value.Some? then b.value.value else 0.0;
      && t.wheelSpeed == (if Dispatch(b.kind) == SetWheelSpeed then v else s.wheelSpeed)
      && t.armRotation == (if Dispatch(b.kind) == SetArmAngle then v else s.armRotation)
      && t.droneHeight == (if Dispatch(b.kind) == SetDroneHeight then v else s.droneHeight)
      && t.sensorReadings == s.sensorReadings && t.executing == s.executing
      && t.log == s.log + [ExecLine(index, b.caption)]
      && t.delays == s.delays + [SettleDelay]
  {
  }

  /** move_forward leaves the wheels stopped, whatever their speed was,
      changes no other channel, and waits 20 times 50 ms before settling. */
  lemma MoveForwardStops(s: Snapshot, b: CodeBlock, index: nat, r: real, fmt: Format)
    requires Dispatch(b.kind) == MoveForward
    ensures var t := BlockEffect(s, b, index, r, fmt);
      && t == s.(wheelSpeed := 0.0, log := t.log, delays := t.delays)
      && t.log == s.log + [ExecLine(index, b.caption)]
      && |t.delays| == |s.delays| + 21
      && (forall k :: |s.delays| <= k < |s.delays| + 20 ==> t.delays[k] == 50.0)
      && t.delays[|s.delays| + 20] == 500.0
  {
  }

  /** wait changes no state: it only requests `(value || 1) * 1000` ms,
      so a wait of 0 or of nothing lasts one second. */
  lemma WaitOnlyDelays(s: Snapshot, b: CodeBlock, index: nat, r: real, fmt: Format)
    requires Dispatch(b.kind) == Wait
    ensures BlockEffect(s, b, index, r, fmt) ==
      s.(log := s.log + [ExecLine(index, b.caption)],
         delays := s.delays + [if b.value.Some? && b.value.value != 0.0 then b.value.value * 1000.0 else 1000.0, SettleDelay])
  {
  }

  /** read_distance stores a sample in [10, 110) under "distance", leaves
      every other reading alone and reports the same sample on the console. */
  lemma ReadDistanceRecords(s: Snapshot, b: CodeBlock, index: nat, r: real, fmt: Format)
    requires Dispatch(b.kind) == ReadDistance
    requires 0.0 <= r < 1.0
    ensures var t := BlockEffect(s, b, index, r, fmt);
      && DistanceKey in t.sensorReadings
      && 10.0 <= t.sensorReadings[DistanceKey] < 110.0
      && (forall k :: k != DistanceKey ==>
            (k in t.sensorReadings <==> k in s.sensorReadings) &&
            (k in s.sensorReadings ==> t.sensorReadings[k] == s.sensorReadings[k]))
      && t.log == s.log + [ExecLine(index, b.caption), DistanceLine(t.sensorReadings[DistanceKey], fmt)]
      && t == s.(sensorReadings := t.sensorReadings, log := t.log, delays := s.delays + [SettleDelay])
  {
  }

  /** read_gyro, read_camera, repeat, if_sensor, ai_predict and path_plan
      each add exactly one detail line and change nothing else: the gyro
      sample is reported but not stored. */
  lemma DetailLineBlocks(s: Snapshot, b: CodeBlock, index: nat, r: real, fmt: Format)
    requires Dispatch(b.kind) in {ReadGyro, ReadCamera, Repeat, IfSensor, AiPredict, PathPlan}
    requires 0.0 <= r < 1.0
    ensures var t := BlockEffect(s, b, index, r, fmt);
      && t == s.(log := t.log, delays := s.delays + [SettleDelay])
      && |t.log| == |s.log| + 2 && t.log[..|s.log| + 1] == s.log + [ExecLine(index, b.caption)]
      && (Dispatch(b.kind) == ReadGyro ==>
            exists rot :: 0.0 <= rot < 360.0 && t.log[|s.log| + 1] == RotationLine(rot, fmt))
      && (Dispatch(b.kind) == Repeat ==>
            t.log[|s.log| + 1] == RepeatLine(if b.value.Some? && b.value.value != 0.0 then b.value.value else 1.0, fmt))
      && (Dispatch(b.kind) == PathPlan ==>
            t.log[|s.log| + 1] == PathLine(if b.value.Some? && b.value.value != 0.0 then b.value.value else 100.0, fmt))
  {
    if Dispatch(b.kind) == ReadGyro {
      assert 0.0 <= RotationSample(r) < 360.0;
    }
  }

  /** A type without a case, custom_script among them, only logs its
      "Executing" line and settles. */
  lemma UnhandledOnlyLogsHeader(s: Snapshot, b: CodeBlock, index: nat, r: real, fmt: Format)
    requires Dispatch(b.kind) == Unhandled
    ensures BlockEffect(s, b, index, r, fmt) ==
      s.(log := s.log + [ExecLine(index, b.caption)], delays := s.delays + [SettleDelay])
    ensures Dispatch("custom_script") == Unhandled
  {
  }

  // ---------------------------------------------------------------------
  // A run

  /** What `handleStop` and the tail of a run both do to the state. */
  function Halted(s: Snapshot): Snapshot {
    s.(executing := false, wheelSpeed := 0.0, armRotation := 0.0, droneHeight := 0.0)
  }

  /** The start of `executeBlocks`: mark executing, clear the console. */
  function Start(s: Snapshot): Snapshot {
    s.(executing := true, log := [])
  }

  /** The tail of `runExecution`. */
  function Finish(s: Snapshot): Snapshot {
    var h := Halted(s);
    h.(log := h.log + [CompletedLine])
  }

  /** The state after the loop has executed the first `n` blocks, when the
      user's Stop click lands just before block `stopAt` would be looked at
      (never, if `stopAt` is past the last block). */
  function Progress(s: Snapshot, blocks: seq<CodeBlock>, stopAt: nat, samples: seq<real>, fmt: Format, n: nat): Snapshot
    requires n <= |blocks| == |samples|
    decreases n
  {
    if n == 0 then s
    else
      var before := Progress(s, blocks, stopAt, samples, fmt, n - 1);
      var seen := if n - 1 == stopAt then Halted(before) else before;
      BlockEffect(seen, blocks[n - 1], n - 1, samples[n - 1], fmt)
  }

  /** `executeBlocks(blocks)` as written: the loop guard reads the
      `executing` value captured when the callback was built, `guard`, so the
      loop runs every block when it is true and none when it is false. */
  function RunSpec(s: Snapshot, blocks: seq<CodeBlock>, guard: bool, stopAt: nat, samples: seq<real>, fmt: Format): Snapshot
    requires |blocks| == |samples|
  {
    Finish(Progress(Start(s), blocks, stopAt, samples, fmt, if guard then |blocks| else 0))
  }

  /** The run as evidently intended: the guard reads the live flag, so a
      Stop before block `stopAt` ends the loop there. */
  function LiveRunSpec(s: Snapshot, blocks: seq<CodeBlock>, stopAt: nat, samples: seq<real>, fmt: Format): Snapshot
    requires |blocks| == |samples|
  {
    Finish(Progress(Start(s), blocks, stopAt, samples, fmt, Seqs.Min(stopAt, |blocks|)))
  }

  /** The console lines of the first `n` blocks. */
  function LogOf(blocks: seq<CodeBlock>, samples: seq<real>, fmt: Format, n: nat): seq<string>
    requires n <= |blocks| == |samples|
  {
    if n == 0 then [] else LogOf(blocks, samples, fmt, n - 1) + BlockLog(blocks[n - 1], n - 1, samples[n - 1], fmt)
  }

  /** The delays of the first `n` blocks. */
  function DelaysOf(blocks: seq<CodeBlock>, n: nat): seq<real>
    requires n <= |blocks|
  {
    if n == 0 then [] else DelaysOf(blocks, n - 1) + BlockDelays(blocks[n - 1])
  }

  /** The console colours lines that start with `[` as block headers. */
  predicate IsHeader(line: string) {
    |line| > 0 && line[0] == '['
  }

  function Headers(log: seq<string>): seq<string> {
    Seqs.Filter(log, IsHeader)
  }

  /** One "Executing" line per block, numbered 1 to n in list order. */
  function HeaderLines(blocks: seq<CodeBlock>, n: nat): (r: seq<string>)
    requires n <= |blocks|
    ensures |r| == n
    ensures forall i :: 0 <= i < n ==> r[i] == ExecLine(i, blocks[i].caption)
  {
    if n == 0 then [] else HeaderLines(blocks, n - 1) + [ExecLine(n - 1, blocks[n - 1].caption)]
  }

  /** The state's console and delay trace grow by exactly the blocks'
      lines and delays, whatever the channels and the executing flag were,
      and however a Stop click interleaves. */
  lemma ProgressTrace(s: Snapshot, blocks: seq<CodeBlock>, stopAt: nat, samples: seq<real>, fmt: Format, n: nat)
    requires n <= |blocks| == |samples|
    ensures Progress(s, blocks, stopAt, samples, fmt, n).log == s.log + LogOf(blocks, samples, fmt, n)
    ensures Progress(s, blocks, stopAt, samples, fmt, n).delays == s.delays + DelaysOf(blocks, n)
  {
    ProgressLog(s, blocks, stopAt, samples, fmt, n);
    ProgressDelays(s, blocks, stopAt, samples, fmt, n);
  }

  lemma {:induction false} ProgressLog(s: Snapshot, blocks: seq<CodeBlock>, stopAt: nat, samples: seq<real>, fmt: Format, n: nat)
    requires n <= |blocks| == |samples|
    ensures Progress(s, blocks, stopAt, samples, fmt, n).log == s.log + LogOf(blocks, samples, fmt, n)
  {
    if n > 0 {
      ProgressLog(s, blocks, stopAt, samples, fmt, n - 1);
      var before := Progress(s, blocks, stopAt, samples, fmt, n - 1);
      var seen := if n - 1 == stopAt then Halted(before) else before;
      var block := BlockLog(blocks[n - 1], n - 1, samples[n - 1], fmt);
      BlockTrace(seen, blocks[n - 1], n - 1, samples[n - 1], fmt);
      assert seen.log == before.log;
      assert Progress(s, blocks, stopAt, samples, fmt, n).log == BlockEffect(seen, blocks[n - 1], n - 1, samples[n - 1], fmt).log;
      assert LogOf(blocks, samples, fmt, n) == LogOf(blocks, samples, fmt, n - 1) + block;
      assert s.log + LogOf(blocks, samples, fmt, n) == (s.log + LogOf(blocks, samples, fmt, n - 1)) + block;
    }
  }

  lemma {:induction false} ProgressDelays(s: Snapshot, blocks: seq<CodeBlock>, stopAt: nat, samples: seq<real>, fmt: Format, n: nat)
    requires n <= |blocks| == |samples|
    ensures Progress(s, blocks, stopAt, samples, fmt, n).delays == s.delays + DelaysOf(blocks, n)
  {
    if n > 0 {
      ProgressDelays(s, blocks, stopAt, samples, fmt, n - 1);
      var before := Progress(s, blocks, stopAt, samples, fmt, n - 1);
      var seen := if n - 1 == stopAt then Halted(before) else before;
      BlockTrace(seen, blocks[n - 1], n - 1, samples[n - 1], fmt);
      assert s.delays + DelaysOf(blocks, n) == (s.delays + DelaysOf(blocks, n - 1)) + BlockDelays(blocks[n - 1]);
    }
  }

  /** The headers among the lines of `n` blocks are their "Executing" lines,
      one per block, in strictly increasing block order. */
  lemma {:induction false} LogHeaders(blocks: seq<CodeBlock>, samples: seq<real>, fmt: Format, n: nat)
    requires n <= |blocks| == |samples|
    ensures Headers(LogOf(blocks, samples, fmt, n)) == HeaderLines(blocks, n)
  {
    if n > 0 {
      LogHeaders(blocks, samples, fmt, n - 1);
      var b := blocks[n - 1];
      var head := ExecLine(n - 1, b.caption);
      var details := Details(b, samples[n - 1], fmt);
      BlockLogShape(b, n - 1, samples[n - 1], fmt);
      Seqs.FilterAppend(LogOf(blocks, samples, fmt, n - 1), BlockLog(b, n - 1, samples[n - 1], fmt), IsHeader);
      Seqs.FilterAppend([head], details, IsHeader);
      Seqs.FilterSingleton(head, IsHeader);
      Seqs.FilterDropsAll(details, IsHeader);
    }
  }

  /** Every run clears the console, then ends, whether the loop ran out of
      blocks or broke, with all three channels at 0, executing false and
      "Execution completed" as the last line; the lines before it are those
      of the blocks the loop reached, and the delay trace grows by their
      delays. */
  lemma RunCompletes(s: Snapshot, blocks: seq<CodeBlock>, guard: bool, stopAt: nat, samples: seq<real>, fmt: Format)
    requires |blocks| == |samples|
    ensures var t := RunSpec(s, blocks, guard, stopAt, samples, fmt);
      var n := if guard then |blocks| else 0;
      && !t.executing && t.wheelSpeed == 0.0 && t.armRotation == 0.0 && t.droneHeight == 0.0
      && t.log == LogOf(blocks, samples, fmt, n) + [CompletedLine]
      && t.log[|t.log| - 1] == CompletedLine
      && t.delays == s.delays + DelaysOf(blocks, n)
  {
    var n := if guard then |blocks| else 0;
    ProgressTrace(Start(s), blocks, stopAt, samples, fmt, n);
    var p := Progress(Start(s), blocks, stopAt, samples, fmt, n);
    assert RunSpec(s, blocks, guard, stopAt, samples, fmt) == Finish(p);
    assert p.log == LogOf(blocks, samples, fmt, n);
  }

  /** A run executes either every block or none: the console holds one
      "Executing" line per block, numbered in list order, when the captured
      flag was true, and none when it was false. */
  lemma RunAllOrNothing(s: Snapshot, blocks: seq<CodeBlock>, guard: bool, stopAt: nat, samples: seq<real>, fmt: Format)
    requires |blocks| == |samples|
    ensures Headers(RunSpec(s, blocks, guard, stopAt, samples, fmt).log) == HeaderLines(blocks, if guard then |blocks| else 0)
  {
    var n := if guard then |blocks| else 0;
    RunCompletes(s, blocks, guard, stopAt, samples, fmt);
    LogHeaders(blocks, samples, fmt, n);
    Seqs.FilterAppend(LogOf(blocks, samples, fmt, n), [CompletedLine], IsHeader);
    Seqs.FilterSingleton(CompletedLine, IsHeader);
  }

  /** With the captured flag false, a run leaves exactly
      ["Execution completed"] on the console, requests no delay and keeps the
      sensor readings; only the channels and the flag are reset. */
  lemma RunWithFalseGuard(s: Snapshot, blocks: seq<CodeBlock>, stopAt: nat, samples: seq<real>, fmt: Format)
    requires |blocks| == |samples|
    ensures RunSpec(s, blocks, false, stopAt, samples, fmt) ==
      Snapshot(false, 0.0, 0.0, 0.0, s.sensorReadings, [CompletedLine], s.delays)
  {
  }

  /** Two states that agree on console, delays and readings still agree
      after a block, whatever their channels and flags. */
  predicate SameTrace(a: Snapshot, b: Snapshot) {
    a.log == b.log && a.delays == b.delays && a.sensorReadings == b.sensorReadings
  }

  lemma BlockEffectSameTrace(a: Snapshot, c: Snapshot, b: CodeBlock, index: nat, r: real, fmt: Format)
    requires SameTrace(a, c)
    ensures SameTrace(BlockEffect(a, b, index, r, fmt), BlockEffect(c, b, index, r, fmt))
  {
    BlockTrace(a, b, index, r, fmt);
    BlockTrace(c, b, index, r, fmt);
    if Dispatch(b.kind) == ReadDistance {
      assert BlockEffect(a, b, index, r, fmt).sensorReadings == a.sensorReadings[DistanceKey := DistanceSample(r)];
      assert BlockEffect(c, b, index, r, fmt).sensorReadings == c.sensorReadings[DistanceKey := DistanceSample(r)];
    } else {
      assert BlockEffect(a, b, index, r, fmt).sensorReadings == a.sensorReadings;
      assert BlockEffect(c, b, index, r, fmt).sensorReadings == c.sensorReadings;
    }
  }

  lemma {:induction false} ProgressSameTrace(s: Snapshot, blocks: seq<CodeBlock>, stopAt: nat, stopAt': nat, samples: seq<real>, fmt: Format, n: nat)
    requires n <= |blocks| == |samples|
    ensures SameTrace(Progress(s, blocks, stopAt, samples, fmt, n), Progress(s, blocks, stopAt', samples, fmt, n))
  {
    if n > 0 {
      ProgressSameTrace(s, blocks, stopAt, stopAt', samples, fmt, n - 1);
      var a := Progress(s, blocks, stopAt, samples, fmt, n - 1);
      var c := Progress(s, blocks, stopAt', samples, fmt, n - 1);
      var a' := if n - 1 == stopAt then Halted(a) else a;
      var c' := if n - 1 == stopAt' then Halted(c) else c;
      BlockEffectSameTrace(a', c', blocks[n - 1], n - 1, samples[n - 1], fmt);
    }
  }

  /** Stop does not interrupt a run as written: wherever its click lands,
      the run ends in exactly the state it reaches with no click at all. */
  lemma StopCannotInterrupt(s: Snapshot, blocks: seq<CodeBlock>, guard: bool, stopAt: nat, samples: seq<real>, fmt: Format)
    requires |blocks| == |samples|
    ensures RunSpec(s, blocks, guard, stopAt, samples, fmt) == RunSpec(s, blocks, guard, |blocks|, samples, fmt)
  {
    ProgressSameTrace(Start(s), blocks, stopAt, |blocks|, samples, fmt, if guard then |blocks| else 0);
  }

  /** Between the reset at the start of a run and its tail, the sensor
      readings only grow: every key but "distance" keeps its value, and
      "distance", once present, holds its old value or a sample in
      [10, 110). */
  lemma {:induction false} ProgressReadings(s: Snapshot, blocks: seq<CodeBlock>, stopAt: nat, samples: seq<real>, fmt: Format, n: nat)
    requires n <= |blocks| == |samples|
    requires ValidSamples(samples)
    ensures var t := Progress(s, blocks, stopAt, samples, fmt, n).sensorReadings;
      && s.sensorReadings.Keys <= t.Keys
      && (forall k :: k in t && k != DistanceKey ==> k in s.sensorReadings && t[k] == s.sensorReadings[k])
      && (DistanceKey in t ==>
            (DistanceKey in s.sensorReadings && t[DistanceKey] == s.sensorReadings[DistanceKey]) ||
            10.0 <= t[DistanceKey] < 110.0)
  {
    if n > 0 {
      ProgressReadings(s, blocks, stopAt, samples, fmt, n - 1);
      var before := Progress(s, blocks, stopAt, samples, fmt, n - 1);
      var seen := if n - 1 == stopAt then Halted(before) else before;
      BlockReadings(seen, blocks[n - 1], n - 1, samples[n - 1], fmt);
      assert seen.sensorReadings == before.sensorReadings;
      ReadingsStep(s.sensorReadings, before.sensorReadings, Progress(s, blocks, stopAt, samples, fmt, n).sensorReadings);
    }
  }

  /** The growth `ProgressReadings` states survives one more block. */
  lemma ReadingsStep(a: map<string, real>, m: map<string, real>, t: map<string, real>)
    requires a.Keys <= m.Keys
    requires forall k :: k in m && k != DistanceKey ==> k in a && m[k] == a[k]
    requires DistanceKey in m ==> (DistanceKey in a && m[DistanceKey] == a[DistanceKey]) || 10.0 <= m[DistanceKey] < 110.0
    requires t == m || (DistanceKey in t && t == m[DistanceKey := t[DistanceKey]] && 10.0 <= t[DistanceKey] < 110.0)
    ensures a.Keys <= t.Keys
    ensures forall k :: k in t && k != DistanceKey ==> k in a && t[k] == a[k]
    ensures DistanceKey in t ==> (DistanceKey in a && t[DistanceKey] == a[DistanceKey]) || 10.0 <= t[DistanceKey] < 110.0
  {
  }

  /** A block changes the sensor readings only by storing a sample in
      [10, 110) under "distance". */
  lemma BlockReadings(s: Snapshot, b: CodeBlock, index: nat, r: real, fmt: Format)
    requires 0.0 <= r < 1.0
    ensures var t := BlockEffect(s, b, index, r, fmt).sensorReadings;
      t == s.sensorReadings || (DistanceKey in t && t == s.sensorReadings[DistanceKey := t[DistanceKey]] && 10.0 <= t[DistanceKey] < 110.0)
  {
    if Dispatch(b.kind) == ReadDistance {
      ReadDistanceRecords(s, b, index, r, fmt);
    }
  }

  /** A run keeps the sensor readings it started with, adding or updating
      only "distance", and only with samples in [10, 110). */
  lemma RunKeepsReadings(s: Snapshot, blocks: seq<CodeBlock>, guard: bool, stopAt: nat, samples: seq<real>, fmt: Format)
    requires |blocks| == |samples|
    requires ValidSamples(samples)
    ensures var t := RunSpec(s, blocks, guard, stopAt, samples, fmt).sensorReadings;
      && s.sensorReadings.Keys <= t.Keys
      && (forall k :: k in t && k != DistanceKey ==> k in s.sensorReadings && t[k] == s.sensorReadings[k])
      && (DistanceKey in t ==>
            (DistanceKey in s.sensorReadings && t[DistanceKey] == s.sensorReadings[DistanceKey]) ||
            10.0 <= t[DistanceKey] < 110.0)
  {
    ProgressReadings(Start(s), blocks, stopAt, samples, fmt, if guard then |blocks| else 0);
  }

  /** Clicking Run, which the editor only allows while nothing executes and
      the list is not empty, builds the run with a captured flag of false:
      not one block executes and the console shows only
      "Execution completed". */
  lemma ClickedRunExecutesNoBlock(s: Snapshot, blocks: seq<CodeBlock>, stopAt: nat, samples: seq<real>, fmt: Format)
    requires |blocks| == |samples|
    requires ExecuteControl(s.executing, |blocks|) == RunButton(true)
    ensures |blocks| > 0
    ensures Headers(RunSpec(s, blocks, s.executing, stopAt, samples, fmt).log) == []
    ensures RunSpec(s, blocks, s.executing, stopAt, samples, fmt).log == [CompletedLine]
  {
    RunAllOrNothing(s, blocks, s.executing, stopAt, samples, fmt);
  }

  /** The corrected run executes the blocks before the Stop click, all of
      them without one, in order, and then ends like every run. */
  lemma LiveRunHonoursStop(s: Snapshot, blocks: seq<CodeBlock>, stopAt: nat, samples: seq<real>, fmt: Format)
    requires |blocks| == |samples|
    ensures var t := LiveRunSpec(s, blocks, stopAt, samples, fmt);
      var n := Seqs.Min(stopAt, |blocks|);
      && Headers(t.log) == HeaderLines(blocks, n)
      && t.log == LogOf(blocks, samples, fmt, n) + [CompletedLine]
      && !t.executing && t.wheelSpeed == 0.0 && t.armRotation == 0.0 && t.droneHeight == 0.0
      && (stopAt >= |blocks| ==> Headers(t.log) == HeaderLines(blocks, |blocks|))
  {
    var n := Seqs.Min(stopAt, |blocks|);
    var p := Progress(Start(s), blocks, stopAt, samples, fmt, n);
    ProgressTrace(Start(s), blocks, stopAt, samples, fmt, n);
    assert p.log == LogOf(blocks, samples, fmt, n);
    assert LiveRunSpec(s, blocks, stopAt, samples, fmt) == Finish(p);
    LogHeaders(blocks, samples, fmt, n);
    Seqs.FilterAppend(LogOf(blocks, samples, fmt, n), [CompletedLine], IsHeader);
    Seqs.FilterSingleton(CompletedLine, IsHeader);
  }
}

/** The block editor: the instruction-block record, the catalog of block
    templates grouped by palette tab, building a block from a template, the
    coercion applied when a value is edited, and which buttons the editor
    offers. */
module Blocks {
  import opened Wrappers

  /** One instruction block. The source's `type` and `label` fields are
      `kind` and `caption` here (both words are reserved in Dafny); its
      `value?: number | string` is an optional real, because the editor only
      ever stores numbers. */
  datatype CodeBlock = CodeBlock(
    id: string,
    kind: string,
    caption: string,
    value: Option<real>,
    category: string,
    color: string)

  /** A catalog entry: what a palette button adds. */
  datatype Template = Template(kind: string, caption: string, value: Option<real>, color: string)

  /** The four palette tabs. */
  datatype Category = Motion | Control | Sensor | Advanced

  /** The tab's key, which is also what a new block records as its category. */
  function CategoryName(c: Category): string {
    match c
    case Motion => "motion"
    case Control => "control"
    case Sensor => "sensor"
    case Advanced => "advanced"
  }

  /** The templates offered on one tab, in palette order. */
  function Templates(c: Category): seq<Template> {
    match c
    case Motion => [
      Template("set_wheel_speed", "Set Wheel Speed", Some(0.0), "bg-orange-500"),
      Template("set_arm_angle", "Set Arm Angle", Some(0.0), "bg-orange-500"),
      Template("set_drone_height", "Set Drone Height", Some(0.0), "bg-orange-500"),
      Template("move_forward", "Move Forward", Some(1.0), "bg-orange-500")]
    case Control => [
      Template("wait", "Wait (seconds)", Some(1.0), "bg-yellow-500"),
      Template("repeat", "Repeat", Some(3.0), "bg-yellow-500"),
      Template("if_sensor", "If Sensor", Some(50.0), "bg-yellow-500")]
    case Sensor => [
      Template("read_distance", "Read Distance Sensor", None, "bg-cyan-500"),
      Template("read_gyro", "Read Gyroscope", None, "bg-cyan-500"),
      Template("read_camera", "Read Camera", None, "bg-cyan-500")]
    case Advanced => [
      Template("ai_predict", "AI Model Prediction", None, "bg-purple-500"),
      Template("path_plan", "Path Planning", Some(100.0), "bg-purple-500"),
      Template("custom_script", "Custom Python", None, "bg-purple-500")]
  }

  /** The whole catalog, tab after tab. */
  function AllTemplates(): seq<Template> {
    Templates(Motion) + Templates(Control) + Templates(Sensor) + Templates(Advanced)
  }

  /** The first template in `ts` whose kind is `kind`. */
  function FindIn(ts: seq<Template>, kind: string): (r: Option<Template>)
    ensures r.Some? ==> r.value in ts && r.value.kind == kind
    ensures r.None? <==> forall i :: 0 <= i < |ts| ==> ts[i].kind != kind
  {
    if ts == [] then None
    else if ts[0].kind == kind then Some(ts[0])
    else FindIn(ts[1..], kind)
  }

  /** The catalog template for `kind`, if there is one. */
  function Find(kind: string): Option<Template> {
    FindIn(AllTemplates(), kind)
  }

  /** No two templates, on the same tab or on different tabs, share a kind. */
  lemma CatalogKindsDistinct()
    ensures forall i, j :: 0 <= i < j < |AllTemplates()| ==> AllTemplates()[i].kind != AllTemplates()[j].kind
  {
  }

  /** The default each template carries: 0 for the three setters, 1 for
      move_forward and wait, 3 for repeat, 50 for if_sensor, 100 for
      path_plan, and none for the sensor blocks, ai_predict and custom_script. */
  lemma CatalogDefaults()
    ensures Find("set_wheel_speed").Some? && Find("set_wheel_speed").value.value == Some(0.0)
    ensures Find("set_arm_angle").Some? && Find("set_arm_angle").value.value == Some(0.0)
    ensures Find("set_drone_height").Some? && Find("set_drone_height").value.value == Some(0.0)
    ensures Find("move_forward").Some? && Find("move_forward").value.value == Some(1.0)
    ensures Find("wait").Some? && Find("wait").value.value == Some(1.0)
    ensures Find("repeat").Some? && Find("repeat").value.value == Some(3.0)
    ensures Find("if_sensor").Some? && Find("if_sensor").value.value == Some(50.0)
    ensures Find("path_plan").Some? && Find("path_plan").value.value == Some(100.0)
    ensures Find("read_distance").Some? && Find("read_distance").value.value.None?
    ensures Find("read_gyro").Some? && Find("read_gyro").value.value.None?
    ensures Find("read_camera").Some? && Find("read_camera").value.value.None?
    ensures Find("ai_predict").Some? && Find("ai_predict").value.value.None?
    ensures Find("custom_script").Some? && Find("custom_script").value.value.None?
  {
    PaletteBlock("", Motion, 0);
    PaletteBlock("", Motion, 1);
    PaletteBlock("", Motion, 2);
    PaletteBlock("", Motion, 3);
    PaletteBlock("", Control, 0);
    PaletteBlock("", Control, 1);
    PaletteBlock("", Control, 2);
    PaletteBlock("", Sensor, 0);
    PaletteBlock("", Sensor, 1);
    PaletteBlock("", Sensor, 2);
    PaletteBlock("", Advanced, 0);
    PaletteBlock("", Advanced, 1);
    PaletteBlock("", Advanced, 2);
  }

  /** The block a palette button adds: kind, label, value and colour from
      the template, the category from the currently selected tab. The id is
      passed in, because the source derives it from the clock. */
  function NewBlock(id: string, t: Template, selected: Category): (b: CodeBlock)
    ensures b.id == id && b.kind == t.kind && b.caption == t.caption
    ensures b.value == t.value && b.color == t.color
    ensures b.category == CategoryName(selected)
  {
    CodeBlock(id, t.kind, t.caption, t.value, CategoryName(selected), t.color)
  }

  /** A block added from a tab's palette lands in that tab's category and is
      the catalog entry for its kind. */
  lemma PaletteBlock(id: string, c: Category, k: nat)
    requires k < |Templates(c)|
    ensures var b := NewBlock(id, Templates(c)[k], c);
      b.category == CategoryName(c) && Find(b.kind) == Some(Templates(c)[k])
  {
    CatalogKindsDistinct();
    var t := Templates(c)[k];
    var ts := AllTemplates();
    var off := match c
      case Motion => 0
      case Control => 4
      case Sensor => 7
      case Advanced => 10;
    assert ts[off + k] == t;
    FindFirst(ts, off + k);
  }

  /** With distinct kinds, finding the kind of the `n`-th template gives it back. */
  lemma {:induction false} FindFirst(ts: seq<Template>, n: nat)
    requires n < |ts|
    requires forall i, j :: 0 <= i < j < |ts| ==> ts[i].kind != ts[j].kind
    ensures FindIn(ts, ts[n].kind) == Some(ts[n])
  {
    if n > 0 {
      assert ts[0].kind != ts[n].kind;
      assert ts[1..][n - 1] == ts[n];
      FindFirst(ts[1..], n - 1);
    }
  }

  /** What an edit of the number field stores: `parseFloat(input) || 0`.
      `parsed` is the parse, None where it gives NaN. NaN and 0 are both
      falsy, so the stored number is the parsed one when there is one and 0
      otherwise. */
  function EditedValue(parsed: Option<real>): (r: real)
    ensures r == parsed.GetOr(0.0)
  {
    if parsed.Some? && parsed.value != 0.0 then parsed.value else 0.0
  }

  /** The button under the sequence. */
  datatype ExecuteButton = StopButton | RunButton(enabled: bool)

  /** Stop is offered while a run is executing; otherwise Run, enabled only
      when there is at least one block. */
  function ExecuteControl(executing: bool, blockCount: nat): (r: ExecuteButton)
    ensures r.StopButton? <==> executing
    ensures r == RunButton(true) <==> !executing && blockCount > 0
  {
    if executing then StopButton else RunButton(blockCount > 0)
  }

  /** A block gets a number field exactly when its value is defined. */
  predicate ShowsValueEditor(b: CodeBlock) {
    b.value.Some?
  }

  /** A block freshly added from the catalog gets a number field except the
      three sensor blocks, ai_predict and custom_script. */
  lemma ValueEditorFromCatalog(id: string, c: Category, k: nat)
    requires k < |Templates(c)|
    ensures var t := Templates(c)[k];
      ShowsValueEditor(NewBlock(id, t, c)) <==>
        t.kind !in ["read_distance", "read_gyro", "read_camera", "ai_predict", "custom_script"]
  {
  }
}

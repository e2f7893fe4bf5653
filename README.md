# RobotStudio block interpreter, block editor, robot settings and blog index

This project models the core of the RobotStudio web application in Dafny and proves
properties of the model.

- **Workspace page** (`app/workspace/page.tsx`). The block interpreter:
  - `executeBlocks`, its inner `executeBlock` switch and `runExecution` loop;
  - the handlers that add, remove and update blocks and that stop a run;
  - the configuration merge;
  - the page's initial state.
- **Block editor** (`components/workspace/block-editor.tsx`):
  - the instruction-block record and the template catalog;
  - the block a palette button adds;
  - the coercion applied when a value is edited;
  - which of Run or Stop is offered;
  - when a block shows a number field.
- **Robot configuration panel** (`components/workspace/robot-config.tsx`):
  - the collapsible sections;
  - the robot-type buttons;
  - the presets;
  - the sensor checkboxes.
- **Blog index** (`app/blog/page.tsx`):
  - the post list;
  - the category filter and the featured list;
  - the two badge-colour maps.

Layout:

- `wrappers.dfy`: `Option`.
- `seqs.dfy`: JavaScript's order-preserving `filter` and its laws.
- `blocks.dfy`: the block editor.
- `engine.dfy`: the interpreter as pure functions on a `Snapshot`, with the lemmas about
  one block and about a whole run. A `Snapshot` holds the simulation state, the console and
  the trace of requested delays.
- `block_list.dfy`: the block-list handlers.
- `robot_settings.dfy`: the configuration panel.
- `blog.dfy`: the blog index.
- `workspace.dfy`: the page as a class, `Workspace.WorkspacePage`.
  - Its fields are the page's state hooks.
  - Its methods update them in place.
  - Each method is proved to leave the page in the state the matching `Engine`, `BlockList`
    or `RobotSettings` function describes.
  - The decay loop of `move_forward` and the block loop of `runExecution` are `while` loops.
    Their invariants tie them to those functions.

Modelling choices:

- **The loop guard is a parameter.** The guard of `runExecution` reads
  `simulationState.executing` as captured when `executeBlocks` was built; the callback's
  dependency list rebuilds it only on a re-render. The model passes that captured value as
  `guard`.
- **A Stop click is a position.** It is given as `stopAt`: the click lands just before
  block `stopAt` would be reached.
- **Random draws are parameters.** `Math.random()` is a per-block sample `samples[i]`. The
  lemmas that need it assume the sample is in [0, 1).
- **Number formatting is a parameter.** `toFixed(2)` and the default number-to-text
  conversion belong to JavaScript, so they are the two fields of `Engine.Format`.
- **Time is a trace.** Every `setTimeout` the page awaits is recorded, in order, in the
  `delays` trace, in milliseconds.
- **Falsy values.** JavaScript's `x || d` on a block value is `Engine.ValueOr`: an absent
  value and 0 both give `d`.
- **Renamed fields.** The block fields `type` and `label` are `kind` and `caption`, because
  both words are reserved in Dafny.
- **Block values are numbers.** `value` is an optional real, because the editor only ever
  stores numbers.

Two behaviours of the engine's code are worth stating outright:

- **When Stop is checked.** The loop tests its captured flag before each block and always
  awaits the 500 ms settle delay, so it never stops early.
- **Who resets on cancellation.** The tail of `runExecution` resets the three channels and
  the flag after every run, and so does `handleStop`.

## Model

| member | source | states |
|---|---|---|
| Seqs.Filter | app/workspace/page.tsx:164 | `Array.prototype.filter`: the result is no longer than the input, everything kept is from the input and passes the test, and every input element that passes is kept |
| Seqs.FilterAppend | app/workspace/page.tsx:164 | filtering a concatenation is filtering each part and concatenating, so kept elements keep their relative order |
| Seqs.FilterCount | app/workspace/page.tsx:164 | every element is kept exactly as often as it occurs when it passes, and never otherwise |
| Seqs.FilterKeepsAll | app/workspace/page.tsx:164 | a list whose every element passes is its own filter |
| Seqs.FilterIdempotent | app/workspace/page.tsx:164 | filtering twice with the same test is filtering once |
| Seqs.FilterDropsAll | app/workspace/page.tsx:164 | a list none of whose elements passes filters to the empty list |
| Seqs.FilterSingleton | app/workspace/page.tsx:164 | a one-element list filters to itself when the element passes, otherwise to empty |
| Seqs.Repeat | app/workspace/page.tsx:79-80 | the twenty equal delays of the decay loop: exactly `n` entries, all equal to `x` |
| Blocks.FindIn | components/workspace/block-editor.tsx:29-51 | the lookup of a kind in a template list: a found template is in the list with that kind, and nothing is found exactly when no template has the kind |
| Blocks.CatalogKindsDistinct | components/workspace/block-editor.tsx:29-51 | no two of the thirteen templates, on one tab or across tabs, share a type |
| Blocks.CatalogDefaults | components/workspace/block-editor.tsx:29-51 | each type's default value: 0 for the three setters, 1 for move_forward and wait, 3 for repeat, 50 for if_sensor, 100 for path_plan, none for the sensor blocks, ai_predict and custom_script |
| Blocks.NewBlock | components/workspace/block-editor.tsx:56-66 | a palette block copies type, label, value and colour from its template, takes the given id and records the selected tab as its category |
| Blocks.PaletteBlock | components/workspace/block-editor.tsx:54-66 | a block added from a tab lands in that tab's category and is the catalog entry for its type |
| Blocks.FindFirst | components/workspace/block-editor.tsx:29-51 | with distinct kinds, looking up the kind of the n-th template gives back that template |
| Blocks.ValueEditorFromCatalog | components/workspace/block-editor.tsx:124-134 | a freshly added block shows a number field exactly when its type is not one of the three sensor reads, ai_predict or custom_script |
| Blocks.EditedValue | components/workspace/block-editor.tsx:129 | `parseFloat(input) \|\| 0`: the parsed number when there is one, 0 for NaN |
| Blocks.ExecuteControl | components/workspace/block-editor.tsx:154-164 | Stop is offered exactly while executing; an enabled Run is offered exactly when nothing executes and there is at least one block |
| BlockList.Appended | app/workspace/page.tsx:159-161 | adding keeps the old list as a prefix and puts the new block last |
| BlockList.Removed | app/workspace/page.tsx:163-165 | removal keeps only blocks with another id, all taken from the list, and keeps every such block |
| BlockList.Updated | app/workspace/page.tsx:167-169 | an update keeps the length, changes no field but `value`, and sets the new value on exactly the blocks with the id |
| BlockList.RemovedCounts | app/workspace/page.tsx:163-165 | every copy of a block with the id is dropped; every other block occurs as often as before |
| BlockList.RemovedOrder | app/workspace/page.tsx:163-165 | removal keeps the order of what remains: removing from a split list is removing from each part |
| BlockList.RemoveAbsent | app/workspace/page.tsx:163-165 | removing an id no block carries changes nothing |
| BlockList.RemoveAfterAdd | app/workspace/page.tsx:159-165 | adding a block and then removing its id gives what removing the id alone gives |
| BlockList.RemoveAfterUpdate | app/workspace/page.tsx:163-169 | removing an id undoes any earlier update of that id |
| BlockList.UpdateAbsentOrRepeated | app/workspace/page.tsx:167-169 | updating an absent id changes nothing; repeating an update changes nothing more |
| BlockList.UpdatedShowsEditor | app/workspace/page.tsx:167-169 | an edited block keeps showing its number field |
| Engine.DispatchKindName | app/workspace/page.tsx:53-134 | each of the twelve case labels selects its own case and only those labels avoid `default` |
| Engine.CatalogDispatch | app/workspace/page.tsx:53-134 | every catalog type except custom_script has its own case in the switch |
| Engine.Digits | app/workspace/page.tsx:48-49 | the block number in the header is a non-empty string of decimal digits |
| Engine.DigitsRoundTrip | app/workspace/page.tsx:48-49 | the digits written for a number read back as that number |
| Engine.DigitsInjective | app/workspace/page.tsx:48-49 | different numbers are written with different digits |
| Engine.BracketedDigitsDiffer | app/workspace/page.tsx:48-49 | digits closed by `]` are read back unambiguously: texts with different digits differ |
| Engine.ExecLineNumber | app/workspace/page.tsx:48-49 | a header is `[`, the digits of the block's 1-based number, `] Executing: ` and the label; headers of different blocks differ |
| Engine.DecaySlows | app/workspace/page.tsx:79-85 | each decay step moves the wheel speed towards 0 without crossing it |
| Engine.BlockTrace | app/workspace/page.tsx:48-138 | a block appends exactly its header and detail lines to the console and its delays to the trace, and never changes the executing flag |
| Engine.BlockLogShape | app/workspace/page.tsx:49-131 | a block's lines are its `[n] Executing:` header, which the console treats as a header, then at most one detail line starting with the arrow indent, which it does not |
| Engine.SetterAssignsOwnChannel | app/workspace/page.tsx:54-76 | each setter assigns its own channel the block value or 0, and changes nothing else but the header line and the 500 ms settle delay |
| Engine.MoveForwardStops | app/workspace/page.tsx:78-137 | move_forward ends with the wheels at 0 and changes no other channel; it waits twenty times 50 ms, then 500 ms |
| Engine.WaitOnlyDelays | app/workspace/page.tsx:92-137 | wait changes no state and waits `(value \|\| 1) * 1000` ms, then 500 ms |
| Engine.ReadDistanceRecords | app/workspace/page.tsx:97-104 | read_distance stores a sample in [10, 110) under `distance`, keeps every other reading and logs that same sample |
| Engine.DetailLineBlocks | app/workspace/page.tsx:106-131 | read_gyro, read_camera, repeat, if_sensor, ai_predict and path_plan each add one detail line and change nothing else; the gyro line reports an angle in [0, 360); repeat and path_plan report their value or the defaults 1 and 100 |
| Engine.UnhandledOnlyLogsHeader | app/workspace/page.tsx:133-137 | a type without a case, custom_script among them, only logs its header and waits 500 ms |
| Engine.HeaderLines | app/workspace/page.tsx:141-144 | one header per block, numbered from 1 in list order |
| Engine.ProgressTrace | app/workspace/page.tsx:141-144 | after n blocks the console and the delay trace have grown by exactly those blocks' lines and delays, whatever a Stop click did |
| Engine.LogHeaders | app/workspace/page.tsx:48-50 | the header lines among the lines of n blocks are exactly their n headers, in order |
| Engine.RunCompletes | app/workspace/page.tsx:40-154 | every run clears the console and ends with the channels at 0, executing false, the lines of the blocks reached, then "Execution completed" |
| Engine.RunAllOrNothing | app/workspace/page.tsx:141-157 | with the captured guard a run executes every block or none: the console's headers are those of all blocks or of none |
| Engine.RunWithFalseGuard | app/workspace/page.tsx:142-153 | with the captured flag false a run leaves exactly ["Execution completed"], no delay and the sensor readings unchanged |
| Engine.BlockEffectSameTrace | app/workspace/page.tsx:48-138 | a block's effect on console, delays and readings does not depend on the channels or the flag |
| Engine.ProgressSameTrace | app/workspace/page.tsx:141-144 | wherever a Stop click lands, the blocks leave the same console, delays and readings |
| Engine.StopCannotInterrupt | app/workspace/page.tsx:142-179 | as written, a run ends in the same state wherever the Stop click lands, as with no click |
| Engine.BlockReadings | app/workspace/page.tsx:97-104 | a block leaves the sensor readings alone, or changes only "distance", to a sample in [10, 110) |
| Engine.ProgressReadings | app/workspace/page.tsx:97-104 | while blocks run, the readings only gain keys; only `distance` changes, and only to a sample in [10, 110) |
| Engine.RunKeepsReadings | app/workspace/page.tsx:97-152 | the same for a whole run, since neither the start nor the tail touches the readings |
| Engine.ClickedRunExecutesNoBlock | app/workspace/page.tsx:142-157 | whenever Run is clickable, the run it starts executes no block and leaves only "Execution completed" |
| Engine.LiveRunHonoursStop | app/workspace/page.tsx:140-179 | the corrected loop executes exactly the blocks before the Stop click, all of them without one, in order, then ends like every run |
| RobotSettings.MergeLaws | app/workspace/page.tsx:204 | merging an empty update changes nothing; merging the same update twice is merging it once |
| RobotSettings.Toggle | components/workspace/robot-config.tsx:38-43 | toggling a section flips that section's flag and no other |
| RobotSettings.ToggleTwice | components/workspace/robot-config.tsx:38-43 | toggling a section twice restores the panel |
| RobotSettings.SelectTypeOnlyType | components/workspace/robot-config.tsx:63-66 | a robot-type button changes the type and nothing else |
| RobotSettings.PresetKeys | components/workspace/robot-config.tsx:45-55 | loading a preset overwrites exactly that type's four keys with its values; the type, the sensors and the other fields are kept; a type without a preset changes nothing |
| RobotSettings.PresetIdempotent | components/workspace/robot-config.tsx:52-55 | loading a preset twice is loading it once |
| RobotSettings.InitialSensorChecks | components/workspace/robot-config.tsx:216-220 | the panel lists six sensor checkboxes; on the first render exactly Distance, Gyroscope and Camera are ticked, and every initial sensor has a checkbox |
| RobotSettings.ToggleSensorEffect | components/workspace/robot-config.tsx:216-224 | checking appends the sensor; unchecking removes every occurrence, keeps every other sensor as often as it was listed and in order; nothing but the sensor list changes |
| RobotSettings.CheckThenUncheck | components/workspace/robot-config.tsx:216-224 | checking then unchecking a sensor is the same as only unchecking it |
| Blog.FilterBySelection | app/blog/page.tsx:138-140 | with no selection (null or empty) every post is listed; with a category, exactly its posts, each as often as it occurs and in order |
| Blog.FeaturedExactly | app/blog/page.tsx:142 | the featured list holds exactly the featured posts, each as often as it occurs, in their order: the list of a concatenation is the concatenation of the lists |
| Blog.IdsFilter | app/blog/page.tsx:138-142 | the ids of a filtered list are the ids of the passing posts, in order |
| Blog.ShippedLists | app/blog/page.tsx:22-142 | for the shipped posts, the featured ones are 1, 2, 4; Tutorial holds 1, 2, 4, 6, 7; Concept 3, 5, 9, 10; Guide 8 |
| Blog.ShippedFeatured | app/blog/page.tsx:22-142 | the featured list of the shipped posts has ids 1, 2, 4 |
| Blog.ShippedTutorial | app/blog/page.tsx:22-140 | the Tutorial list of the shipped posts has ids 1, 2, 4, 6, 7 |
| Blog.ShippedConcept | app/blog/page.tsx:22-140 | the Concept list of the shipped posts has ids 3, 5, 9, 10 |
| Blog.ShippedGuide | app/blog/page.tsx:22-140 | the Guide list of the shipped posts has id 8 |
| Blog.Buttons | app/blog/page.tsx:234-251 | "All Articles" clears the selection, shows the featured section and lists every post; a category button hides it and lists that category's posts |
| Blog.DifficultyColors | app/blog/page.tsx:144-151 | the three difficulties get three distinct badge classes, none the fallback; any other string gets the fallback |
| Blog.CategoryColors | app/blog/page.tsx:153-160 | the three categories get three distinct label classes, none the fallback; any other string gets the fallback |
| Workspace.WorkspacePage.constructor | app/workspace/page.tsx:15-37 | the page starts with no blocks, the default wheeled robot, nothing executing, all channels 0, no readings and an empty console |
| Workspace.WorkspacePage.AddBlock | app/workspace/page.tsx:159-161 | the list becomes `BlockList.Appended` of the old one; nothing else changes |
| Workspace.WorkspacePage.RemoveBlock | app/workspace/page.tsx:163-165 | the list becomes `BlockList.Removed` of the old one; nothing else changes |
| Workspace.WorkspacePage.UpdateBlock | app/workspace/page.tsx:167-169 | the list becomes `BlockList.Updated` with the coerced edit; nothing else changes |
| Workspace.WorkspacePage.UpdateConfig | app/workspace/page.tsx:204 | the configuration becomes the old one merged with the update; nothing else changes |
| Workspace.WorkspacePage.Stop | app/workspace/page.tsx:171-179 | clears the flag and zeroes the three channels, keeping readings, console and list |
| Workspace.WorkspacePage.DecayWheels | app/workspace/page.tsx:78-90 | the twenty-step decay loop leaves the speed at 0 after twenty 50 ms waits and changes nothing else; its invariant gives the speed after each step |
| Workspace.WorkspacePage.ExecuteBlock | app/workspace/page.tsx:48-138 | one block's switch leaves exactly the state `Engine.BlockEffect` gives |
| Workspace.WorkspacePage.Complete | app/workspace/page.tsx:146-153 | the tail resets the flag and channels and appends "Execution completed" |
| Workspace.WorkspacePage.Run | app/workspace/page.tsx:40-156 | the block loop with the captured guard leaves exactly the state `Engine.RunSpec` gives |
| Workspace.WorkspacePage.ClickRun | components/workspace/block-editor.tsx:154-164 | clicking the enabled Run button ends with the console holding only "Execution completed" and nothing executing |
| Workspace.WorkspacePage.RunLive | app/workspace/page.tsx:140-179 | the corrected loop, which tests the live flag, leaves exactly the state `Engine.LiveRunSpec` gives |

## Left out

- Real time. Each awaited `setTimeout` is recorded in the `delays` trace instead of elapsing.
  So the model has no interleaving of a Stop click with a block's own updates other than
  "between blocks".
- React's update machinery. State updates are applied in order, immediately. Re-renders,
  batching and closures that outlive a re-render are not modelled. Overlapping runs are not
  modelled: as written a run ends within the click that starts it, and with the corrected
  `RunLive` the Run button is offered again after a Stop while the stopped run's current
  block still awaits its delays; a second run started then is not modelled.
- The write-only `currentWheelSpeed`, `currentArmRotation` and `currentDroneHeight` locals
  of `executeBlocks`. The same values reach the state directly.
- Engine.Apply: only the final wheel speed of move_forward's decay is kept; it is 0. The
  twenty intermediate speeds appear only as `Workspace.WorkspacePage.DecayWheels`'s loop
  invariant and in `Engine.Decayed`.
- `Math.random`, `toFixed(2)` and JavaScript's number-to-text conversion are parameters.
  Their output is not modelled.
- String block values. The editor only ever stores numbers, so `value` is a number.
- `parseFloat` and `parseInt` in the configuration panel's number inputs, and the NaN they
  yield for bad input. A configuration update is taken as the `Patch` it produces.
- Blog.Post: titles and excerpts sit in `Blog.Title` and `Blog.Excerpt`, looked up by id,
  instead of in the record. Nothing in the page computes with them.
- Rendering:
  - the 3D simulator (`components/workspace/robot-simulator.tsx`);
  - the stats overlay and the RUNNING/IDLE label;
  - the empty-console and empty-sequence messages;
  - the blog post page `app/blog/[slug]/page.tsx`;
  - the landing page `app/page.tsx`;
  - styling and icons.

  None of these is part of this model.
- The block id `block_${Date.now()}` depends on the clock. It is a parameter of
  `Blocks.NewBlock`, and ids are not assumed unique.

## Findings

| source | as written | input that shows it | evidently intended | confidence | as-written member | corrected member |
|---|---|---|---|---|---|---|
| app/workspace/page.tsx:142-157 | the loop tests `simulationState.executing` as captured when the callback was built; the Run button is only enabled while that flag is false, so the loop breaks before the first block and a Stop click can never interrupt a run | blocks = [set_wheel_speed 0.8], click Run: the console ends as ["Execution completed"] and the wheel speed never changes | the loop tests the live executing flag, so each block runs until Stop is clicked | not executed | Engine.ClickedRunExecutesNoBlock, Workspace.WorkspacePage.ClickRun | Workspace.WorkspacePage.RunLive, Engine.LiveRunHonoursStop |

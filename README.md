# Hall angle tool — a verified model of its state machine

The Hall angle tool is a small desktop window. It converts between the output
voltage of a Hall-effect sensor and the angle to its magnetic field, using
`V = V0 · cos(θ)`. The user types a reference voltage V0, a target angle θ and a
measured voltage V. The window shows the target voltage for θ and the actual
angle for V. A Save button appends `v0,v,theta` rows to a CSV file, and Restart
starts over.

This project models the part of `src/main.rs` that carries logic:

- the `MainGui` record, as `Gui.MainGui` (a class whose fields `update` changes in
  place) and as the value `HallAngle.GuiState`;
- the `Message` enum and `update`, as the transition functions `HallAngle.Step`
  (GUI fields) and `HallAngle.StepFiles` (directory). `Gui.MainGui.Update` is proved
  to perform exactly these transitions;
- `new()`, including its loop that looks for the first free `hall_angles_<i>.csv`.
  The loop is `Gui.ProbeFilename`; its reference definition is `HallAngle.FreeIndex`;
- the Option guards of the two readings in `view`, as `HallAngle.TargetVoltage`
  and `HallAngle.ActualAngle`, plus the two placeholder labels.

Modules:

- `Optional` (option.dfy): Rust's `Option`.
- `IntText` (int_text.dfy): `i64::from_str` and the decimal rendering of integers.
- `FileStore` (file_store.dfy): the working directory as a map from path to lines.
- `HallAngle` (hall_angle.dfy): state, messages, transitions, readings and their properties.
- `Gui` (gui.dfy): the imperative `MainGui` class and the probe loop.

The platform's `f64` is the type parameter `F`. Each floating-point primitive the
program calls is a field of `HallAngle.FloatOps<F>`:

- `f64::from_str`;
- the constant `0.0`;
- `v0 * cos(θ in radians)` and `acos(v / v0)` in degrees;
- `is_nan`;
- the four text formats.

`HallAngle.Sane` states two facts the proofs need about them: the empty
string does not parse, and `0.0` is not NaN. `HallAngle.DisplaysNumbers` states a
third: the `{}` text of a float is never empty and never starts with `v`, so no
data row can read as the header.

Main results:

- **The angle's text and value never disagree.** Every message keeps
  `thetaInput == ParseTheta(thetaInputValue)`, and likewise for V0 and V
  (`StepKeepsConsistent`, `RunKeepsConsistent`). So θ always stays within 0..=90.
  The bump case needs the round trip between `to_string` and `i64::from_str`
  (`ParseRender`).
- **Each message touches only its own fields.** This is the frame ensures of `Step`.
- **The probe terminates and its result is minimal.** The probed names are
  pairwise distinct (`StemPathInjective`), so at most `|files|` of them can exist
  (`ProbedPathsFit`). This bounds the loop in `ProbeFilename`.
- **The header is written at most once.** Over any run of messages, a file this
  program creates is one header line followed only by data rows, none of which is
  the header (`RunWritesHeaderOnce`). A file that already existed and ends with a line
  terminator only gets data rows appended (`RunOnlyAppendsRows`).

Facts about the program that the model keeps:

- θ is an `i64`, so only whole degrees are accepted.
- V0 and V are whatever `f64::from_str` accepts, including `NaN` and `inf`.
- A storage failure panics, so it is not a reported error here (see Left out).
- Save recomputes the angle and writes it even when it is NaN. The view shows
  `?` in that case. `SavedAngleIsShownAngle` ties the two together when the angle
  is known.
- The record `MainGui` is the datatype `HallAngle.GuiState` (src/main.rs:26-46)
  and the enum `Message` is the datatype `HallAngle.Message` (src/main.rs:48-58).
- `FileSystem.Exists` is `Path::exists` (src/main.rs:69, 129): membership of the
  path in the directory's map.

## Model

| member | source | states |
|---|---|---|
| `IntText.ParseI64` | src/main.rs:95 | `i64::from_str`: a successful parse is a 64-bit value and the text ends in a digit; empty text and a lone sign fail |
| `IntText.Render` | src/main.rs:113 | the `{}` text of an integer: digits only for a non-negative value, a minus sign then digits for a negative one |
| `IntText.ParseRender` | src/main.rs:113 | the text `to_string` writes for an `i64` parses back to the same value |
| `IntText.RenderInjective` | src/main.rs:67 | distinct integers render to distinct decimal texts |
| `FileStore.AppendLines` | src/main.rs:131-144 | appending in create+append mode: the path now exists, its old lines are kept with the new ones after them, and every other file is unchanged |
| `FileStore.AppendLinesTwice` | src/main.rs:137-144 | two successive writes to one file equal one append of both runs of lines |
| `FileStore.FileSystem.Open` | src/main.rs:131-135 | opening with `create(true)` creates an empty file when absent and changes nothing else |
| `FileStore.FileSystem.WriteLine` | src/main.rs:138 | `writeln!` appends exactly one line to the opened file |
| `HallAngle.ParseTheta` | src/main.rs:95-101 | an accepted angle lies in 0..=90 and is the `i64` the text parses to |
| `HallAngle.ThetaInputAccepts` | src/main.rs:94-102 | `ThetaInput(s)` stores `Some(n)` exactly when `s` parses as the integer `n` with 0 ≤ n ≤ 90, and always stores `s` as the text |
| `HallAngle.ParseThetaSamples` | src/main.rs:95-101 | "45" and "+7" are accepted; "91", "-1", "+" and "4.5" are refused |
| `HallAngle.TextInputsKeepText` | src/main.rs:90-121 | `V0Input`, `VInput` and `FilenameInput` store the raw text verbatim; the stored voltage is absent exactly when parsing fails |
| `HallAngle.Bump` | src/main.rs:111 | `(θ + d).max(0).min(90)`: the result is in 0..=90, equals θ + d when that is in range, and is the nearer limit otherwise |
| `HallAngle.ThetaChangeBumps` | src/main.rs:108-114 | with an angle present, `ThetaChange(d)` stores the clamped sum, and the regenerated text parses back to it |
| `HallAngle.ThetaChangeWithoutTheta` | src/main.rs:109-114 | with no angle, `ThetaChange` changes nothing, not even the text |
| `HallAngle.ThetaChangeAtLimits` | src/main.rs:111 | bumping up at 90 or down at 0 leaves the angle unchanged |
| `HallAngle.Step` | src/main.rs:88-151 | `update` on the GUI fields: a message changes no field outside its own (`Touches`), and keeps θ in 0..=90 |
| `HallAngle.StepFiles` | src/main.rs:88-151 | only Save writes to the directory |
| `HallAngle.SaveFiles` | src/main.rs:122-146 | Save changes nothing without a file name and both voltages; otherwise it creates or extends `<name>.csv` and leaves every other file unchanged |
| `HallAngle.Row` | src/main.rs:143 | the data row begins with the whole `{}` text of V0, so it is never the header when that text does not start with `v` |
| `HallAngle.RowIsNotHeader` | src/main.rs:138-143 | with f64's `{}` text, no data row equals the header line |
| `HallAngle.RowsAppendedTransitive` | src/main.rs:131-144 | rows appended after rows appended are rows appended to the original file |
| `HallAngle.SaveAppendsRow` | src/main.rs:127-144 | a guarded Save appends exactly one data row, preceded by the header `v0,v,theta` exactly when the file did not exist |
| `HallAngle.SaveKeepsState` | src/main.rs:122-146 | Save leaves the GUI state unchanged |
| `HallAngle.SavedAngleIsShownAngle` | src/main.rs:141-143 | when the view shows an angle, the row Save writes ends with that same angle |
| `HallAngle.SaveTwiceToNewFile` | src/main.rs:129-144 | two Saves to a new file give the header once, then two rows |
| `HallAngle.StepKeepsLog` | src/main.rs:127-144 | one message keeps a file of the form "header, then data rows" in that form |
| `HallAngle.RunWritesHeaderOnce` | src/main.rs:129-139 | after any run of messages, a file that did not exist before is absent or is one header line followed only by data rows, none of them the header |
| `HallAngle.RunOnlyAppendsRows` | src/main.rs:129-144 | after any run of messages, a file that existed keeps its lines as a prefix, and everything after them is data rows, never the header |
| `HallAngle.Initial` | src/main.rs:76-81 | the record `new()` builds: θ = 0 with text that parses back to it, no voltages, fixed-point format, the given file name |
| `HallAngle.InitialConsistent` | src/main.rs:76-81 | the initial state has θ = 0, and every stored value matches its text |
| `HallAngle.StepKeepsConsistent` | src/main.rs:88-151 | every message keeps each stored value equal to the parse of its displayed text |
| `HallAngle.RunKeepsConsistent` | src/main.rs:88-151 | from a consistent state, any run of messages keeps that consistency and θ within 0..=90 |
| `HallAngle.Stem` | src/main.rs:67 | `hall_angles_` followed by the rendered index, which is all digits when the index is not negative |
| `HallAngle.StemIndexReadsBack` | src/main.rs:67 | the text after `hall_angles_` parses back to the 64-bit index it was made from |
| `HallAngle.CsvPathInjective` | src/main.rs:128 | different file names give different `<name>.csv` paths |
| `HallAngle.StemPathInjective` | src/main.rs:67-68 | different indices probe different paths |
| `HallAngle.PathsUpToCount` | src/main.rs:64-74 | the paths probed for 1..=n are n distinct paths |
| `HallAngle.ProbedPathsFit` | src/main.rs:64-74 | if the paths for 1..i-1 all exist, the directory holds at least i-1 files, so the probe is bounded |
| `HallAngle.FreeIndexFrom` | src/main.rs:65-73 | scanning upward from i finds an index whose path is free, and every index below it is taken |
| `HallAngle.FreeIndex` | src/main.rs:64-74 | the smallest i ≥ 1 with `hall_angles_<i>.csv` absent |
| `HallAngle.FreeIndexUnique` | src/main.rs:64-74 | an index that is free, with every index below it taken, is the one the probe returns |
| `HallAngle.RestartIsNew` | src/main.rs:147-149 | Restart gives the initial state whatever the old state was, with the smallest free file name |
| `HallAngle.TargetVoltage` | src/main.rs:210-226 | the target voltage is known only with both θ and V0, is never NaN, is exactly 0.0 at 90°, and otherwise is V0·cos θ, known exactly when that is not NaN |
| `HallAngle.ActualAngle` | src/main.rs:259-263 | the actual angle is known exactly when V and V0 are present and the arccosine is not NaN, and it is that arccosine |
| `HallAngle.TargetLabel` | src/main.rs:210-236 | the placeholder `Target V = ?` exactly when the target voltage is unknown (θ or V0 absent, or the cosine term NaN); otherwise `Target V = ` and the known voltage in the format the flag picks |
| `HallAngle.AngleLabel` | src/main.rs:259-267 | the placeholder `Actual angle = ?` exactly when the angle is unknown (V or V0 absent, or the arccosine NaN); otherwise `Actual angle = ` and the known angle |
| `HallAngle.ScientificChangeSwitchesFormat` | src/main.rs:116-118 | toggling the flag leaves the target voltage and the angle label as they were and only switches the target label between the `{:.8e}` and `{:.16}` forms |
| `HallAngle.AngleLabelFollowsVoltages` | src/main.rs:259-267 | a message that touches neither V nor V0 leaves the angle label unchanged |
| `HallAngle.TargetLabelFollowsInputs` | src/main.rs:210-236 | a message that touches neither θ, V0 nor the format flag leaves the target label unchanged |
| `Gui.ProbeFilename` | src/main.rs:64-74 | the loop in `new()` returns `hall_angles_<i>` for the smallest free i, and always terminates on a finite directory |
| `Gui.MainGui.constructor` | src/main.rs:63-82 | `new()`: θ = 0 with text "0", everything else default, and the probed file name |
| `Gui.MainGui.Update` | src/main.rs:88-151 | `update` changes the fields and the directory exactly as `Step` and `StepFiles` say |
| `Gui.MainGui.SaveRecord` | src/main.rs:122-146 | the Save branch changes the directory exactly as `SaveFiles` says |
| `Gui.MainGui.Reset` | src/main.rs:147-149 | `*self = Self::new()`: the fields become the same initial state the constructor builds |

## Left out

- Widgets, layout, fonts, colours, the title and `main()`'s window settings. The `text_input::State` and `button::State` handles carry no logic.
- RunOnlyAppendsRows, SaveAppendsRow, WriteLine: a file is a list of complete lines, so an existing file is assumed to end with a line terminator; `writeln!` on a file whose last line has none joins the first row written to that line.
- Enabling the Save button only when both voltages are present. This is view wiring, and Save's own guard repeats the check.
- `f64` arithmetic (`cos`, `acos`, `to_radians`, `to_degrees`, `is_nan`), float parsing and float formatting. These are fields of `FloatOps<F>`, so no numeric identity such as `V0 · cos 60° = V0 / 2` is proved.
- The panics of `.expect` when a file cannot be opened or written. The file system here never fails.
- Bytes, UTF-8 and line terminators of the CSV file. A file is a sequence of lines.
- Path resolution. A path is its text, with no normalisation against the working directory.
- Bump: does not model `i64` overflow of `theta + amount` (a panic in debug builds, wrap-around in release builds). The view only sends ±1 and ±5, so the sum stays far from the limits.
- ProbeFilename: the index is unbounded, while the source counts in `i32`. Overflow would need about 2^31 existing files.

/**
 * `MainGui` as the program keeps it: one mutable record whose `update` changes
 * its fields in place and may append to files in the working directory.
 * Each method is proved against the transition functions of `HallAngle`.
 */
module Gui {
  import opened Optional
  import opened IntText
  import opened FileStore
  import opened HallAngle

  /** The probe in `new()`: try `hall_angles_1`, `hall_angles_2`, ... until a `.csv` is free. */
  method ProbeFilename(fs: FileSystem) returns (filename: string)
    ensures filename == Stem(FreeIndex(fs.files))
    ensures CsvPath(filename) !in fs.files
  {
    var i := 1;
    while true
      invariant 1 <= i
      invariant forall j :: 1 <= j < i ==> CsvPath(Stem(j)) in fs.files
      invariant FreeIndexFrom(fs.files, i) == FreeIndex(fs.files)
      decreases |fs.files| + 1 - i
    {
      ProbedPathsFit(fs.files, i);
      var name := Stem(i);
      var path := CsvPath(name);
      if !fs.Exists(path) {
        return name;
      }
      i := i + 1;
    }
  }

  class MainGui<F> {
    const ops: FloatOps<F>
    var v0InputValue: string
    var v0Input: Option<F>
    var thetaInputValue: string
    var thetaInput: Option<int>
    var vInputValue: string
    var vInput: Option<F>
    var scientific: bool
    var filenameInputValue: string

    /** The fields as a value. */
    function Snapshot(): GuiState<F>
      reads this
    {
      GuiState(v0InputValue, v0Input, thetaInputValue, thetaInput,
               vInputValue, vInput, scientific, filenameInputValue)
    }

    /** `MainGui::new()` */
    constructor (ops: FloatOps<F>, fs: FileSystem)
      ensures this.ops == ops
      ensures Snapshot() == Initial(Stem(FreeIndex(fs.files)))
    {
      this.ops := ops;
      new;
      Reset(fs);
    }

    /** `MainGui::update`: one message, handled to completion. */
    method Update(message: Message, fs: FileSystem)
      modifies this, fs
      ensures Snapshot() == Step(old(Snapshot()), message, ops, old(fs.files))
      ensures fs.files == StepFiles(old(Snapshot()), message, ops, old(fs.files))
    {
      match message
      case V0Input(text) =>
        v0Input := ops.parse(text);
        v0InputValue := text;
      case ThetaInput(text) =>
        thetaInput := ParseTheta(text);
        thetaInputValue := text;
      case VInput(text) =>
        vInput := ops.parse(text);
        vInputValue := text;
      case ThetaChange(amount) =>
        if thetaInput.Some? {
          thetaInput := Some(Bump(thetaInput.value, amount));
        }
        if thetaInput.Some? {
          thetaInputValue := Render(thetaInput.value);
        }
      case ScientificChange(flag) =>
        scientific := flag;
      case FilenameInput(text) =>
        filenameInputValue := text;
      case Save =>
        SaveRecord(fs);
      case Restart =>
        Reset(fs);
    }

    /** The Save message: append a row to `<filename>.csv`, after a header when the file is new. */
    method SaveRecord(fs: FileSystem)
      modifies fs
      ensures fs.files == SaveFiles(Snapshot(), ops, old(fs.files))
    {
      if |filenameInputValue| == 0 {
        return;
      }
      if v0Input.Some? && vInput.Some? {
        var v0, v := v0Input.value, vInput.value;
        var path := CsvPath(filenameInputValue);
        var addHeader := !fs.Exists(path);
        ghost var header: seq<string> := if addHeader then [Header] else [];
        fs.Open(path);
        if addHeader {
          fs.WriteLine(path, Header);
        }
        AppendLinesTwice(old(fs.files), path, [], header);
        fs.WriteLine(path, Row(ops, v0, v));
        AppendLinesTwice(old(fs.files), path, [] + header, [Row(ops, v0, v)]);
        assert [] + header + [Row(ops, v0, v)] == header + [Row(ops, v0, v)];
      }
    }

    /** The Restart message: `*self = Self::new()`. */
    method Reset(fs: FileSystem)
      modifies this
      ensures Snapshot() == Initial(Stem(FreeIndex(fs.files)))
    {
      var filename := ProbeFilename(fs);
      v0InputValue, v0Input := "", None;
      thetaInputValue, thetaInput := "0", Some(0);
      vInputValue, vInput := "", None;
      scientific := false;
      filenameInputValue := filename;
    }
  }

  /** A client: 88 bumped by 5 is clamped to 90; "91" is refused but kept; Restart resets the angle. */
  method UpdateScenario<F>(ops: FloatOps<F>, fs: FileSystem)
    modifies fs
  {
    var gui := new MainGui(ops, fs);
    assert gui.thetaInput == Some(0);
    gui.Update(ThetaInput("88"), fs);
    assert "88"[..1] == "8" && "8"[..0] == "";
    assert gui.thetaInput == Some(88);
    gui.Update(ThetaChange(5), fs);
    assert gui.thetaInput == Some(90);
    gui.Update(ThetaInput("91"), fs);
    assert gui.thetaInput == None && gui.thetaInputValue == "91";
    gui.Update(ThetaChange(-5), fs);
    assert gui.thetaInput == None && gui.thetaInputValue == "91";
    gui.Update(Restart, fs);
    assert gui.thetaInput == Some(0) && gui.thetaInputValue == "0";
  }
}

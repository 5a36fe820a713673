/**
 * The state machine behind the Hall angle window: the values of its text fields,
 * the transition taken for each message, the file effect of Save, the default
 * file name chosen at start-up, and the two derived readings shown in the view.
 *
 * The platform's 64-bit floats are the type parameter `F`; every floating-point
 * primitive the program calls is a field of `FloatOps<F>`.
 */
module HallAngle {
  import opened Optional
  import opened IntText
  import opened FileStore

  /** The floating-point primitives the program relies on. */
  datatype FloatOps<!F> = FloatOps(
    parse: string -> Option<F>,   // f64::from_str(s).ok()
    zero: F,                      // the literal 0.0
    projected: (F, int) -> F,     // v0 * (theta as f64).to_radians().cos()
    angleOf: (F, F) -> F,         // (v / v0).acos().to_degrees(), given (v, v0)
    isNan: F -> bool,             // f64::is_nan
    display: F -> string,         // "{}"
    scientific: F -> string,      // "{:.8e}"
    fixed: F -> string,           // "{:.16}"
    padded: F -> string)          // "{:0>6.3}"

  /** What f64 guarantees and the model needs: "" does not parse, 0.0 is not NaN. */
  predicate Sane<F>(ops: FloatOps<F>) {
    ops.parse("").None? && !ops.isNan(ops.zero)
  }

  /**
   * The `{}` text of an f64 (digits, a sign, "NaN" or "inf") is never empty and
   * never starts with the letter 'v', so no data row reads as the header.
   */
  ghost predicate DisplaysNumbers<F(!new)>(ops: FloatOps<F>) {
    forall x :: |ops.display(x)| > 0 && ops.display(x)[0] != 'v'
  }

  /** The fields of `MainGui` that carry logic (the widget handles are left out). */
  datatype GuiState<F> = GuiState(
    v0InputValue: string,
    v0Input: Option<F>,
    thetaInputValue: string,
    thetaInput: Option<int>,
    vInputValue: string,
    vInput: Option<F>,
    scientific: bool,
    filenameInputValue: string)

  datatype Message =
    | V0Input(text: string)
    | ThetaInput(text: string)
    | VInput(text: string)
    | ThetaChange(amount: int)
    | ScientificChange(flag: bool)
    | FilenameInput(text: string)
    | Save
    | Restart

  const MinTheta: int := 0
  const MaxTheta: int := 90
  const Header: string := "v0,v,theta"

  predicate ThetaInRange(theta: Option<int>) {
    theta.Some? ==> MinTheta <= theta.value <= MaxTheta
  }

  /** The target angle typed by the user: an `i64` accepted only within 0..=90. */
  function ParseTheta(s: string): (r: Option<int>)
    ensures ThetaInRange(r)
    ensures r.Some? ==> ParseI64(s) == r
  {
    match ParseI64(s)
    case Some(theta) => if MinTheta <= theta <= MaxTheta then Some(theta) else None
    case None => None
  }

  /** `(theta + amount).max(0).min(90)` */
  function Bump(theta: int, amount: int): (r: int)
    ensures MinTheta <= r <= MaxTheta
    ensures MinTheta <= theta + amount <= MaxTheta ==> r == theta + amount
    ensures theta + amount < MinTheta ==> r == MinTheta
    ensures theta + amount > MaxTheta ==> r == MaxTheta
  {
    var raised := if theta + amount < MinTheta then MinTheta else theta + amount;
    if raised > MaxTheta then MaxTheta else raised
  }

  /** `MainGui::new()` once the file name is chosen: theta 0, everything else default. */
  function Initial<F>(filename: string): (r: GuiState<F>)
    ensures r.thetaInput == Some(MinTheta) && ParseTheta(r.thetaInputValue) == r.thetaInput
    ensures r.v0Input.None? && r.vInput.None? && !r.scientific
    ensures r.filenameInputValue == filename
  {
    ParseRender(0);
    GuiState("", None, "0", Some(0), "", None, false, filename)
  }

  // ---------------------------------------------------------------------------
  // The default file name

  /** `format!("hall_angles_{}", i)` */
  function Stem(i: int): (r: string)
    ensures |r| > 12 && r[..12] == "hall_angles_"
    ensures i >= 0 ==> AllDigits(r[12..])
  {
    "hall_angles_" + Render(i)
  }

  /** `format!("{}.csv", name)` */
  function CsvPath(name: string): string
  {
    name + ".csv"
  }

  /** Different file names give different `.csv` paths. */
  lemma CsvPathInjective(a: string, b: string)
    requires CsvPath(a) == CsvPath(b)
    ensures a == b
  {
    assert |a| == |b|;
    assert a == CsvPath(a)[..|a|];
  }

  /** The index a stem was made from reads back from the text after `hall_angles_`. */
  lemma StemIndexReadsBack(i: int)
    requires I64Min <= i <= I64Max
    ensures ParseI64(Stem(i)[12..]) == Some(i)
  {
    assert Stem(i)[12..] == Render(i);
    ParseRender(i);
  }

  /** Different indices probe different paths. */
  lemma StemPathInjective(a: int, b: int)
    requires CsvPath(Stem(a)) == CsvPath(Stem(b))
    ensures a == b
  {
    CsvPathInjective(Stem(a), Stem(b));
    assert Render(a) == Stem(a)[12..];
    assert Render(b) == Stem(b)[12..];
    RenderInjective(a, b);
  }

  /** The paths probed for the indices 1..=n. */
  function PathsUpTo(n: nat): set<string> {
    set j | 1 <= j <= n :: CsvPath(Stem(j))
  }

  lemma {:induction false} PathsUpToCount(n: nat)
    ensures |PathsUpTo(n)| == n
  {
    if n == 0 {
      assert PathsUpTo(0) == {};
    } else {
      PathsUpToCount(n - 1);
      var last := CsvPath(Stem(n));
      assert PathsUpTo(n) == PathsUpTo(n - 1) + {last};
      if last in PathsUpTo(n - 1) {
        var j :| 1 <= j <= n - 1 && CsvPath(Stem(j)) == last;
        StemPathInjective(j, n);
      }
    }
  }

  /** Every probed path below `n + 1` is a file, when every probe so far found one. */
  lemma PathsUpToPresent(files: Files, n: nat)
    requires forall j :: 1 <= j <= n ==> CsvPath(Stem(j)) in files
    ensures PathsUpTo(n) <= files.Keys
  {
    forall p | p in PathsUpTo(n)
      ensures p in files.Keys
    {
      var j :| 1 <= j <= n && CsvPath(Stem(j)) == p;
    }
  }

  lemma SubsetSize(small: set<string>, large: set<string>)
    requires small <= large
    ensures |small| <= |large|
  {
    assert large == small + (large - small);
  }

  /** A finite directory cannot hold more probed paths than it has files. */
  lemma ProbedPathsFit(files: Files, i: int)
    requires 1 <= i
    requires forall j :: 1 <= j < i ==> CsvPath(Stem(j)) in files
    ensures i - 1 <= |files|
  {
    PathsUpToCount(i - 1);
    PathsUpToPresent(files, i - 1);
    SubsetSize(PathsUpTo(i - 1), files.Keys);
  }

  /** The first free index at or after `i`, when every index below `i` is taken. */
  function FreeIndexFrom(files: Files, i: int): (k: int)
    requires 1 <= i
    requires forall j :: 1 <= j < i ==> CsvPath(Stem(j)) in files
    ensures i <= k
    ensures CsvPath(Stem(k)) !in files
    ensures forall j :: 1 <= j < k ==> CsvPath(Stem(j)) in files
    decreases |files| + 1 - i
  {
    ProbedPathsFit(files, i);
    if CsvPath(Stem(i)) !in files then i else FreeIndexFrom(files, i + 1)
  }

  /** The smallest `i >= 1` for which `hall_angles_<i>.csv` does not exist. */
  function FreeIndex(files: Files): (k: int)
    ensures 1 <= k
    ensures CsvPath(Stem(k)) !in files
    ensures forall j :: 1 <= j < k ==> CsvPath(Stem(j)) in files
  {
    FreeIndexFrom(files, 1)
  }

  /** The first free index is determined by its two defining properties. */
  lemma FreeIndexUnique(files: Files, k: int)
    requires 1 <= k && CsvPath(Stem(k)) !in files
    requires forall j :: 1 <= j < k ==> CsvPath(Stem(j)) in files
    ensures k == FreeIndex(files)
  {
  }

  // ---------------------------------------------------------------------------
  // Transitions

  /** The data row Save appends: `format!("{},{},{}", v0, v, theta)`. */
  function Row<F>(ops: FloatOps<F>, v0: F, v: F): (r: string)
    ensures |ops.display(v0)| <= |r| && r[..|ops.display(v0)|] == ops.display(v0)
    ensures |ops.display(v0)| > 0 ==> |r| > 0 && r[0] == ops.display(v0)[0]
    ensures |ops.display(v0)| > 0 && ops.display(v0)[0] != 'v' ==> r != Header
  {
    assert Header[0] == 'v';
    ops.display(v0) + "," + ops.display(v) + "," + ops.display(ops.angleOf(v, v0))
  }

  /** Whether Save writes anything: a file name and both voltages are present. */
  predicate CanSave<F>(s: GuiState<F>) {
    |s.filenameInputValue| > 0 && s.v0Input.Some? && s.vInput.Some?
  }

  /** The directory after Save. */
  function SaveFiles<F>(s: GuiState<F>, ops: FloatOps<F>, files: Files): (r: Files)
    ensures !CanSave(s) ==> r == files
    ensures CanSave(s) ==> r.Keys == files.Keys + {CsvPath(s.filenameInputValue)}
    ensures forall p :: p in files && p != CsvPath(s.filenameInputValue) ==> r[p] == files[p]
  {
    if |s.filenameInputValue| == 0 then files
    else if s.v0Input.Some? && s.vInput.Some? then
      var path := CsvPath(s.filenameInputValue);
      var header := if path in files then [] else [Header];
      AppendLines(files, path, header + [Row(ops, s.v0Input.value, s.vInput.value)])
    else files
  }

  /** The fields one message may touch. */
  datatype Field = V0Field | ThetaField | VField | ScientificField | FilenameField

  function Touches(m: Message): set<Field> {
    match m
    case V0Input(_) => {V0Field}
    case ThetaInput(_) => {ThetaField}
    case VInput(_) => {VField}
    case ThetaChange(_) => {ThetaField}
    case ScientificChange(_) => {ScientificField}
    case FilenameInput(_) => {FilenameField}
    case Save => {}
    case Restart => {V0Field, ThetaField, VField, ScientificField, FilenameField}
  }

  /** `s` and `t` agree on every field outside `fields` (a field's text and value together). */
  ghost predicate SameOutside<F>(s: GuiState<F>, t: GuiState<F>, fields: set<Field>) {
    && (V0Field !in fields ==> s.v0InputValue == t.v0InputValue && s.v0Input == t.v0Input)
    && (ThetaField !in fields ==> s.thetaInputValue == t.thetaInputValue && s.thetaInput == t.thetaInput)
    && (VField !in fields ==> s.vInputValue == t.vInputValue && s.vInput == t.vInput)
    && (ScientificField !in fields ==> s.scientific == t.scientific)
    && (FilenameField !in fields ==> s.filenameInputValue == t.filenameInputValue)
  }

  /** `MainGui::update`, on the GUI fields. */
  function Step<F>(s: GuiState<F>, m: Message, ops: FloatOps<F>, files: Files): (t: GuiState<F>)
    ensures SameOutside(s, t, Touches(m))
    ensures ThetaInRange(s.thetaInput) ==> ThetaInRange(t.thetaInput)
  {
    match m
    case V0Input(text) => s.(v0Input := ops.parse(text), v0InputValue := text)
    case ThetaInput(text) => s.(thetaInput := ParseTheta(text), thetaInputValue := text)
    case VInput(text) => s.(vInput := ops.parse(text), vInputValue := text)
    case ThetaChange(amount) =>
      if s.thetaInput.Some? then
        var bumped := Bump(s.thetaInput.value, amount);
        s.(thetaInput := Some(bumped), thetaInputValue := Render(bumped))
      else s
    case ScientificChange(flag) => s.(scientific := flag)
    case FilenameInput(text) => s.(filenameInputValue := text)
    case Save => s
    case Restart => Initial(Stem(FreeIndex(files)))
  }

  /** `MainGui::update`, on the directory: only Save writes. */
  function StepFiles<F>(s: GuiState<F>, m: Message, ops: FloatOps<F>, files: Files): (r: Files)
    ensures !m.Save? ==> r == files
  {
    if m.Save? then SaveFiles(s, ops, files) else files
  }

  // ---------------------------------------------------------------------------
  // The readings derived in the view

  /** The target voltage: known only with an angle and a V0, exactly 0.0 at 90 degrees. */
  function TargetVoltage<F>(s: GuiState<F>, ops: FloatOps<F>): (r: Option<F>)
    ensures r.Some? ==> s.thetaInput.Some? && s.v0Input.Some? && !ops.isNan(r.value)
    ensures s.thetaInput == Some(90) && s.v0Input.Some? && !ops.isNan(ops.zero) ==> r == Some(ops.zero)
    ensures s.thetaInput.Some? && s.thetaInput.value != 90 && s.v0Input.Some? ==>
              r.Some? == !ops.isNan(ops.projected(s.v0Input.value, s.thetaInput.value))
    ensures r.Some? && s.thetaInput.value != 90 ==> r.value == ops.projected(s.v0Input.value, s.thetaInput.value)
  {
    if s.thetaInput.Some? && s.v0Input.Some? then
      var target := if s.thetaInput.value == 90 then ops.zero
                    else ops.projected(s.v0Input.value, s.thetaInput.value);
      if ops.isNan(target) then None else Some(target)
    else None
  }

  /** The actual angle: known only with a V and a V0 whose arccosine is a number. */
  function ActualAngle<F>(s: GuiState<F>, ops: FloatOps<F>): (r: Option<F>)
    ensures r.Some? <==> s.vInput.Some? && s.v0Input.Some? && !ops.isNan(ops.angleOf(s.vInput.value, s.v0Input.value))
    ensures r.Some? ==> r.value == ops.angleOf(s.vInput.value, s.v0Input.value)
  {
    if s.vInput.Some? && s.v0Input.Some? then
      var theta := ops.angleOf(s.vInput.value, s.v0Input.value);
      if ops.isNan(theta) then None else Some(theta)
    else None
  }

  /** The target voltage label: a placeholder when unknown, else the format the flag picks. */
  function TargetLabel<F>(s: GuiState<F>, ops: FloatOps<F>): (r: string)
    ensures |r| >= 11 && r[..11] == "Target V = "
    ensures s.thetaInput.None? || s.v0Input.None? ==> r == "Target V = ?"
    ensures TargetVoltage(s, ops).None? ==> r == "Target V = ?"
    ensures TargetVoltage(s, ops).Some? ==>
              var target := TargetVoltage(s, ops).value;
              r == "Target V = " + (if s.scientific then ops.scientific(target) else ops.fixed(target))
  {
    match TargetVoltage(s, ops)
    case None => "Target V = ?"
    case Some(target) =>
      "Target V = " + (if s.scientific then ops.scientific(target) else ops.fixed(target))
  }

  /** The actual angle label: a placeholder when unknown. */
  function AngleLabel<F>(s: GuiState<F>, ops: FloatOps<F>): (r: string)
    ensures |r| >= 15 && r[..15] == "Actual angle = "
    ensures s.vInput.None? || s.v0Input.None? ==> r == "Actual angle = ?"
    ensures ActualAngle(s, ops).None? ==> r == "Actual angle = ?"
    ensures ActualAngle(s, ops).Some? ==> r == "Actual angle = " + ops.padded(ActualAngle(s, ops).value)
  {
    match ActualAngle(s, ops)
    case None => "Actual angle = ?"
    case Some(theta) => "Actual angle = " + ops.padded(theta)
  }

  /** The scientific flag only switches the format of the target voltage; the angle label stays. */
  lemma ScientificChangeSwitchesFormat<F>(s: GuiState<F>, flag: bool, ops: FloatOps<F>, files: Files)
    ensures var t := Step(s, ScientificChange(flag), ops, files);
            && TargetVoltage(t, ops) == TargetVoltage(s, ops)
            && AngleLabel(t, ops) == AngleLabel(s, ops)
            && (TargetVoltage(s, ops).Some? ==>
                  TargetLabel(t, ops) == "Target V = " + (if flag then ops.scientific(TargetVoltage(s, ops).value)
                                                          else ops.fixed(TargetVoltage(s, ops).value)))
  {
  }

  /** The angle label changes only with a message that touches V or V0. */
  lemma AngleLabelFollowsVoltages<F>(s: GuiState<F>, m: Message, ops: FloatOps<F>, files: Files)
    requires V0Field !in Touches(m) && VField !in Touches(m)
    ensures AngleLabel(Step(s, m, ops, files), ops) == AngleLabel(s, ops)
  {
  }

  /** The target label changes only with a message that touches the angle, V0 or the format flag. */
  lemma TargetLabelFollowsInputs<F>(s: GuiState<F>, m: Message, ops: FloatOps<F>, files: Files)
    requires V0Field !in Touches(m) && ThetaField !in Touches(m) && ScientificField !in Touches(m)
    ensures TargetLabel(Step(s, m, ops, files), ops) == TargetLabel(s, ops)
  {
  }

  // ---------------------------------------------------------------------------
  // Properties of the transitions

  /** Each stored value is what its displayed text parses to. */
  ghost predicate Consistent<F>(s: GuiState<F>, ops: FloatOps<F>) {
    && s.thetaInput == ParseTheta(s.thetaInputValue)
    && s.v0Input == ops.parse(s.v0InputValue)
    && s.vInput == ops.parse(s.vInputValue)
  }

  /** `ThetaInput` accepts exactly the integers 0..=90 and keeps the typed text. */
  lemma ThetaInputAccepts<F>(s: GuiState<F>, text: string, ops: FloatOps<F>, files: Files, n: int)
    ensures Step(s, ThetaInput(text), ops, files).thetaInput == Some(n) <==>
              ParseI64(text) == Some(n) && MinTheta <= n <= MaxTheta
    ensures Step(s, ThetaInput(text), ops, files).thetaInputValue == text
  {
  }

  /** The three other text fields keep the raw text; the value is absent exactly when parsing fails. */
  lemma TextInputsKeepText<F>(s: GuiState<F>, text: string, ops: FloatOps<F>, files: Files)
    ensures Step(s, V0Input(text), ops, files).v0InputValue == text
    ensures Step(s, V0Input(text), ops, files).v0Input.None? <==> ops.parse(text).None?
    ensures Step(s, VInput(text), ops, files).vInputValue == text
    ensures Step(s, VInput(text), ops, files).vInput.None? <==> ops.parse(text).None?
    ensures Step(s, FilenameInput(text), ops, files).filenameInputValue == text
  {
  }

  /** A bump clamps, and the regenerated text reads back as the new angle. */
  lemma ThetaChangeBumps<F>(s: GuiState<F>, amount: int, ops: FloatOps<F>, files: Files)
    requires s.thetaInput.Some?
    ensures Step(s, ThetaChange(amount), ops, files).thetaInput ==
              Some(Bump(s.thetaInput.value, amount))
    ensures ParseTheta(Step(s, ThetaChange(amount), ops, files).thetaInputValue) ==
              Step(s, ThetaChange(amount), ops, files).thetaInput
  {
    ParseRender(Bump(s.thetaInput.value, amount));
  }

  /** Without an angle, a bump changes nothing, not even the text. */
  lemma ThetaChangeWithoutTheta<F>(s: GuiState<F>, amount: int, ops: FloatOps<F>, files: Files)
    requires s.thetaInput.None?
    ensures Step(s, ThetaChange(amount), ops, files) == s
  {
  }

  /** Bumping up at 90 or down at 0 leaves the angle where it is. */
  lemma ThetaChangeAtLimits<F>(s: GuiState<F>, amount: int, ops: FloatOps<F>, files: Files)
    requires (s.thetaInput == Some(MaxTheta) && amount >= 0) || (s.thetaInput == Some(MinTheta) && amount <= 0)
    ensures Step(s, ThetaChange(amount), ops, files).thetaInput == s.thetaInput
  {
  }

  /** Sample inputs: "45" is accepted, "91", "-1", "+" and "4.5" are not. */
  lemma ParseThetaSamples()
    ensures ParseTheta("45") == Some(45)
    ensures ParseTheta("+7") == Some(7)
    ensures ParseTheta("91") == None
    ensures ParseTheta("-1") == None
    ensures ParseTheta("+") == None
    ensures ParseTheta("4.5") == None
  {
    assert "45"[..1] == "4" && "4"[..0] == "";
    assert DigitsValue("45") == 45;
    assert "91"[..1] == "9";
  }

  lemma InitialConsistent<F>(ops: FloatOps<F>, filename: string)
    requires Sane(ops)
    ensures Consistent(Initial(filename), ops)
    ensures Initial<F>(filename).thetaInput == Some(MinTheta)
  {
    ParseRender(0);
  }

  /** Every message keeps each stored value equal to the parse of its text. */
  lemma StepKeepsConsistent<F>(s: GuiState<F>, m: Message, ops: FloatOps<F>, files: Files)
    requires Sane(ops) && Consistent(s, ops)
    ensures Consistent(Step(s, m, ops, files), ops)
  {
    match m
    case ThetaChange(amount) =>
      if s.thetaInput.Some? {
        ThetaChangeBumps(s, amount, ops, files);
      }
    case Restart =>
      InitialConsistent<F>(ops, Stem(FreeIndex(files)));
    case _ =>
  }

  /** The GUI state and the directory after a run of messages. */
  function Run<F>(s: GuiState<F>, msgs: seq<Message>, ops: FloatOps<F>, files: Files): (GuiState<F>, Files)
    decreases |msgs|
  {
    if |msgs| == 0 then (s, files)
    else Run(Step(s, msgs[0], ops, files), msgs[1..], ops, StepFiles(s, msgs[0], ops, files))
  }

  /** From any consistent state, such as the initial one, a run of messages keeps the angle in 0..=90 and consistent with its text. */
  lemma {:induction false} RunKeepsConsistent<F>(s: GuiState<F>, msgs: seq<Message>, ops: FloatOps<F>, files: Files)
    requires Sane(ops) && Consistent(s, ops)
    ensures Consistent(Run(s, msgs, ops, files).0, ops)
    ensures ThetaInRange(Run(s, msgs, ops, files).0.thetaInput)
    decreases |msgs|
  {
    if |msgs| > 0 {
      StepKeepsConsistent(s, msgs[0], ops, files);
      RunKeepsConsistent(Step(s, msgs[0], ops, files), msgs[1..], ops, StepFiles(s, msgs[0], ops, files));
    }
  }

  // ---------------------------------------------------------------------------
  // Properties of Save

  /** Save appends one row, after the header exactly when the file is new. */
  lemma SaveAppendsRow<F>(s: GuiState<F>, ops: FloatOps<F>, files: Files)
    requires CanSave(s)
    ensures var path := CsvPath(s.filenameInputValue);
            var row := Row(ops, s.v0Input.value, s.vInput.value);
            SaveFiles(s, ops, files)[path] ==
              (if path in files then files[path] else [Header]) + [row]
  {
  }

  /** Save leaves the GUI state alone. */
  lemma SaveKeepsState<F>(s: GuiState<F>, ops: FloatOps<F>, files: Files)
    ensures Step(s, Save, ops, files) == s
  {
  }

  /** When the angle is shown, Save writes that same angle. */
  lemma SavedAngleIsShownAngle<F>(s: GuiState<F>, ops: FloatOps<F>, files: Files)
    requires CanSave(s) && ActualAngle(s, ops).Some?
    ensures var lines := SaveFiles(s, ops, files)[CsvPath(s.filenameInputValue)];
            lines[|lines| - 1] == ops.display(s.v0Input.value) + "," + ops.display(s.vInput.value)
                                  + "," + ops.display(ActualAngle(s, ops).value)
  {
  }

  /** Saving twice to a new file writes the header once and two rows. */
  lemma SaveTwiceToNewFile<F>(s: GuiState<F>, ops: FloatOps<F>, files: Files)
    requires CanSave(s) && CsvPath(s.filenameInputValue) !in files
    ensures var row := Row(ops, s.v0Input.value, s.vInput.value);
            SaveFiles(s, ops, SaveFiles(s, ops, files))[CsvPath(s.filenameInputValue)] == [Header, row, row]
  {
  }

  /** A log this program wrote: one header line, then data rows only. */
  ghost predicate IsLog<F(!new)>(lines: seq<string>, ops: FloatOps<F>) {
    && |lines| > 0
    && lines[0] == Header
    && forall k :: 1 <= k < |lines| ==> lines[k] != Header && exists v0, v :: lines[k] == Row(ops, v0, v)
  }

  /** `after` is `before` followed by data rows only. */
  ghost predicate RowsAppended<F(!new)>(before: seq<string>, after: seq<string>, ops: FloatOps<F>) {
    && |before| <= |after|
    && after[..|before|] == before
    && forall k :: |before| <= k < |after| ==> after[k] != Header && exists v0, v :: after[k] == Row(ops, v0, v)
  }

  /** No data row reads as the header. */
  lemma RowIsNotHeader<F(!new)>(ops: FloatOps<F>, v0: F, v: F)
    requires DisplaysNumbers(ops)
    ensures Row(ops, v0, v) != Header
  {
    assert |ops.display(v0)| > 0 && ops.display(v0)[0] != 'v';
  }

  /** Appending rows after appending rows is appending rows. */
  lemma RowsAppendedTransitive<F(!new)>(a: seq<string>, b: seq<string>, c: seq<string>, ops: FloatOps<F>)
    requires RowsAppended(a, b, ops) && RowsAppended(b, c, ops)
    ensures RowsAppended(a, c, ops)
  {
    assert c[..|a|] == c[..|b|][..|a|];
    forall k | |a| <= k < |c|
      ensures c[k] != Header && exists v0, v :: c[k] == Row(ops, v0, v)
    {
      if k < |b| {
        assert c[k] == c[..|b|][k] == b[k];
      }
    }
  }

  /** One message keeps a program-written log a log. */
  lemma StepKeepsLog<F(!new)>(s: GuiState<F>, m: Message, ops: FloatOps<F>, files: Files, path: string)
    requires DisplaysNumbers(ops)
    requires path in files ==> IsLog(files[path], ops)
    ensures var after := StepFiles(s, m, ops, files);
            path in after ==> IsLog(after[path], ops)
  {
    if m.Save? && CanSave(s) && path == CsvPath(s.filenameInputValue) {
      var row := Row(ops, s.v0Input.value, s.vInput.value);
      var after := StepFiles(s, m, ops, files);
      RowIsNotHeader(ops, s.v0Input.value, s.vInput.value);
      assert after[path][|after[path]| - 1] == row;
    }
  }

  /**
   * The header is written at most once: a file that did not exist before a run of
   * messages is, after it, absent or one header line followed by data rows only.
   */
  lemma {:induction false} RunWritesHeaderOnce<F(!new)>(s: GuiState<F>, msgs: seq<Message>, ops: FloatOps<F>, files: Files, path: string)
    requires DisplaysNumbers(ops)
    requires path in files ==> IsLog(files[path], ops)
    ensures var after := Run(s, msgs, ops, files).1;
            path in after ==> IsLog(after[path], ops)
    decreases |msgs|
  {
    if |msgs| > 0 {
      StepKeepsLog(s, msgs[0], ops, files, path);
      RunWritesHeaderOnce(Step(s, msgs[0], ops, files), msgs[1..], ops, StepFiles(s, msgs[0], ops, files), path);
    }
  }

  /** A file that existed before a run keeps its lines; the run only appends data rows to it. */
  lemma {:induction false} RunOnlyAppendsRows<F(!new)>(s: GuiState<F>, msgs: seq<Message>, ops: FloatOps<F>, files: Files, path: string)
    requires DisplaysNumbers(ops)
    requires path in files
    ensures var after := Run(s, msgs, ops, files).1;
            path in after && RowsAppended(files[path], after[path], ops)
    decreases |msgs|
  {
    if |msgs| > 0 {
      var next := StepFiles(s, msgs[0], ops, files);
      RunOnlyAppendsRows(Step(s, msgs[0], ops, files), msgs[1..], ops, next, path);
      assert RowsAppended(files[path], next[path], ops) by {
        if msgs[0].Save? && CanSave(s) && path == CsvPath(s.filenameInputValue) {
          RowIsNotHeader(ops, s.v0Input.value, s.vInput.value);
          assert next[path] == files[path] + [Row(ops, s.v0Input.value, s.vInput.value)];
        } else {
          assert next[path] == files[path];
        }
      }
      RowsAppendedTransitive(files[path], next[path], Run(s, msgs, ops, files).1[path], ops);
    }
  }

  // ---------------------------------------------------------------------------
  // Properties of Restart

  /** Restart forgets the whole state and offers the first free file name. */
  lemma RestartIsNew<F>(s: GuiState<F>, ops: FloatOps<F>, files: Files, k: int)
    requires 1 <= k && CsvPath(Stem(k)) !in files
    requires forall j :: 1 <= j < k ==> CsvPath(Stem(j)) in files
    ensures Step(s, Restart, ops, files) == Initial(Stem(k))
  {
    FreeIndexUnique(files, k);
  }
}

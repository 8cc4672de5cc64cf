/** `ui/compose/AddBabyScreen.kt`: the form for a new baby. Age, weight and
    height go through input filters that take an edit whole or not at all;
    the save button runs `validateFields` and, when it passes, hands the
    trimmed name and the parsed numbers to the view-model. */
module AddBabyForm {
  import opened Wrappers
  import opened Text
  import opened Domain
  import opened BabySexCodec
  import opened FormRules

  const NameEmpty: string := "El nombre del bebé no puede estar vacío"
  const AgeEmpty: string := "La edad no puede estar vacía"
  const AgeRange: string := "La edad debe estar entre 0 y 36 meses (0-3 años)"
  const WeightEmpty: string := "El peso no puede estar vacío"
  const WeightRange: string := "El peso debe estar entre 0 y 15 kg"
  const HeightEmpty: string := "La altura no puede estar vacía"
  const HeightRange: string := "La altura debe estar entre 0 y 100 cm (0-1 metro)"
  const SexMissing: string := "Debes seleccionar el sexo del bebé"

  const MaxAgeMonths: int := 36
  const MaxWeight: real := 15.0
  const MaxHeight: real := 100.0

  datatype BabyFields = BabyFields(
    name: string,
    ageText: string,
    sex: Option<BabySex>,
    weight: string,
    height: string)

  /** Every field starts empty and no sex is selected. */
  const Blank: BabyFields := BabyFields("", "", None, "", "")

  // ---------------------------------------------------------------------
  // Decimal text

  /** The number of digits `s` starts with. */
  function LeadingDigits(s: string): (k: nat)
    ensures k <= |s| && AllDigits(s[..k])
    ensures k == |s| || !IsDigit(s[k])
  {
    if |s| == 0 || !IsDigit(s[0]) then 0
    else
      var k := 1 + LeadingDigits(s[1..]);
      assert s[..k] == [s[0]] + s[1..][..k - 1];
      k
  }

  /** The shape the weight and height filters accept, read left to right: at
      most `m` digits, then optionally a point followed by at most `n`
      digits. */
  predicate DecimalShape(s: string, m: nat, n: nat) {
    var k := LeadingDigits(s);
    k <= m && (k == |s| || (s[k] == '.' && AllDigits(s[k + 1..]) && |s| - k - 1 <= n))
  }

  /** The regular expression `^\d{0,m}(\.\d{0,n})?$` as written: some split
      of `s` into a digit run and an optional fraction part. */
  ghost predicate DecimalPattern(s: string, m: nat, n: nat) {
    exists k :: 0 <= k <= |s| && k <= m && AllDigits(s[..k]) &&
      (k == |s| || (s[k] == '.' && AllDigits(s[k + 1..]) && |s| - k - 1 <= n))
  }

  /** The left-to-right reading accepts exactly what the pattern matches. */
  lemma DecimalShapeIsPattern(s: string, m: nat, n: nat)
    ensures DecimalShape(s, m, n) <==> DecimalPattern(s, m, n)
  {
    if DecimalPattern(s, m, n) {
      var k :| 0 <= k <= |s| && k <= m && AllDigits(s[..k]) &&
        (k == |s| || (s[k] == '.' && AllDigits(s[k + 1..]) && |s| - k - 1 <= n));
      OnlyDigitRun(s, k);
    }
  }

  /** A digit run followed by the end or a point is the leading digit run. */
  lemma {:induction false} OnlyDigitRun(s: string, k: nat)
    requires k <= |s| && AllDigits(s[..k]) && (k == |s| || s[k] == '.')
    ensures LeadingDigits(s) == k
  {
    if k > 0 {
      assert IsDigit(s[..k][0]);
      assert s[1..][..k - 1] == s[..k][1..];
      OnlyDigitRun(s[1..], k - 1);
    }
  }

  /** Kotlin's `toFloatOrNull` on text of digits with at most one point, as
      an exact value: the digits before the point, plus the digits after it
      as a fraction. A lone point and the empty text have no value. */
  function ParseDecimal(s: string): Option<Float> {
    var k := LeadingDigits(s);
    if k == |s| then
      if k == 0 then None else Some(DigitsValue(s) as real)
    else if s[k] != '.' || !AllDigits(s[k + 1..]) then None
    else if k == 0 && |s| == 1 then None
    else Some(DigitsValue(s[..k]) as real + DigitsValue(s[k + 1..]) as real / Pow10(|s| - k - 1) as real)
  }

  /** Text of the filter's shape has a value exactly when it holds a digit. */
  lemma ParseDecimalDefined(s: string, m: nat, n: nat)
    requires DecimalShape(s, m, n)
    ensures ParseDecimal(s).None? <==> s == [] || s == "."
  {
    var k := LeadingDigits(s);
    if k == 0 && k < |s| && |s| > 1 {
      assert s[k + 1..] != [];
    }
  }

  /** The value of text of the filter's shape lies below `10^m`. */
  lemma ParseDecimalBelow(s: string, m: nat, n: nat)
    requires DecimalShape(s, m, n) && ParseDecimal(s).Some?
    ensures 0.0 <= ParseDecimal(s).value < Pow10(m) as real
  {
    var k := LeadingDigits(s);
    PowMonotone(k, m);
    var whole := DigitsValue(s[..k]) as real;
    assert whole <= Pow10(m) as real - 1.0;
    if k < |s| {
      var t := s[k + 1..];
      var p := Pow10(|t|) as real;
      FractionBelowOne(DigitsValue(t) as real, p);
    }
  }

  lemma FractionBelowOne(a: real, p: real)
    requires 0.0 <= a < p
    ensures 0.0 <= a / p < 1.0
  {
  }

  /** On digits alone the decimal reading agrees with the integer one. */
  lemma ParseDecimalOfDigits(s: string)
    requires AllDigits(s) && 0 < |s| <= 9
    ensures ParseInt(s).Some? && ParseDecimal(s) == Some(ParseInt(s).value as real)
  {
    ParseShortDigits(s, 9);
    assert Pow10(9) == 1_000_000_000;
  }

  // ---------------------------------------------------------------------
  // Validation

  /** What `validateFields` reads from the fields before it judges them: the
      trimmed name, which texts are empty, and the parsed numbers. */
  datatype Readings = Readings(
    name: string,
    ageEmpty: bool, age: Option<int>,
    weightEmpty: bool, weight: Option<Float>,
    heightEmpty: bool, height: Option<Float>,
    sex: Option<BabySex>)

  function Read(f: BabyFields): Readings {
    Readings(Trim(f.name),
             f.ageText == [], ParseInt(f.ageText),
             f.weight == [], ParseDecimal(f.weight),
             f.height == [], ParseDecimal(f.height),
             f.sex)
  }

  /** The checks of `validateFields`, in the order it runs them. A range
      check only runs once the value has parsed. */
  function Checks(r: Readings): seq<Check> {
    [ Check(r.name != [], NameEmpty),
      Check(!r.ageEmpty && r.age.Some?, AgeEmpty),
      Check(r.age.Some? ==> 0 <= r.age.value <= MaxAgeMonths, AgeRange),
      Check(!r.weightEmpty && r.weight.Some?, WeightEmpty),
      Check(r.weight.Some? ==> 0.0 <= r.weight.value <= MaxWeight, WeightRange),
      Check(!r.heightEmpty && r.height.Some?, HeightEmpty),
      Check(r.height.Some? ==> 0.0 <= r.height.value <= MaxHeight, HeightRange),
      Check(r.sex.Some?, SexMissing) ]
  }

  /** The body of `validateFields` once the fields are read. */
  function Judge(r: Readings): Option<string> {
    if r.name == [] then Some(NameEmpty)
    else if r.ageEmpty || r.age.None? then Some(AgeEmpty)
    else if r.age.value < 0 || r.age.value > 36 then Some(AgeRange)
    else if r.weightEmpty || r.weight.None? then Some(WeightEmpty)
    else if r.weight.value < 0.0 || r.weight.value > 15.0 then Some(WeightRange)
    else if r.heightEmpty || r.height.None? then Some(HeightEmpty)
    else if r.height.value < 0.0 || r.height.value > 100.0 then Some(HeightRange)
    else if r.sex.None? then Some(SexMissing)
    else None
  }

  /** Judging reports exactly what running the checks in order and stopping
      at the first failure reports. */
  lemma JudgeIsFirstFailure(r: Readings)
    ensures Judge(r) == FirstFailure(Checks(r))
  {
    var c := Checks(r);
    assert FirstFailureFrom(c, 7) == if c[7].passes then None else Some(c[7].message);
    assert FirstFailureFrom(c, 6) == if c[6].passes then FirstFailureFrom(c, 7) else Some(c[6].message);
    assert FirstFailureFrom(c, 5) == if c[5].passes then FirstFailureFrom(c, 6) else Some(c[5].message);
    assert FirstFailureFrom(c, 4) == if c[4].passes then FirstFailureFrom(c, 5) else Some(c[4].message);
    assert FirstFailureFrom(c, 3) == if c[3].passes then FirstFailureFrom(c, 4) else Some(c[3].message);
    assert FirstFailureFrom(c, 2) == if c[2].passes then FirstFailureFrom(c, 3) else Some(c[2].message);
    assert FirstFailureFrom(c, 1) == if c[1].passes then FirstFailureFrom(c, 2) else Some(c[1].message);
    assert FirstFailureFrom(c, 0) == if c[0].passes then FirstFailureFrom(c, 1) else Some(c[0].message);
  }

  /** Judging passes exactly when every rule holds. */
  lemma JudgeAccepts(r: Readings)
    ensures Judge(r).None? <==>
      && r.name != [] && !r.ageEmpty && r.age.Some? && 0 <= r.age.value <= MaxAgeMonths
      && !r.weightEmpty && r.weight.Some? && 0.0 <= r.weight.value <= MaxWeight
      && !r.heightEmpty && r.height.Some? && 0.0 <= r.height.value <= MaxHeight
      && r.sex.Some?
  {
  }

  /** `validateFields`: the message of the first rule the fields break, or
      nothing when they keep all of them. */
  function Validate(f: BabyFields): (r: Option<string>)
    ensures r == FirstFailure(Checks(Read(f)))
    ensures r.None? <==>
      && Trim(f.name) != []
      && ParseInt(f.ageText).Some? && 0 <= ParseInt(f.ageText).value <= MaxAgeMonths
      && ParseDecimal(f.weight).Some? && 0.0 <= ParseDecimal(f.weight).value <= MaxWeight
      && ParseDecimal(f.height).Some? && 0.0 <= ParseDecimal(f.height).value <= MaxHeight
      && f.sex.Some?
  {
    JudgeIsFirstFailure(Read(f));
    JudgeAccepts(Read(f));
    Judge(Read(f))
  }

  // ---------------------------------------------------------------------
  // Editing

  /** An edit the user can make. The name takes any text; age, weight and
      height go through their filters; the sex comes from three buttons. */
  datatype Edit =
    | EditName(s: string)
    | EditAge(s: string)
    | PickSex(sex: BabySex)
    | EditWeight(s: string)
    | EditHeight(s: string)

  /** The age filter: empty, or at most two digits. Kotlin's `length`
      counts UTF-16 code units, which on digits is the number of characters
      (`Text.Utf16LengthOfDigits`). */
  predicate AgeAccepts(s: string) {
    s == [] || (AllDigits(s) && |s| <= 2)
  }

  /** The weight filter: `^\d{0,2}(\.\d{0,2})?$`. */
  predicate WeightAccepts(s: string) {
    s == [] || DecimalShape(s, 2, 2)
  }

  /** The height filter: `^\d{0,3}(\.\d{0,2})?$`. */
  predicate HeightAccepts(s: string) {
    s == [] || DecimalShape(s, 3, 2)
  }

  /** One edit. A filtered field takes the new text whole or not at all. */
  function Apply(f: BabyFields, e: Edit): (r: BabyFields)
    ensures e.EditAge? ==> r == (if AgeAccepts(e.s) then f.(ageText := e.s) else f)
    ensures e.EditWeight? ==> r == (if WeightAccepts(e.s) then f.(weight := e.s) else f)
    ensures e.EditHeight? ==> r == (if HeightAccepts(e.s) then f.(height := e.s) else f)
  {
    match e
    case EditName(s) => f.(name := s)
    case EditAge(s) => if s == [] || (AllDigits(s) && |s| <= 2) then f.(ageText := s) else f
    case PickSex(sex) => f.(sex := Some(sex))
    case EditWeight(s) => if s == [] || DecimalShape(s, 2, 2) then f.(weight := s) else f
    case EditHeight(s) => if s == [] || DecimalShape(s, 3, 2) then f.(height := s) else f
  }

  /** A sequence of edits, in order. */
  function ApplyAll(f: BabyFields, edits: seq<Edit>): BabyFields
    decreases |edits|
  {
    if |edits| == 0 then f else ApplyAll(Apply(f, edits[0]), edits[1..])
  }

  /** What the filters guarantee about the fields. */
  predicate Conforms(f: BabyFields) {
    AgeAccepts(f.ageText) && WeightAccepts(f.weight) && HeightAccepts(f.height)
  }

  /** Whatever the user types, starting from the blank form, the fields keep
      to what the filters allow. */
  lemma {:induction false} ReachableConforms(f: BabyFields, edits: seq<Edit>)
    requires Conforms(f)
    ensures Conforms(ApplyAll(f, edits))
    decreases |edits|
  {
    if |edits| > 0 {
      ReachableConforms(Apply(f, edits[0]), edits[1..]);
    }
  }

  /** What the filters leave for validation to catch. The age has a value
      exactly when the field is not empty, and it lies in 0..99, so the
      negative branch of the range check never fires while 37..99 reach it.
      Weight and height have a value unless the field is empty or a lone
      point, and lie below 100 and 1000. */
  lemma ConformingRanges(f: BabyFields)
    requires Conforms(f)
    ensures ParseInt(f.ageText).None? <==> f.ageText == []
    ensures ParseInt(f.ageText).Some? ==> 0 <= ParseInt(f.ageText).value < 100
    ensures ParseDecimal(f.weight).None? <==> f.weight == [] || f.weight == "."
    ensures ParseDecimal(f.weight).Some? ==> 0.0 <= ParseDecimal(f.weight).value < 100.0
    ensures ParseDecimal(f.height).None? <==> f.height == [] || f.height == "."
    ensures ParseDecimal(f.height).Some? ==> 0.0 <= ParseDecimal(f.height).value < 1000.0
  {
    if f.ageText != [] {
      ParseShortDigits(f.ageText, 2);
      assert Pow10(2) == 100;
    }
    assert LeadingDigits([]) == 0;
    if f.weight != [] {
      ParseDecimalDefined(f.weight, 2, 2);
      if ParseDecimal(f.weight).Some? { ParseDecimalBelow(f.weight, 2, 2); }
      assert Pow10(2) == 100;
    }
    if f.height != [] {
      ParseDecimalDefined(f.height, 3, 2);
      if ParseDecimal(f.height).Some? { ParseDecimalBelow(f.height, 3, 2); }
      assert Pow10(3) == 1000;
    }
  }

  /** The age filter lets "40" through, and validation then rejects it with
      the range message: the filter alone does not keep the age in range. */
  lemma AgeFilterAdmitsOutOfRange(f: BabyFields)
    requires Trim(f.name) != [] && f.ageText == "40"
    ensures AgeAccepts(f.ageText)
    ensures Validate(f) == Some(AgeRange)
  {
    ParseForty();
    var rd := Read(f);
    assert Validate(f) == Judge(rd);
    JudgeRejectsAge(rd);
  }

  lemma ParseForty()
    ensures ParseInt("40") == Some(40)
  {
    assert "40"[..1] == "4";
    assert DigitsValue("40") == 40;
  }

  lemma JudgeRejectsAge(rd: Readings)
    requires rd.name != [] && !rd.ageEmpty && rd.age.Some? && rd.age.value > MaxAgeMonths
    ensures Judge(rd) == Some(AgeRange)
  {
  }

  // ---------------------------------------------------------------------
  // Saving

  /** What `onSaveBaby` receives. */
  datatype SaveArgs = SaveArgs(name: string, ageMonths: int, sex: BabySex, weight: Float, height: Float)

  /** The save button: the trimmed name, the parsed numbers and the chosen
      sex when the form passes, nothing otherwise. */
  function Submit(f: BabyFields): (r: Option<SaveArgs>)
    ensures r.Some? <==> Validate(f).None?
    ensures r.Some? ==>
      && r.value.name == Trim(f.name) && r.value.name != []
      && Some(r.value.ageMonths) == ParseInt(f.ageText) && 0 <= r.value.ageMonths <= MaxAgeMonths
      && Some(r.value.weight) == ParseDecimal(f.weight) && 0.0 <= r.value.weight <= MaxWeight
      && Some(r.value.height) == ParseDecimal(f.height) && 0.0 <= r.value.height <= MaxHeight
      && Some(r.value.sex) == f.sex
  {
    if Validate(f).None? then
      Some(SaveArgs(Trim(f.name), ParseInt(f.ageText).value, f.sex.value,
                    ParseDecimal(f.weight).value, ParseDecimal(f.height).value))
    else None
  }

  /** From any form the user can reach, the save button sends a weight and
      a height with at most two decimals' worth of text behind them: the
      values the filters admit, within the validated ranges. */
  lemma SubmittedFromReachable(edits: seq<Edit>)
    requires Submit(ApplyAll(Blank, edits)).Some?
    ensures var f := ApplyAll(Blank, edits);
      && f.ageText != [] && |f.ageText| <= 2 && AllDigits(f.ageText)
      && WeightAccepts(f.weight) && f.weight != "."
      && HeightAccepts(f.height) && f.height != "."
  {
    assert Conforms(Blank);
    ReachableConforms(Blank, edits);
    ConformingRanges(ApplyAll(Blank, edits));
  }
}

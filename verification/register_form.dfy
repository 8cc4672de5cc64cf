/** `ui/compose/RegisterScreen.kt`: the registration form. Its phone and age
    fields accept only edits their filters allow, the relation is chosen
    from a fixed menu, and the register button runs `validateFields` before
    calling the view-model with the trimmed fields. */
module RegisterForm {
  import opened Wrappers
  import opened Text
  import opened Domain
  import opened FormRules
  import RegisterViewModel

  const NameInvalid: string := "Nombre incorrecto"
  const PhoneInvalid: string := "Teléfono incorrecto"
  const AgeInvalid: string := "Edad incorrecta"
  const RelationMissing: string := "Selecciona una relación (Padre/Madre/Otro)"

  const PhoneLength: nat := 10
  const MaxAgeDigits: nat := 3

  datatype RegisterFields = RegisterFields(
    name: string,
    email: string,
    phone: string,
    ageText: string,
    relation: string,
    password: string)

  /** Every field starts empty. */
  const Blank: RegisterFields := RegisterFields("", "", "", "", "", "")

  /** The relation menu's three entries. */
  datatype Relation = Padre | Madre | Otro

  function RelationName(r: Relation): (s: string)
    ensures s != [] && !IsWhitespace(s[0]) && !IsWhitespace(s[|s| - 1])
  {
    match r
    case Padre => "Padre"
    case Madre => "Madre"
    case Otro => "Otro"
  }

  /** What `validateFields` reads from the fields before it judges them:
      the trimmed texts, the parsed age and the password as typed. */
  datatype Readings = Readings(
    name: string, email: string, phone: string, age: Option<int>, relation: string, password: string)

  function Read(f: RegisterFields): Readings {
    Readings(Trim(f.name), Trim(f.email), Trim(f.phone), ParseInt(f.ageText), Trim(f.relation), f.password)
  }

  /** The checks of `validateFields`, in the order it runs them. */
  function Checks(r: Readings, pattern: string -> bool): seq<Check> {
    [ Check(r.name != [], NameInvalid),
      Check(IsValidEmail(r.email, pattern), EmailInvalid),
      Check(Utf16Length(r.phone) == PhoneLength, PhoneInvalid),
      Check(r.age.Some? && r.age.value > 0, AgeInvalid),
      Check(r.relation != [], RelationMissing),
      Check(Utf16Length(r.password) >= MinPasswordLength, PasswordShort) ]
  }

  /** The body of `validateFields` once the fields are read. */
  function Judge(r: Readings, pattern: string -> bool): Option<string> {
    if r.name == [] then Some(NameInvalid)
    else if !IsValidEmail(r.email, pattern) then Some(EmailInvalid)
    else if Utf16Length(r.phone) != 10 then Some(PhoneInvalid)
    else if r.age.None? || r.age.value <= 0 then Some(AgeInvalid)
    else if r.relation == [] then Some(RelationMissing)
    else if Utf16Length(r.password) <= 5 then Some(PasswordShort)
    else None
  }

  /** Judging reports exactly what running the checks in order and stopping
      at the first failure reports. */
  lemma JudgeIsFirstFailure(r: Readings, pattern: string -> bool)
    ensures Judge(r, pattern) == FirstFailure(Checks(r, pattern))
  {
    var c := Checks(r, pattern);
    assert FirstFailureFrom(c, 5) == if c[5].passes then None else Some(c[5].message);
    assert FirstFailureFrom(c, 4) == if c[4].passes then FirstFailureFrom(c, 5) else Some(c[4].message);
    assert FirstFailureFrom(c, 3) == if c[3].passes then FirstFailureFrom(c, 4) else Some(c[3].message);
    assert FirstFailureFrom(c, 2) == if c[2].passes then FirstFailureFrom(c, 3) else Some(c[2].message);
    assert FirstFailureFrom(c, 1) == if c[1].passes then FirstFailureFrom(c, 2) else Some(c[1].message);
    assert FirstFailureFrom(c, 0) == if c[0].passes then FirstFailureFrom(c, 1) else Some(c[0].message);
  }

  /** `validateFields`: the message of the first rule the fields break, or
      nothing when they keep all of them. Phone and password lengths are
      Kotlin's, in UTF-16 code units. */
  function ValidateFields(f: RegisterFields, pattern: string -> bool): (r: Option<string>)
    ensures r == FirstFailure(Checks(Read(f), pattern))
    ensures r.None? <==>
      && Trim(f.name) != [] && IsValidEmail(Trim(f.email), pattern) && Utf16Length(Trim(f.phone)) == PhoneLength
      && ParseInt(f.ageText).Some? && ParseInt(f.ageText).value > 0
      && Trim(f.relation) != [] && Utf16Length(f.password) >= MinPasswordLength
  {
    JudgeIsFirstFailure(Read(f), pattern);
    Judge(Read(f), pattern)
  }

  /** An edit the user can make. Name, email and password take any text;
      phone and age go through their filters; the relation comes from the
      menu. */
  datatype Edit =
    | EditName(s: string)
    | EditEmail(s: string)
    | EditPhone(s: string)
    | EditAge(s: string)
    | PickRelation(r: Relation)
    | EditPassword(s: string)

  /** The phone filter: at most ten characters, all digits. Kotlin's
      `length` counts UTF-16 code units, which on digits is the number of
      characters (`Text.Utf16LengthOfDigits`). */
  predicate PhoneAccepts(s: string) {
    |s| <= PhoneLength && AllDigits(s)
  }

  /** The age filter: all digits, at most three characters, counted as the
      phone filter counts them. */
  predicate AgeAccepts(s: string) {
    AllDigits(s) && |s| <= MaxAgeDigits
  }

  /** One edit. A filtered field takes the new text whole or not at all. */
  function Apply(f: RegisterFields, e: Edit): (r: RegisterFields)
    ensures e.EditPhone? ==> r == (if PhoneAccepts(e.s) then f.(phone := e.s) else f)
    ensures e.EditAge? ==> r == (if AgeAccepts(e.s) then f.(ageText := e.s) else f)
  {
    match e
    case EditName(s) => f.(name := s)
    case EditEmail(s) => f.(email := s)
    case EditPhone(s) => if |s| <= 10 && AllDigits(s) then f.(phone := s) else f
    case EditAge(s) => if AllDigits(s) && |s| <= 3 then f.(ageText := s) else f
    case PickRelation(r) => f.(relation := RelationName(r))
    case EditPassword(s) => f.(password := s)
  }

  /** A sequence of edits, in order. */
  function ApplyAll(f: RegisterFields, edits: seq<Edit>): RegisterFields
    decreases |edits|
  {
    if |edits| == 0 then f else ApplyAll(Apply(f, edits[0]), edits[1..])
  }

  /** What the filters and the menu guarantee about the fields. */
  predicate Conforms(f: RegisterFields) {
    && PhoneAccepts(f.phone)
    && AgeAccepts(f.ageText)
    && (f.relation == [] || exists r: Relation :: f.relation == RelationName(r))
  }

  /** Every edit keeps the form conforming. */
  lemma ApplyConforms(f: RegisterFields, e: Edit)
    requires Conforms(f)
    ensures Conforms(Apply(f, e))
  {
    if e.PickRelation? {
      assert Apply(f, e).relation == RelationName(e.r);
    }
  }

  /** Whatever the user types, starting from the blank form, the fields keep
      to what the filters and the menu allow. */
  lemma {:induction false} ReachableConforms(f: RegisterFields, edits: seq<Edit>)
    requires Conforms(f)
    ensures Conforms(ApplyAll(f, edits))
    decreases |edits|
  {
    if |edits| > 0 {
      ApplyConforms(f, edits[0]);
      ReachableConforms(Apply(f, edits[0]), edits[1..]);
    }
  }

  /** On a conforming form the phone check is an exact length, the age check
      needs a non-empty field worth at least one, and the relation check
      needs a menu choice: trimming digits or a menu entry changes nothing. */
  lemma ConformingValidation(f: RegisterFields, pattern: string -> bool)
    requires Conforms(f)
    ensures ValidateFields(f, pattern).None? <==>
      && Trim(f.name) != [] && IsValidEmail(Trim(f.email), pattern)
      && |f.phone| == PhoneLength
      && f.ageText != [] && DigitsValue(f.ageText) >= 1
      && f.relation != []
      && Utf16Length(f.password) >= MinPasswordLength
  {
    TrimDigits(f.phone);
    Utf16LengthOfDigits(f.phone);
    assert Utf16Length(Trim(f.phone)) == PhoneLength <==> |f.phone| == PhoneLength;
    if f.relation != [] {
      var r: Relation :| f.relation == RelationName(r);
      TrimUnchanged(f.relation);
    }
    assert Trim(f.relation) != [] <==> f.relation != [];
    if f.ageText != [] {
      ParseShortDigits(f.ageText, MaxAgeDigits);
      assert ParseInt(f.ageText) == Some(DigitsValue(f.ageText));
    }
    assert (ParseInt(f.ageText).Some? && ParseInt(f.ageText).value > 0) <==>
      (f.ageText != [] && DigitsValue(f.ageText) >= 1);
  }

  /** What `viewModel.register` receives. */
  datatype RegisterArgs = RegisterArgs(
    name: string,
    email: string,
    password: string,
    phone: string,
    relation: string,
    age: int)

  /** The register button: the trimmed fields, the password as typed and the
      parsed age when the form passes, nothing otherwise. */
  function Submit(f: RegisterFields, pattern: string -> bool): (r: Option<RegisterArgs>)
    ensures r.Some? <==> ValidateFields(f, pattern).None?
    ensures r.Some? ==>
      && r.value.name == Trim(f.name) && r.value.email == Trim(f.email)
      && r.value.phone == Trim(f.phone) && r.value.relation == Trim(f.relation)
      && r.value.password == f.password
      && Some(r.value.age) == ParseInt(f.ageText)
  {
    if ValidateFields(f, pattern).None? then
      Some(RegisterArgs(Trim(f.name), Trim(f.email), f.password, Trim(f.phone), Trim(f.relation),
                        ParseInt(f.ageText).value))
    else None
  }

  /** What the button sends from a conforming form: a ten-digit phone, an
      age from 1 to 999 and a relation from the menu. */
  lemma ConformingSubmit(f: RegisterFields, pattern: string -> bool)
    requires Conforms(f) && Submit(f, pattern).Some?
    ensures var a := Submit(f, pattern).value;
      && |a.phone| == PhoneLength && AllDigits(a.phone)
      && 1 <= a.age < 1000
      && (exists r: Relation :: a.relation == RelationName(r))
      && Utf16Length(a.password) >= MinPasswordLength
  {
    SubmittedPhone(f, pattern);
    SubmittedAge(f, pattern);
    SubmittedRelation(f, pattern);
  }

  lemma SubmittedPhone(f: RegisterFields, pattern: string -> bool)
    requires Conforms(f) && Submit(f, pattern).Some?
    ensures |Submit(f, pattern).value.phone| == PhoneLength && AllDigits(Submit(f, pattern).value.phone)
  {
    TrimDigits(f.phone);
    Utf16LengthOfDigits(f.phone);
  }

  lemma SubmittedAge(f: RegisterFields, pattern: string -> bool)
    requires Conforms(f) && Submit(f, pattern).Some?
    ensures 1 <= Submit(f, pattern).value.age < 1000
  {
    AgeBelowThousand(f.ageText);
  }

  /** A filtered age that parses is below a thousand. */
  lemma AgeBelowThousand(s: string)
    requires AgeAccepts(s) && ParseInt(s).Some?
    ensures ParseInt(s).value < 1000
  {
    ParseShortDigits(s, MaxAgeDigits);
    assert Pow10(3) == 1000;
  }

  lemma SubmittedRelation(f: RegisterFields, pattern: string -> bool)
    requires Conforms(f) && Submit(f, pattern).Some?
    ensures exists r: Relation :: Submit(f, pattern).value.relation == RelationName(r)
  {
    MenuChoiceTrimmed(f.relation);
  }

  /** A relation chosen from the menu is its own trim. */
  lemma MenuChoiceTrimmed(s: string)
    requires s == [] || exists r: Relation :: s == RelationName(r)
    ensures Trim(s) == s
  {
    if s != [] {
      var r: Relation :| s == RelationName(r);
      TrimUnchanged(s);
    }
  }

  /** The view-model trims name and email again; on what the button sends
      that changes nothing. */
  lemma RequestKeepsArgs(f: RegisterFields, pattern: string -> bool)
    requires Submit(f, pattern).Some?
    ensures var a := Submit(f, pattern).value;
      RegisterViewModel.Request(a.name, a.email, a.password, Some(a.phone), Some(a.relation), Some(a.age))
        == RegisterData(a.name, a.email, a.password, Some(a.phone), Some(a.relation), Some(a.age))
  {
    TrimIdempotent(f.name);
    TrimIdempotent(f.email);
  }

  /** From any form the user can reach, what the button sends keeps to the
      filters and the rules. */
  lemma SubmittedArgs(edits: seq<Edit>, pattern: string -> bool)
    requires Submit(ApplyAll(Blank, edits), pattern).Some?
    ensures var a := Submit(ApplyAll(Blank, edits), pattern).value;
      && |a.phone| == PhoneLength && AllDigits(a.phone)
      && 1 <= a.age < 1000
      && (exists r: Relation :: a.relation == RelationName(r))
      && Utf16Length(a.password) >= MinPasswordLength
  {
    assert Conforms(Blank);
    ReachableConforms(Blank, edits);
    ConformingSubmit(ApplyAll(Blank, edits), pattern);
  }
}

/** The checks the sign-in and registration screens share: both define the
    same local `isValidEmail` and the same password-length rule with the
    same messages. */
module FormRules {
  import opened Wrappers

  const EmailInvalid: string := "Correo incorrecto"
  const PasswordShort: string := "Contraseña incorrecta, debe tener más de 5 caracteres"

  /** A password is long enough when it has more than five characters. */
  const MinPasswordLength: nat := 6

  /** `isValidEmail`: non-empty and accepted by the platform's email pattern,
      which is a parameter here. */
  predicate IsValidEmail(email: string, pattern: string -> bool) {
    email != [] && pattern(email)
  }

  /** One check of a form: whether the fields pass it, and the message shown
      when they do not. */
  datatype Check = Check(passes: bool, message: string)

  /** The screens' validators run their checks in order and return the
      message of the first that fails, or `None` when all pass. */
  function FirstFailure(checks: seq<Check>): Option<string> {
    FirstFailureFrom(checks, 0)
  }

  /** The first failure among the checks from index `i` on. */
  function FirstFailureFrom(checks: seq<Check>, i: nat): Option<string>
    requires i <= |checks|
    decreases |checks| - i
  {
    if i == |checks| then None
    else if !checks[i].passes then Some(checks[i].message)
    else FirstFailureFrom(checks, i + 1)
  }

  /** What the first failure from `i` on is: nothing exactly when every
      check from `i` on passes, and otherwise the message of a failing check
      all of whose predecessors from `i` on pass. */
  lemma {:induction false} FirstFailureFromFinds(checks: seq<Check>, i: nat)
    requires i <= |checks|
    ensures FirstFailureFrom(checks, i).None? <==> forall j :: i <= j < |checks| ==> checks[j].passes
    ensures FirstFailureFrom(checks, i).Some? ==>
      exists j :: i <= j < |checks| && !checks[j].passes && FirstFailureFrom(checks, i).value == checks[j].message &&
        forall k :: i <= k < j ==> checks[k].passes
    decreases |checks| - i
  {
    if i < |checks| && checks[i].passes {
      FirstFailureFromFinds(checks, i + 1);
      if FirstFailureFrom(checks, i + 1).Some? {
        var j :| i + 1 <= j < |checks| && !checks[j].passes &&
          FirstFailureFrom(checks, i + 1).value == checks[j].message &&
          forall k :: i + 1 <= k < j ==> checks[k].passes;
        assert forall k :: i <= k < j ==> checks[k].passes;
      }
    }
  }

  /** What the first failure is: nothing exactly when every check passes,
      and otherwise the message of a failing check all of whose
      predecessors pass. */
  lemma FirstFailureFinds(checks: seq<Check>)
    ensures FirstFailure(checks).None? <==> forall i :: 0 <= i < |checks| ==> checks[i].passes
    ensures FirstFailure(checks).Some? ==>
      exists i :: 0 <= i < |checks| && !checks[i].passes && FirstFailure(checks).value == checks[i].message &&
        forall j :: 0 <= j < i ==> checks[j].passes
  {
    FirstFailureFromFinds(checks, 0);
  }
}

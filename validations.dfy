/** The form schemas of lib/validations.ts as the lists of issues they report.
    A schema accepts a value exactly when it reports no issue. The email
    format check is Zod's own; it is a parameter `isEmail` here. */
module Validations {
  import opened Types

  /** One validation issue: the field it is reported on and its message. */
  datatype Issue = Issue(path: string, message: string)

  /** One field check: no issue when it passes, its issue otherwise. */
  function Check(ok: bool, path: string, message: string): (issues: seq<Issue>)
    ensures issues == [] <==> ok
    ensures forall i :: 0 <= i < |issues| ==> issues[i] == Issue(path, message)
  {
    if ok then [] else [Issue(path, message)]
  }

  /** `z.string().min(n)`. */
  predicate MinLength(s: string, n: nat) {
    |s| >= n
  }

  /** Passing a minimum length is kept by any extension of the value. */
  lemma MinLengthMonotone(s: string, t: string, n: nat)
    requires MinLength(s, n)
    ensures MinLength(s + t, n)
  {
  }

  /** The four field checks that the register and profile schemas share. */
  function PersonIssues(firstName: string, secondName: string, idNumber: string, country: string): (issues: seq<Issue>)
    ensures issues == [] <==>
              MinLength(firstName, 2) && MinLength(secondName, 2) && MinLength(idNumber, 5) && MinLength(country, 2)
  {
    Check(MinLength(firstName, 2), "firstName", "First name must be at least 2 characters")
    + Check(MinLength(secondName, 2), "secondName", "Second name must be at least 2 characters")
    + Check(MinLength(idNumber, 5), "idNumber", "ID number must be at least 5 characters")
    + Check(MinLength(country, 2), "country", "Please select a country")
  }

  /** `registerSchema`: the field checks in declaration order, then the
      refinement that the two passwords match. */
  function RegisterIssues(f: RegisterForm, isEmail: string -> bool): (issues: seq<Issue>)
    ensures issues == [] <==>
              && MinLength(f.firstName, 2) && MinLength(f.secondName, 2)
              && isEmail(f.email)
              && MinLength(f.password, 8)
              && MinLength(f.idNumber, 5) && MinLength(f.country, 2)
              && f.password == f.confirmPassword
  {
    Check(MinLength(f.firstName, 2), "firstName", "First name must be at least 2 characters")
    + Check(MinLength(f.secondName, 2), "secondName", "Second name must be at least 2 characters")
    + Check(isEmail(f.email), "email", "Invalid email address")
    + Check(MinLength(f.password, 8), "password", "Password must be at least 8 characters")
    + Check(MinLength(f.idNumber, 5), "idNumber", "ID number must be at least 5 characters")
    + Check(MinLength(f.country, 2), "country", "Please select a country")
    + Check(f.password == f.confirmPassword, "confirmPassword", "Passwords don't match")
  }

  predicate RegisterValid(f: RegisterForm, isEmail: string -> bool) {
    RegisterIssues(f, isEmail) == []
  }

  /** A mismatch is reported on `confirmPassword`, with its message, as the
      last issue; and it is the only thing reported on that path. */
  lemma PasswordMismatchReported(f: RegisterForm, isEmail: string -> bool)
    ensures var issues := RegisterIssues(f, isEmail);
            && (f.password != f.confirmPassword <==>
                  |issues| > 0 && issues[|issues| - 1] == Issue("confirmPassword", "Passwords don't match"))
            && (forall i :: 0 <= i < |issues| && issues[i].path == "confirmPassword" ==>
                  issues[i].message == "Passwords don't match")
  {
  }

  /** `loginSchema`. */
  function LoginIssues(f: LoginForm, isEmail: string -> bool): (issues: seq<Issue>)
    ensures issues == [] <==> isEmail(f.email) && f.password != ""
  {
    Check(isEmail(f.email), "email", "Invalid email address")
    + Check(MinLength(f.password, 1), "password", "Password is required")
  }

  /** `purposeSchema`: at least one purpose, any strings. */
  function PurposeIssues(purposes: seq<string>): (issues: seq<Issue>)
    ensures issues == [] <==> |purposes| >= 1
  {
    Check(|purposes| >= 1, "purposes", "Please select at least one purpose")
  }

  /** `profileSchema`. */
  function ProfileIssues(f: ProfileForm): (issues: seq<Issue>)
    ensures issues == [] <==>
              MinLength(f.firstName, 2) && MinLength(f.secondName, 2) && MinLength(f.idNumber, 5) && MinLength(f.country, 2)
  {
    PersonIssues(f.firstName, f.secondName, f.idNumber, f.country)
  }

  /** The profile schema is the register schema's person checks and nothing
      else: for a form whose email and passwords pass, the two schemas agree,
      and a registered form's fields always make a valid profile. */
  lemma ProfileMatchesRegister(f: RegisterForm, isEmail: string -> bool)
    ensures var p := ProfileForm(f.firstName, f.secondName, f.idNumber, f.country);
            && (isEmail(f.email) && MinLength(f.password, 8) && f.password == f.confirmPassword ==>
                  (ProfileIssues(p) == [] <==> RegisterValid(f, isEmail)))
            && (RegisterValid(f, isEmail) ==> ProfileIssues(p) == [])
  {
  }
}

/** The record shapes of types/index.ts that the modelled code reads or builds. */
module Types {
  import opened Wrappers

  /** A user document as stored under users/<uid>. Optional fields are
      `Option`s: the TypeScript `?` fields may be absent from the document. */
  datatype User = User(
    uid: string,
    email: string,
    firstName: string,
    secondName: string,
    idNumber: string,
    country: string,
    currency: string,
    createdAt: string,
    paymentMade: bool,
    purposes: Option<seq<string>>,
    reportUrl: Option<string>,
    crbReportId: Option<string>,
    reportGeneratedAt: Option<string>)

  /** The registration form (RegisterFormData). */
  datatype RegisterForm = RegisterForm(
    firstName: string,
    secondName: string,
    email: string,
    password: string,
    confirmPassword: string,
    idNumber: string,
    country: string)

  /** The login form (LoginFormData). */
  datatype LoginForm = LoginForm(email: string, password: string)

  /** The profile form of the profile page: the register fields a user may edit. */
  datatype ProfileForm = ProfileForm(
    firstName: string,
    secondName: string,
    idNumber: string,
    country: string)

  /** The personal details printed on a report. */
  datatype PersonalInfo = PersonalInfo(fullName: string, idNumber: string, address: string)

  /** A generated credit bureau report (CRBReport). */
  datatype CrbReport = CrbReport(
    reportId: string,
    userId: string,
    generatedAt: string,
    expiresAt: string,
    country: string,
    currency: string,
    score: int,
    scoreCategory: string,
    scoreColor: string,
    creditBureau: string,
    banks: seq<string>,
    personalInfo: PersonalInfo,
    summary: string,
    advice: seq<string>,
    disclaimer: string,
    paymentReference: string)
}

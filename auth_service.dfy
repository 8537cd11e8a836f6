/** The user record of services/auth.service.ts. The users collection is a
    map from document key to user; the authentication calls themselves are
    not modelled. */
module AuthService {
  import opened Wrappers
  import opened Types
  import Currency
  import LimitedOfferBanner
  import ProtectedRoute

  /** The record `registerUser` stores for a new account with id `uid`,
      created at `createdAt`. */
  function NewUserRecord(uid: string, form: RegisterForm, createdAt: string): (u: User)
    ensures u.uid == uid && u.createdAt == createdAt
    ensures u.email == form.email && u.firstName == form.firstName && u.secondName == form.secondName
    ensures u.idNumber == form.idNumber && u.country == form.country
    ensures u.currency == Currency.GetCurrencyFromCountry(form.country)
    ensures !u.paymentMade
    ensures u.purposes.None? && u.reportUrl.None? && u.crbReportId.None? && u.reportGeneratedAt.None?
  {
    User(
      uid,
      form.email,
      form.firstName,
      form.secondName,
      form.idNumber,
      form.country,
      Currency.GetCurrencyFromCountry(form.country),
      createdAt,
      false,
      None, None, None, None)
  }

  /** `setDoc(doc(db, 'users', uid), userData)`. */
  function Register(users: map<string, User>, uid: string, form: RegisterForm, createdAt: string): (users': map<string, User>)
    ensures users'.Keys == users.Keys + {uid}
    ensures users'[uid] == NewUserRecord(uid, form, createdAt)
    ensures forall k :: k in users && k != uid ==> users'[k] == users[k]
  {
    users[uid := NewUserRecord(uid, form, createdAt)]
  }

  /** `getUserData`: the document's data, or null when it does not exist. */
  function GetUserData(users: map<string, User>, uid: string): (u: Option<User>)
    ensures u.None? <==> uid !in users
    ensures u.Some? ==> u.value == users[uid]
  {
    if uid in users then Some(users[uid]) else None
  }

  /** The value `subscribeToAuthChanges` hands its callback for the signed-in
      account id (`None` when signed out). */
  function AuthChangeValue(users: map<string, User>, signedIn: Option<string>): (u: Option<User>)
    ensures signedIn.None? ==> u.None?
    ensures signedIn.Some? ==> u == GetUserData(users, signedIn.value)
  {
    match signedIn
    case None => None
    case Some(uid) => GetUserData(users, uid)
  }

  /** A freshly registered account reads back as its record, whose key is
      its own uid; the password never reaches the record (User has no such
      field). */
  lemma RegisteredUserReadsBack(users: map<string, User>, uid: string, form: RegisterForm, createdAt: string)
    ensures var u := GetUserData(Register(users, uid, form, createdAt), uid);
            u.Some? && u.value.uid == uid && u.value == NewUserRecord(uid, form, createdAt)
  {
  }

  /** A new user is sent to the purpose step by the banner and is shown the
      protected pages once loaded. */
  lemma NewUserFlow(uid: string, form: RegisterForm, createdAt: string)
    ensures var u := NewUserRecord(uid, form, createdAt);
            && LimitedOfferBanner.CtaRoute(Some(u), false) == "/purpose"
            && ProtectedRoute.Rendered(Some(u), false) == ProtectedRoute.Children
  {
  }
}

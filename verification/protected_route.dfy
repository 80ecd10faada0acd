/**
 The `ProtectedRoute` guard: while the session is loading it shows a
 spinner; afterwards it shows its children only to a signed-in user whose
 role is the one the route requires, and otherwise navigates away or shows
 nothing.

 The guard compares role names, so it is written here over a vocabulary of
 the two role names it expects. The guard as written expects "patient",
 while the session stores the roles "paciente" and "doctor".
 */
module ProtectedRoute {
  import opened Common

  datatype User = User(role: string)

  /** What `useAuth` reports. */
  datatype AuthState = AuthState(user: Option<User>, isLoading: bool)

  /** The two values `requiredRole` may take. */
  datatype RequiredRole = PatientRole | DoctorRole

  /** The names the guard uses for the patient and the doctor role. */
  datatype Vocabulary = Vocabulary(patient: string, doctor: string)

  /** The guard as written: English role names. */
  const AsWritten: Vocabulary := Vocabulary("patient", "doctor")

  /** The role names the session actually stores. */
  const SessionRoles: Vocabulary := Vocabulary("paciente", "doctor")

  const LoginPath: string := "/login"
  const PatientHome: string := "/patient/dashboard"
  const DoctorHome: string := "/doctor/dashboard"

  function RoleName(v: Vocabulary, r: RequiredRole): string
  {
    match r
    case PatientRole => v.patient
    case DoctorRole => v.doctor
  }

  /** A route role is set and the signed-in user does not have it. */
  predicate WrongRole(v: Vocabulary, a: AuthState, required: Option<RequiredRole>)
  {
    a.user.Some? && required.Some? && a.user.value.role != RoleName(v, required.value)
  }

  /** The navigation the effect performs, if any. */
  function Navigation(v: Vocabulary, a: AuthState, required: Option<RequiredRole>): (target: Option<string>)
    ensures a.isLoading ==> target.None?
    ensures !a.isLoading && a.user.None? ==> target == Some(LoginPath)
    ensures !a.isLoading && WrongRole(v, a, required) ==>
      target == (if a.user.value.role == v.patient then Some(PatientHome)
                 else if a.user.value.role == v.doctor then Some(DoctorHome)
                 else None)
    ensures a.user.Some? && !WrongRole(v, a, required) ==> target.None?
  {
    if a.isLoading then None
    else match a.user
      case None => Some(LoginPath)
      case Some(u) =>
        if WrongRole(v, a, required) then
          if u.role == v.patient then Some(PatientHome)
          else if u.role == v.doctor then Some(DoctorHome)
          else None
        else None
  }

  /** What the guard renders. */
  datatype Screen = Spinner | Blank | Children

  function Render(v: Vocabulary, a: AuthState, required: Option<RequiredRole>): (s: Screen)
    ensures s == Spinner <==> a.isLoading
    ensures s == Children <==>
      !a.isLoading && a.user.Some? && (required.None? || a.user.value.role == RoleName(v, required.value))
  {
    if a.isLoading then Spinner
    else if a.user.None? || WrongRole(v, a, required) then Blank
    else Children
  }

  /** A signed-in user who sees nothing and is sent nowhere. */
  predicate Stranded(v: Vocabulary, a: AuthState, required: Option<RequiredRole>)
  {
    !a.isLoading && a.user.Some? && Render(v, a, required) == Blank && Navigation(v, a, required).None?
  }

  /**
   Whenever the guard has finished loading, the visitor either sees the
   route, is sent to the login page, or the user's role is outside the
   guard's vocabulary.
   */
  lemma NeverStrandedWithinVocabulary(v: Vocabulary, a: AuthState, required: Option<RequiredRole>)
    requires a.user.Some? ==> a.user.value.role in {v.patient, v.doctor}
    ensures !Stranded(v, a, required)
    ensures !a.isLoading ==> Render(v, a, required) == Children || Navigation(v, a, required).Some?
  {
  }

  /**
   The guard as written strands every patient the session signs in: their
   role is "paciente", which is never the required "patient", and is not
   one of the names the guard redirects either.
   */
  lemma AsWrittenStrandsPatients(a: AuthState)
    requires !a.isLoading && a.user == Some(User("paciente"))
    ensures Stranded(AsWritten, a, Some(PatientRole))
    ensures Stranded(AsWritten, a, Some(DoctorRole))
  {
    assert "paciente" != "patient" by { assert |"paciente"| == 8 && |"patient"| == 7; }
  }

  /**
   With the session's role names, every signed-in patient or doctor either
   sees the route or is redirected to their own dashboard.
   */
  lemma SessionRolesNeverStranded(a: AuthState, required: Option<RequiredRole>)
    requires a.user.Some? ==> a.user.value.role in {"paciente", "doctor"}
    ensures !Stranded(SessionRoles, a, required)
    ensures !a.isLoading && a.user.Some? && required.Some? ==>
      (Render(SessionRoles, a, required) == Children <==> a.user.value.role == RoleName(SessionRoles, required.value))
  {
    NeverStrandedWithinVocabulary(SessionRoles, a, required);
  }
}

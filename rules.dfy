/** The decision rules inside the handlers and screens of src/App.jsx: how a
    sign-in response becomes the session user, which archive request a vacancy
    card sends, the contact handle of a generated message, the record a status
    change produces, and which branch the application-detail screen shows. */
module Rules {
  import opened Js

  datatype Role = Recruiter | Candidate
  datatype AuthMode = Login | Signup

  /** The session user `{ id, email, role }` of src/App.jsx:89-93. */
  datatype User = User(id: JsValue, email: JsValue, role: Role)

  /** The sign-in endpoint (line 86). */
  function AuthEndpoint(mode: AuthMode, role: Role): (path: string)
    ensures mode.Login? <==> path == "/auth/login"
    ensures mode.Signup? && role.Recruiter? <==> path == "/auth/recruiter/signup"
    ensures mode.Signup? && role.Candidate? <==> path == "/auth/candidate/signup"
  {
    assert "/auth/recruiter/signup"[6] != "/auth/candidate/signup"[6];
    if mode.Login? then "/auth/login"
    else if role.Recruiter? then "/auth/recruiter/signup" else "/auth/candidate/signup"
  }

  /** `res.recruiter_id || res.candidate_id || res.id`: the first truthy of the
      three identifying fields, else whatever `id` holds. */
  function IdentityOf(res: JsValue): (id: JsValue)
    requires !res.Nullish()
    ensures Truthy(OptionalMember(res, "recruiter_id")) ==> id == OptionalMember(res, "recruiter_id")
    ensures (!Truthy(OptionalMember(res, "recruiter_id")) && Truthy(OptionalMember(res, "candidate_id"))) ==>
      id == OptionalMember(res, "candidate_id")
    ensures (!Truthy(OptionalMember(res, "recruiter_id")) && !Truthy(OptionalMember(res, "candidate_id"))) ==>
      id == OptionalMember(res, "id")
  {
    Or(Or(Member(res, "recruiter_id").value, Member(res, "candidate_id").value), Member(res, "id").value)
  }

  /** The user built from a successful sign-in response (lines 89-93), or the
      TypeError thrown when the response body is `null`. On login the role is
      recruiter exactly when the response carries a truthy `recruiter_id`; on
      sign-up it is the role selected on the form. */
  function UserFrom(res: JsValue, formData: Record, mode: AuthMode, authRole: Role): (r: Result<User>)
    ensures r.Err? <==> res.Nullish()
    ensures r.Err? ==> r.message == ReadError(res, "recruiter_id")
    ensures r.Ok? ==> r.value.id == IdentityOf(res) && r.value.email == Field(formData, "email")
    ensures r.Ok? && mode == Login ==> (r.value.role == Recruiter <==> Truthy(OptionalMember(res, "recruiter_id")))
    ensures r.Ok? && mode == Signup ==> r.value.role == authRole
  {
    match Member(res, "recruiter_id")
    case Err(m) => Err(m)
    case Ok(rid) =>
      Ok(User(IdentityOf(res), Field(formData, "email"),
              if mode == Login then (if Truthy(rid) then Recruiter else Candidate) else authRole))
  }

  /** What `handleAuth` ends up with: the error message to show, or the user. */
  function AuthResult(outcome: Result<JsValue>, formData: Record, mode: AuthMode, authRole: Role): (r: Result<User>)
    ensures outcome.Err? ==> r == Err(outcome.message)
    ensures outcome.Ok? ==> r == UserFrom(outcome.value, formData, mode, authRole)
  {
    match outcome
    case Err(m) => Err(m)
    case Ok(res) => UserFrom(res, formData, mode, authRole)
  }

  /** Signing up as a candidate never yields a recruiter session, whatever the backend answers. */
  lemma CandidateSignupStaysCandidate(outcome: Result<JsValue>, formData: Record)
    ensures var r := AuthResult(outcome, formData, Signup, Candidate); r.Ok? ==> r.value.role == Candidate
  {
  }

  /** A login response carrying only `candidate_id` gives a candidate with that id. */
  lemma CandidateLogin(cid: string, formData: Record)
    requires cid != ""
    ensures AuthResult(Ok(Obj(map["candidate_id" := Str(cid)])), formData, Login, Recruiter)
      == Ok(User(Str(cid), Field(formData, "email"), Candidate))
  {
  }

  /** `job.is_archived ? 'dearchive' : 'archive'` (line 126). */
  function ArchiveAction(job: Record): (action: string)
    ensures action == "dearchive" <==> Truthy(Field(job, "is_archived"))
    ensures action == "archive" <==> !Truthy(Field(job, "is_archived"))
  {
    if Truthy(Field(job, "is_archived")) then "dearchive" else "archive"
  }

  /** The handle placed in a generated message (line 191):
      `aiData?.telegram_username || "username"`. */
  function ContactHandle(aiData: JsValue): (handle: JsValue)
    ensures Truthy(handle)
    ensures Truthy(OptionalMember(aiData, "telegram_username")) ==> handle == OptionalMember(aiData, "telegram_username")
    ensures !Truthy(OptionalMember(aiData, "telegram_username")) ==> handle == Str("username")
  {
    Or(OptionalMember(aiData, "telegram_username"), Str("username"))
  }

  /** The four values of the status selector (lines 512-515). */
  const StatusOptions: seq<string> := ["New", "Interview", "Offer", "Rejected"]

  /** `{ ...app, status }` (line 157): the same application with its status replaced. */
  function WithStatus(app: Record, status: string): (r: Record)
    ensures r.Keys == app.Keys + {"status"}
    ensures r["status"] == Str(status)
    ensures forall k :: k in app && k != "status" ==> r[k] == app[k]
  {
    app["status" := Str(status)]
  }

  /** Setting a status twice is setting it once, and the last status set wins. */
  lemma WithStatusOverwrites(app: Record, s1: string, s2: string)
    ensures WithStatus(WithStatus(app, s1), s2) == WithStatus(app, s2)
    ensures WithStatus(WithStatus(app, s2), s2) == WithStatus(app, s2)
  {
    assert WithStatus(WithStatus(app, s1), s2).Keys == WithStatus(app, s2).Keys;
  }

  /** The three branches of the verdict panel on the candidate's application screen. */
  datatype VerdictPanel =
    | Spinner
    | Verdict(verdict: JsValue, skills: JsValue)
    | NotReady

  /** Lines 704-737: a spinner while loading, the verdict when `aiData` and its
      `ai_verdict` are both truthy, and the "not ready or error" notice otherwise. */
  function PanelFor(loading: bool, aiData: JsValue): (p: VerdictPanel)
    ensures loading <==> p == Spinner
    ensures p.Verdict? <==> !loading && Truthy(aiData) && Truthy(OptionalMember(aiData, "ai_verdict"))
    ensures p.Verdict? ==>
      p.verdict == OptionalMember(aiData, "ai_verdict") && p.skills == OptionalMember(aiData, "skills_detected")
  {
    if loading then Spinner
    else if Truthy(aiData) && Truthy(Member(aiData, "ai_verdict").value) then
      Verdict(Member(aiData, "ai_verdict").value, Member(aiData, "skills_detected").value)
    else NotReady
  }

  /** A failed request (`aiData` null), a verdict not yet computed (no
      `ai_verdict` field) and an empty verdict all show the same notice. */
  lemma PendingEmptyAndFailedLookAlike(rest: Record)
    requires "ai_verdict" !in rest
    ensures PanelFor(false, Null) == NotReady
    ensures PanelFor(false, Obj(rest)) == NotReady
    ensures PanelFor(false, Obj(rest["ai_verdict" := Str("")])) == NotReady
    ensures PanelFor(false, Obj(rest["ai_verdict" := Null])) == NotReady
  {
  }
}

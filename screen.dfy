/** The screen controller `App` of src/App.jsx (lines 63-273): one field per
    piece of component state, and one method per handler. A handler runs as one
    atomic step: the backend's answer to each request it issues is a parameter,
    and the method returns the requests it sent, in order. `loading` is switched
    on and back off inside every handler, so between steps it is always false. */
module Screen {
  import opened Js
  import opened Api
  import opened Rules

  /** The values of `view` that some handler or link can reach. */
  datatype View =
    | Auth
    | Dashboard
    | CreateJob
    | JobDetail
    | CandidateProfile
    | Templates
    | CreateTemplate
    | ActiveVacancies
    | Upload
    | MyApps
    | CandidateAppDetail

  /** The screens only a recruiter can reach. */
  predicate RecruiterView(v: View) {
    v.Dashboard? || v.CreateJob? || v.JobDetail? || v.CandidateProfile? || v.Templates? || v.CreateTemplate?
  }

  /** The screens only a candidate can reach. */
  predicate CandidateView(v: View) {
    v.ActiveVacancies? || v.Upload? || v.MyApps? || v.CandidateAppDetail?
  }

  /** The plain navigation buttons that only call `setView` (lines 420, 446,
      465, 506, 567, 586 and 672): where each screen's button leads. */
  function Link(from: View): (to: Option<View>)
    ensures to.Some? ==> (RecruiterView(from) <==> RecruiterView(to.value))
    ensures to.Some? ==> (CandidateView(from) <==> CandidateView(to.value))
  {
    match from
    case Dashboard => Some(CreateJob)
    case CreateJob => Some(Dashboard)
    case JobDetail => Some(Dashboard)
    case CandidateProfile => Some(JobDetail)
    case Templates => Some(CreateTemplate)
    case CreateTemplate => Some(Templates)
    case CandidateAppDetail => Some(MyApps)
    case _ => None
  }

  /** The form inputs shown on each screen (lines 295-302, 451, 455, 591 and
      595): the keys of `formData` that typing can set there. */
  predicate FieldOnScreen(view: View, mode: AuthMode, role: Role, key: string) {
    match view
    case Auth =>
      key == "email" || key == "password"
      || (mode.Signup? && role.Recruiter? && key == "company_name")
      || (mode.Signup? && role.Candidate? && key == "telegram_username")
    case CreateJob => key == "title" || key == "ai_filters"
    case CreateTemplate => key == "title" || key == "body_text"
    case _ => false
  }

  /** The whole component state at one moment. */
  datatype Snapshot = Snapshot(
    user: Option<User>,
    loading: bool,
    error: Option<string>,
    view: View,
    vacancies: JsValue,
    selectedJob: Option<Record>,
    applications: JsValue,
    selectedApp: Option<Record>,
    aiData: JsValue,
    templates: JsValue,
    formData: Record,
    authMode: AuthMode,
    authRole: Role)

  /** The id in the dashboard query of `loadRecruiterDashboard(userId)` (line
      110): `userId || user.id`, where `user` is the state the calling handler
      saw. With a falsy `userId` and no such user, reading `user.id` throws,
      the handler's `catch` only logs it, and no request goes out. */
  function DashboardQuery(userId: JsValue, seenUser: Option<User>): (q: Option<string>)
    ensures Truthy(userId) ==> q == Some(ToStr(userId))
    ensures !Truthy(userId) && seenUser.Some? ==> q == Some(ToStr(seenUser.value.id))
    ensures q.None? <==> !Truthy(userId) && seenUser.None?
  {
    if Truthy(userId) then Some(ToStr(userId))
    else match seenUser
      case None => None
      case Some(u) => Some(ToStr(Or(userId, u.id)))
  }

  /** A list replaced by a successful load and kept by a failed one. */
  function Loaded(current: JsValue, outcome: Result<JsValue>): (v: JsValue)
    ensures outcome.Ok? ==> v == outcome.value
    ensures outcome.Err? ==> v == current
  {
    if outcome.Ok? then outcome.value else current
  }

  /** What the two requests of `handleCandidateClick` (lines 146-151) leave in
      `aiData`: the analysis only when both requests succeed. */
  function ProfileAiData(aiOutcome: Result<JsValue>, tmplOutcome: Result<JsValue>): (d: JsValue)
    ensures aiOutcome.Ok? && tmplOutcome.Ok? ==> d == aiOutcome.value
    ensures aiOutcome.Err? || tmplOutcome.Err? ==> d == Null
  {
    if aiOutcome.Ok? && tmplOutcome.Ok? then aiOutcome.value else Null
  }

  const JobAppsError: string := "Ошибка загрузки откликов"
  const ActiveListError: string := "Не удалось загрузить список вакансий"
  const UploadErrorPrefix: string := "Ошибка при загрузке: "

  // The requests the handlers send; a GET carries no body.

  /** The dashboard's list (line 110). */
  function DashboardLoad(id: string): Request {
    Request(Get, "/vacancies/all?id=" + id, NoBody)
  }

  /** The candidate's list of open vacancies (line 204). */
  const ActiveLoad: Request := Request(Get, "/vacancies/active", NoBody)

  /** A job's applications (line 119). */
  function JobAppsLoad(job: Record): Request {
    Request(Get, "/vacancies/" + ToStr(Field(job, "id")) + "/applications", NoBody)
  }

  /** Archiving or dearchiving a job (line 128). */
  function ArchiveRequest(job: Record): Request {
    Request(Patch, "/vacancies/" + ToStr(Field(job, "id")) + "/" + ArchiveAction(job), NoBody)
  }

  /** An application's analysis (lines 147 and 264). */
  function AiDataLoad(app: Record): Request {
    Request(Get, "/applications/" + ToStr(Field(app, "id")) + "/ai-data", NoBody)
  }

  /** A recruiter's templates (lines 149 and 166). */
  function TemplatesLoad(recruiterId: JsValue): Request {
    Request(Get, "/templates?recruiter_id=" + ToStr(recruiterId), NoBody)
  }

  /** A status change (line 156). */
  function StatusRequest(app: Record, status: string): Request {
    Request(Patch, "/applications/" + ToStr(Field(app, "id")) + "/status", Json(Obj(map["status" := Str(status)])))
  }

  /** A candidate's applications (line 251). */
  function MyAppsLoad(candidateId: JsValue): Request {
    Request(Get, "/my-applications?candidate_id=" + ToStr(candidateId), NoBody)
  }

  class App {
    var user: Option<User>
    var loading: bool
    var error: Option<string>
    var view: View
    var vacancies: JsValue
    var selectedJob: Option<Record>
    var applications: JsValue
    var selectedApp: Option<Record>
    var aiData: JsValue
    var templates: JsValue
    var formData: Record
    var authMode: AuthMode
    var authRole: Role

    function State(): Snapshot
      reads this
    {
      Snapshot(user, loading, error, view, vacancies, selectedJob, applications,
               selectedApp, aiData, templates, formData, authMode, authRole)
    }

    /** What holds between handlers: past the sign-in screen there is a user,
        each role only sees its own screens, and the screens that dereference
        `selectedJob` or `selectedApp` (lines 363, 468, 507, 675) have one.
        No handler is half-way through, so nothing is loading. */
    predicate Valid()
      reads this
    {
      && (!view.Auth? ==> user.Some?)
      && (RecruiterView(view) ==> user.Some? && user.value.role.Recruiter?)
      && (CandidateView(view) ==> user.Some? && user.value.role.Candidate?)
      && (view.JobDetail? || view.CandidateProfile? || view.Upload? ==> selectedJob.Some?)
      && (view.CandidateProfile? || view.CandidateAppDetail? ==> selectedApp.Some?)
      && !loading
    }

    /** The initial state of lines 64-78. */
    constructor ()
      ensures Valid()
      ensures State() == Snapshot(None, false, None, Auth, Arr([]), None, Arr([]), None, Null,
                                  Arr([]), map[], Login, Recruiter)
    {
      user := None;
      loading := false;
      error := None;
      view := Auth;
      vacancies := Arr([]);
      selectedJob := None;
      applications := Arr([]);
      selectedApp := None;
      aiData := Null;
      templates := Arr([]);
      formData := map[];
      authMode := Login;
      authRole := Recruiter;
    }

    // --- sign-in screen ---

    /** The role switch (lines 290-291). */
    method SetAuthRole(r: Role)
      requires Valid() && view.Auth?
      modifies this
      ensures Valid()
      ensures State() == old(State()).(authRole := r)
    {
      authRole := r;
    }

    /** The login/sign-up toggle (line 307). */
    method ToggleAuthMode()
      requires Valid() && view.Auth?
      modifies this
      ensures Valid()
      ensures old(authMode).Login? ==> State() == old(State()).(authMode := Signup)
      ensures old(authMode).Signup? ==> State() == old(State()).(authMode := Login)
    {
      authMode := if authMode.Login? then Signup else Login;
    }

    /** Typing into one of the inputs on screen: `setFormData({ ...formData, key: value })`. */
    method SetFormField(key: string, value: string)
      requires Valid() && FieldOnScreen(view, authMode, authRole, key)
      modifies this
      ensures Valid()
      ensures State() == old(State()).(formData := old(formData)[key := Str(value)])
    {
      formData := formData[key := Str(value)];
    }

    /** `handleAuth` (lines 81-103): sign in or sign up, then open the
        recruiter dashboard or the candidate's vacancy list, whose load is
        answered by `loadOutcome`. A failure, including the TypeError of a
        `null` response body, only sets `error`. */
    method HandleAuth(outcome: Result<JsValue>, loadOutcome: Result<JsValue>) returns (sent: seq<Request>)
      requires Valid() && view.Auth?
      modifies this
      ensures Valid()
      ensures |sent| >= 1
      ensures sent[0] == Request(Post, AuthEndpoint(old(authMode), old(authRole)), Json(Obj(old(formData))))
      ensures var r := AuthResult(outcome, old(formData), old(authMode), old(authRole));
        r.Err? ==> |sent| == 1 && State() == old(State()).(error := Some(r.message))
      ensures var r := AuthResult(outcome, old(formData), old(authMode), old(authRole));
        (r.Ok? && r.value.role.Recruiter?) ==>
          var q := DashboardQuery(r.value.id, old(user));
          && (q.Some? ==> sent == [sent[0], DashboardLoad(q.value)])
          && (q.None? ==> |sent| == 1)
          && State() == old(State()).(user := Some(r.value), error := None, view := Dashboard,
                                      vacancies := if q.Some? then Loaded(old(vacancies), loadOutcome) else old(vacancies))
      ensures var r := AuthResult(outcome, old(formData), old(authMode), old(authRole));
        (r.Ok? && r.value.role.Candidate?) ==>
          && sent == [sent[0], ActiveLoad]
          && State() == old(State()).(user := Some(r.value), view := ActiveVacancies,
                                      vacancies := Loaded(old(vacancies), loadOutcome),
                                      error := if loadOutcome.Err? then Some(ActiveListError) else None)
    {
      var seenUser := user;
      var auth := Request(Post, AuthEndpoint(authMode, authRole), Json(Obj(formData)));
      error := None;
      match AuthResult(outcome, formData, authMode, authRole)
      case Err(m) =>
        error := Some(m);
        sent := [auth];
      case Ok(u) =>
        user := Some(u);
        var more;
        if u.role.Recruiter? {
          more := LoadRecruiterDashboard(u.id, seenUser, loadOutcome);
        } else {
          more := LoadActiveVacancies(loadOutcome);
        }
        sent := [auth] + more;
    }

    // --- recruiter ---

    /** `loadRecruiterDashboard(userId)` (lines 106-113): the dashboard opens
        before the request, and a failed load only logs. `seenUser` is the
        `user` of the render the calling handler came from; the sidebar button
        (line 322) passes no id and the current user. */
    method LoadRecruiterDashboard(userId: JsValue, seenUser: Option<User>, outcome: Result<JsValue>)
      returns (sent: seq<Request>)
      requires Valid() && user.Some? && user.value.role.Recruiter?
      modifies this
      ensures Valid()
      ensures DashboardQuery(userId, seenUser).Some? ==>
        && sent == [DashboardLoad(DashboardQuery(userId, seenUser).value)]
        && State() == old(State()).(view := Dashboard, vacancies := Loaded(old(vacancies), outcome))
      ensures DashboardQuery(userId, seenUser).None? ==>
        sent == [] && State() == old(State()).(view := Dashboard)
    {
      view := Dashboard;
      match DashboardQuery(userId, seenUser)
      case None =>
        sent := [];
      case Some(id) =>
        sent := [DashboardLoad(id)];
        if outcome.Ok? {
          vacancies := outcome.value;
        }
    }

    /** `handleJobClick` (lines 115-123): the job is selected either way; only a
        successful load opens the job's screen with its applications. */
    method HandleJobClick(job: Record, outcome: Result<JsValue>) returns (sent: seq<Request>)
      requires Valid() && view.Dashboard?
      modifies this
      ensures Valid()
      ensures sent == [JobAppsLoad(job)]
      ensures outcome.Ok? ==>
        State() == old(State()).(selectedJob := Some(job), applications := outcome.value, view := JobDetail)
      ensures outcome.Err? ==>
        State() == old(State()).(selectedJob := Some(job), error := Some(JobAppsError))
    {
      selectedJob := Some(job);
      sent := [JobAppsLoad(job)];
      match outcome
      case Ok(apps) =>
        applications := apps;
        view := JobDetail;
      case Err(_) =>
        error := Some(JobAppsError);
    }

    /** `toggleArchive` (lines 125-131): archive or dearchive the card's job,
        then reload the dashboard; a failure is only an alert. */
    method ToggleArchive(job: Record, outcome: Result<JsValue>, reload: Result<JsValue>) returns (sent: seq<Request>)
      requires Valid() && view.Dashboard?
      modifies this
      ensures Valid()
      ensures |sent| >= 1
      ensures sent[0] == ArchiveRequest(job)
      ensures outcome.Err? ==> |sent| == 1 && State() == old(State())
      ensures outcome.Ok? ==>
        && sent == [sent[0], DashboardLoad(ToStr(old(user).value.id))]
        && State() == old(State()).(view := Dashboard, vacancies := Loaded(old(vacancies), reload))
    {
      var patch := ArchiveRequest(job);
      sent := [patch];
      if outcome.Ok? {
        var more := LoadRecruiterDashboard(Undefined, user, reload);
        sent := sent + more;
      }
    }

    /** `createVacancy` (lines 133-140): the form's fields plus the owner and
        `is_archived: false`; the form is cleared only when the request succeeds. */
    method CreateVacancy(outcome: Result<JsValue>, reload: Result<JsValue>) returns (sent: seq<Request>)
      requires Valid() && view.CreateJob?
      modifies this
      ensures Valid()
      ensures |sent| >= 1
      ensures sent[0] == Request(Post, "/vacancies",
        Json(Obj(old(formData)["recruiter_id" := old(user).value.id]["is_archived" := Bool(false)])))
      ensures outcome.Err? ==> |sent| == 1 && State() == old(State())
      ensures outcome.Ok? ==>
        && sent == [sent[0], DashboardLoad(ToStr(old(user).value.id))]
        && State() == old(State()).(view := Dashboard, vacancies := Loaded(old(vacancies), reload), formData := map[])
    {
      var body := formData["recruiter_id" := user.value.id]["is_archived" := Bool(false)];
      sent := [Request(Post, "/vacancies", Json(Obj(body)))];
      if outcome.Ok? {
        var more := LoadRecruiterDashboard(Undefined, user, reload);
        sent := sent + more;
        formData := map[];
      }
    }

    /** `handleCandidateClick` (lines 142-152): the profile opens at once; the
        templates are asked for only after the analysis arrived, and any failure
        leaves `aiData` null. */
    method HandleCandidateClick(app: Record, aiOutcome: Result<JsValue>, tmplOutcome: Result<JsValue>)
      returns (sent: seq<Request>)
      requires Valid() && view.JobDetail?
      modifies this
      ensures Valid()
      ensures |sent| >= 1
      ensures sent[0] == AiDataLoad(app)
      ensures aiOutcome.Err? ==> |sent| == 1
      ensures aiOutcome.Ok? ==>
        sent == [sent[0], TemplatesLoad(old(user).value.id)]
      ensures State() == old(State()).(selectedApp := Some(app), view := CandidateProfile,
        aiData := ProfileAiData(aiOutcome, tmplOutcome),
        templates := if aiOutcome.Ok? then Loaded(old(templates), tmplOutcome) else old(templates))
    {
      selectedApp := Some(app);
      view := CandidateProfile;
      sent := [AiDataLoad(app)];
      match aiOutcome
      case Err(_) =>
        aiData := Null;
      case Ok(data) =>
        aiData := data;
        sent := sent + [TemplatesLoad(user.value.id)];
        match tmplOutcome
        case Ok(t) =>
          templates := t;
        case Err(_) =>
          aiData := Null;
    }

    /** `updateAppStatus` (lines 154-159), from the selector of line 511: on
        success the selected application gets the new status and keeps every
        other field; on failure nothing changes. The list of applications is
        never touched. */
    method UpdateAppStatus(status: string, outcome: Result<JsValue>) returns (sent: seq<Request>)
      requires Valid() && view.CandidateProfile? && status in StatusOptions
      modifies this
      ensures Valid()
      ensures sent == [StatusRequest(old(selectedApp).value, status)]
      ensures outcome.Ok? ==> State() == old(State()).(selectedApp := Some(WithStatus(old(selectedApp).value, status)))
      ensures outcome.Err? ==> State() == old(State())
    {
      var app := selectedApp.value;
      sent := [StatusRequest(app, status)];
      if outcome.Ok? {
        selectedApp := Some(WithStatus(app, status));
      }
    }

    /** `generateTG` (lines 187-196): the body of the message request. Opening
        the returned link and the alert on failure are outside the model, so
        the handler changes no state. */
    method GenerateTg(templateId: JsValue) returns (sent: seq<Request>)
      requires Valid() && view.CandidateProfile? && Truthy(aiData)
      ensures sent == [Request(Post, "/templates/" + ToStr(templateId) + "/generate", Json(Obj(map[
        "candidate_name" := Field(selectedApp.value, "candidate_name"),
        "telegram_username" := ContactHandle(aiData),
        "vacancy_title" := Field(selectedJob.value, "title")])))]
      ensures Truthy(sent[0].body.value.fields["telegram_username"])
    {
      var body := map[
        "candidate_name" := Field(selectedApp.value, "candidate_name"),
        "telegram_username" := ContactHandle(aiData),
        "vacancy_title" := Field(selectedJob.value, "title")];
      sent := [Request(Post, "/templates/" + ToStr(templateId) + "/generate", Json(Obj(body)))];
    }

    // --- templates ---

    /** `loadTemplates` (lines 162-169), from the sidebar (line 325) or after a
        save or delete: the screen opens before the request; a failure only logs. */
    method LoadTemplates(outcome: Result<JsValue>) returns (sent: seq<Request>)
      requires Valid() && user.Some? && user.value.role.Recruiter?
      modifies this
      ensures Valid()
      ensures sent == [TemplatesLoad(old(user).value.id)]
      ensures State() == old(State()).(view := Templates, templates := Loaded(old(templates), outcome))
    {
      view := Templates;
      sent := [TemplatesLoad(user.value.id)];
      if outcome.Ok? {
        templates := outcome.value;
      }
    }

    /** `saveTemplate` (lines 171-177): unlike `createVacancy`, the form is not
        cleared afterwards. */
    method SaveTemplate(outcome: Result<JsValue>, reload: Result<JsValue>) returns (sent: seq<Request>)
      requires Valid() && view.CreateTemplate?
      modifies this
      ensures Valid()
      ensures |sent| >= 1
      ensures sent[0] == Request(Post, "/templates", Json(Obj(old(formData)["recruiter_id" := old(user).value.id])))
      ensures outcome.Err? ==> |sent| == 1 && State() == old(State())
      ensures outcome.Ok? ==>
        && sent == [sent[0], TemplatesLoad(old(user).value.id)]
        && State() == old(State()).(view := Templates, templates := Loaded(old(templates), reload))
    {
      sent := [Request(Post, "/templates", Json(Obj(formData["recruiter_id" := user.value.id])))];
      if outcome.Ok? {
        var more := LoadTemplates(reload);
        sent := sent + more;
      }
    }

    /** `deleteTemplate` (lines 179-185): `confirmed` is the user's answer to
        the confirmation dialog; declining sends nothing. */
    method DeleteTemplate(id: JsValue, confirmed: bool, outcome: Result<JsValue>, reload: Result<JsValue>)
      returns (sent: seq<Request>)
      requires Valid() && view.Templates?
      modifies this
      ensures Valid()
      ensures !confirmed ==> sent == [] && State() == old(State())
      ensures confirmed ==> |sent| >= 1 && sent[0] == Request(Delete, "/templates/" + ToStr(id), NoBody)
      ensures confirmed && outcome.Err? ==> |sent| == 1 && State() == old(State())
      ensures confirmed && outcome.Ok? ==>
        && sent == [sent[0], TemplatesLoad(old(user).value.id)]
        && State() == old(State()).(templates := Loaded(old(templates), reload))
    {
      if !confirmed {
        sent := [];
        return;
      }
      sent := [Request(Delete, "/templates/" + ToStr(id), NoBody)];
      if outcome.Ok? {
        var more := LoadTemplates(reload);
        sent := sent + more;
      }
    }

    /** The sidebar's sign-out button (line 334): only the view changes; the
        user stays set. */
    method Logout()
      requires Valid() && !view.Auth? && user.value.role.Recruiter?
      modifies this
      ensures Valid()
      ensures State() == old(State()).(view := Auth)
    {
      view := Auth;
    }

    /** One of the `setView` buttons listed by `Link`. */
    method Navigate()
      requires Valid() && Link(view).Some?
      modifies this
      ensures Valid()
      ensures State() == old(State()).(view := Link(old(view)).value)
    {
      view := Link(view).value;
    }

    // --- candidate ---

    /** `loadActiveVacancies` (lines 200-211), after sign-in or from the
        candidate's back buttons (lines 347 and 749): the list opens at once and
        a failure sets the error message. */
    method LoadActiveVacancies(outcome: Result<JsValue>) returns (sent: seq<Request>)
      requires Valid() && user.Some? && user.value.role.Candidate?
      modifies this
      ensures Valid()
      ensures sent == [ActiveLoad]
      ensures outcome.Ok? ==> State() == old(State()).(view := ActiveVacancies, vacancies := outcome.value)
      ensures outcome.Err? ==> State() == old(State()).(view := ActiveVacancies, error := Some(ActiveListError))
    {
      view := ActiveVacancies;
      sent := [ActiveLoad];
      match outcome
      case Ok(data) =>
        vacancies := data;
      case Err(_) =>
        error := Some(ActiveListError);
    }

    /** `handleSelectJobForApply` (lines 214-219): open the upload form for a job. */
    method HandleSelectJobForApply(job: Record)
      requires Valid() && view.ActiveVacancies?
      modifies this
      ensures Valid()
      ensures State() == old(State()).(selectedJob := Some(job), view := Upload, error := None)
    {
      selectedJob := Some(job);
      view := Upload;
      error := None;
    }

    /** `uploadResume(file)` (lines 221-245): no file, no change. Otherwise the
        multipart form goes out; on success the candidate is taken to their
        applications (loaded with `appsOutcome`), on failure they stay on the
        form with the error shown. */
    method UploadResume(file: Option<ResumeFile>, outcome: Result<JsValue>, appsOutcome: Result<JsValue>)
      returns (sent: seq<Request>)
      requires Valid() && view.Upload?
      modifies this
      ensures Valid()
      ensures file.None? ==> sent == [] && State() == old(State())
      ensures file.Some? ==> |sent| >= 1 && sent[0] == Request(Post, "/applications", Multipart([
        ("candidate_id", Text(ToStr(old(user).value.id))),
        ("vacancy_id", Text(ToStr(Field(old(selectedJob).value, "id")))),
        ("resume", FilePart(file.value))]))
      ensures file.Some? && outcome.Err? ==>
        |sent| == 1 && State() == old(State()).(error := Some(UploadErrorPrefix + outcome.message))
      ensures file.Some? && outcome.Ok? ==>
        && sent == [sent[0], MyAppsLoad(old(user).value.id)]
        && State() == old(State()).(error := None, view := MyApps,
                                    applications := Loaded(old(applications), appsOutcome))
    {
      if file.None? {
        sent := [];
        return;
      }
      error := None;
      var form := [
        ("candidate_id", Text(ToStr(user.value.id))),
        ("vacancy_id", Text(ToStr(Field(selectedJob.value, "id")))),
        ("resume", FilePart(file.value))];
      sent := [Request(Post, "/applications", Multipart(form))];
      match outcome
      case Ok(_) =>
        var more := FetchMyApps(appsOutcome);
        sent := sent + more;
      case Err(m) =>
        error := Some(UploadErrorPrefix + m);
    }

    /** `fetchMyApps` (lines 247-254), from the vacancy list (line 625) or after
        an upload: the list opens at once and a failure only logs. */
    method FetchMyApps(outcome: Result<JsValue>) returns (sent: seq<Request>)
      requires Valid() && user.Some? && user.value.role.Candidate?
      modifies this
      ensures Valid()
      ensures sent == [MyAppsLoad(old(user).value.id)]
      ensures State() == old(State()).(view := MyApps, applications := Loaded(old(applications), outcome))
    {
      view := MyApps;
      sent := [MyAppsLoad(user.value.id)];
      if outcome.Ok? {
        applications := outcome.value;
      }
    }

    /** `handleViewAppStatus` (lines 256-273): the old analysis is cleared
        before the request, and stays cleared when it fails. */
    method HandleViewAppStatus(app: Record, outcome: Result<JsValue>) returns (sent: seq<Request>)
      requires Valid() && view.MyApps?
      modifies this
      ensures Valid()
      ensures sent == [AiDataLoad(app)]
      ensures State() == old(State()).(selectedApp := Some(app), view := CandidateAppDetail,
                                       aiData := if outcome.Ok? then outcome.value else Null)
      ensures outcome.Err? ==> PanelFor(loading, aiData) == NotReady
    {
      selectedApp := Some(app);
      aiData := Null;
      view := CandidateAppDetail;
      sent := [AiDataLoad(app)];
      if outcome.Ok? {
        aiData := outcome.value;
      }
    }
  }

  /** Choosing the same status twice in a row sends the same request twice,
      and ends in the state one successful choice gives, or in the old state
      when both requests fail. */
  method SameStatusTwice(a: App, status: string, o1: Result<JsValue>, o2: Result<JsValue>)
    returns (first: seq<Request>, second: seq<Request>)
    requires a.Valid() && a.view.CandidateProfile? && status in StatusOptions
    modifies a
    ensures second == first
    ensures o1.Ok? || o2.Ok? ==>
      a.State() == old(a.State()).(selectedApp := Some(WithStatus(old(a.selectedApp).value, status)))
    ensures o1.Err? && o2.Err? ==> a.State() == old(a.State())
  {
    first := a.UpdateAppStatus(status, o1);
    second := a.UpdateAppStatus(status, o2);
    WithStatusOverwrites(old(a.selectedApp).value, status, status);
  }
}

/** The root App.jsx: the session held by `AuthProvider`, the sign-in page, the
    recruiter's vacancy list with its owner-and-not-archived filter, the
    candidate's apply dialog, and the choice of page for the root route. These
    screens call `fetch` directly: a response is read with `res.json()` whatever
    its status, and each outcome is an `Api.FetchResult` parameter. */
module Portal {
  import opened Js
  import opened Api

  // --- session ---

  /** `AuthProvider` (lines 10-19): the in-memory `user`. The copy kept in
      local storage is outside the model; the constructor takes its parsed value. */
  class AuthProvider {
    var user: JsValue

    constructor (stored: JsValue)
      ensures user == stored
    {
      user := stored;
    }

    /** `login(data)` (line 12). */
    method Login(data: JsValue)
      modifies this
      ensures user == data
    {
      user := data;
    }

    /** `logout()` (line 13). */
    method Logout()
      modifies this
      ensures user == Null
    {
      user := Null;
    }
  }

  /** The pages the root route `/` can show. */
  datatype Page = AuthScreen | RecruiterHome | CandidateHome

  /** Line 357: the sign-in page without a user, the recruiter dashboard for
      role `'recruiter'`, the candidate portal for any other user. */
  function Route(user: JsValue): (p: Page)
    ensures p.AuthScreen? <==> !Truthy(user)
    ensures p.RecruiterHome? <==> Truthy(user) && OptionalMember(user, "role") == Str("recruiter")
    ensures p.CandidateHome? <==> Truthy(user) && OptionalMember(user, "role") != Str("recruiter")
  {
    if !Truthy(user) then AuthScreen
    else if StrictEquals(Member(user, "role").value, Str("recruiter")) then RecruiterHome
    else CandidateHome
  }

  /** Signing out always brings the root route back to the sign-in page. */
  method LogoutShowsAuthPage(auth: AuthProvider)
    modifies auth
    ensures Route(auth.user) == AuthScreen
  {
    auth.Logout();
  }

  // --- sign-in page ---

  /** The two values of the role selector (lines 90-91). */
  predicate RoleOption(role: string) {
    role == "candidate" || role == "recruiter"
  }

  /** The endpoint of `handleSubmit` (lines 53-56), after `API_BASE`. */
  function SubmitPath(isLogin: bool, role: string): (path: string)
    ensures isLogin <==> path == "/auth/login"
    ensures !isLogin && role == "recruiter" <==> path == "/auth/recruiter/signup"
    ensures !isLogin && role != "recruiter" <==> path == "/auth/candidate/signup"
  {
    assert "/auth/recruiter/signup"[6] != "/auth/candidate/signup"[6];
    if isLogin then "/auth/login"
    else if role == "recruiter" then "/auth/recruiter/signup" else "/auth/candidate/signup"
  }

  /** The own properties `{ ...v }` copies from an object. Spreading an array
      or a string is not modelled: it is taken to copy nothing. */
  function SpreadFields(v: JsValue): (f: Record)
    ensures v.Obj? ==> f == v.fields
  {
    if v.Obj? then v.fields else map[]
  }

  /** The session object built from a successful response (lines 67-71): every
      field of the response, then `id` from the first truthy of `recruiter_id`,
      `candidate_id` and `id`, then `role || inference`. Reading a field of a
      `null` body throws the TypeError whose message is returned. */
  function NormaliseUser(data: JsValue, role: string): (r: Result<Record>)
    ensures r.Err? <==> data.Nullish()
    ensures r.Err? ==> r.message == ReadError(data, "recruiter_id")
    ensures r.Ok? ==> r.value.Keys == SpreadFields(data).Keys + {"id", "role"}
    ensures r.Ok? ==> forall k :: k in SpreadFields(data) && k != "id" && k != "role" ==> r.value[k] == SpreadFields(data)[k]
    ensures r.Ok? ==> r.value["id"] == Or(Or(OptionalMember(data, "recruiter_id"), OptionalMember(data, "candidate_id")), OptionalMember(data, "id"))
    ensures r.Ok? && role != "" ==> r.value["role"] == Str(role)
    ensures r.Ok? && role == "" ==>
      r.value["role"] == (if Truthy(OptionalMember(data, "recruiter_id")) then Str("recruiter") else Str("candidate"))
  {
    match Member(data, "recruiter_id")
    case Err(m) => Err(m)
    case Ok(rid) =>
      var id := Or(Or(rid, Member(data, "candidate_id").value), Member(data, "id").value);
      var inferred := if Truthy(rid) then Str("recruiter") else Str("candidate");
      Ok(SpreadFields(data)["id" := id]["role" := Or(Str(role), inferred)])
  }

  /** Whatever the response says, a selector value becomes the session role:
      the inference after `||` is never used. */
  lemma RoleIsSelector(data: JsValue, role: string)
    requires RoleOption(role) && !data.Nullish()
    ensures NormaliseUser(data, role).Ok? && NormaliseUser(data, role).value["role"] == Str(role)
  {
  }

  /** What a submit ends in (lines 58-77): the session object passed to
      `login`, or the text of the alert. Only an ok response with a readable
      non-null body signs in; a non-ok one alerts its `error` field or
      "Authentication failed"; a failed request, an unparsable body or a
      TypeError all alert "Server error". */
  function SubmitEffect(outcome: FetchResult, role: string): (e: Result<Record>)
    ensures e.Ok? ==> outcome.Response? && outcome.ok && outcome.json.Parsed?
    ensures e.Ok? ==> NormaliseUser(outcome.json.value, role) == e
    ensures (outcome.NetworkError? || outcome.json.SyntaxError?) ==> e == Err("Server error")
    ensures (outcome.Response? && outcome.json.Parsed? && outcome.json.value.Nullish()) ==> e == Err("Server error")
    ensures (outcome.Response? && !outcome.ok && outcome.json.Parsed? && !outcome.json.value.Nullish()) ==>
      e == Err(ToStr(Or(OptionalMember(outcome.json.value, "error"), Str("Authentication failed"))))
    ensures (outcome.Response? && outcome.ok && outcome.json.Parsed? && !outcome.json.value.Nullish()) ==> e.Ok?
  {
    match outcome
    case NetworkError(_) => Err("Server error")
    case Response(ok, _, _, json) =>
      match json
      case SyntaxError(_) => Err("Server error")
      case Parsed(data) =>
        if ok then
          (match NormaliseUser(data, role)
           case Ok(u) => Ok(u)
           case Err(_) => Err("Server error"))
        else
          match Member(data, "error")
          case Err(_) => Err("Server error")
          case Ok(msg) => Err(ToStr(Or(msg, Str("Authentication failed"))))
  }

  /** Line 88 shows the role selector only on the sign-up tab, so a login from
      a fresh page keeps the initial `'candidate'`: every such session is
      routed to the candidate portal, whatever account the backend reports. */
  lemma FreshLoginIsCandidate(outcome: FetchResult)
    ensures SubmitEffect(outcome, "candidate").Ok? ==> Route(Obj(SubmitEffect(outcome, "candidate").value)) == CandidateHome
  {
    var e := SubmitEffect(outcome, "candidate");
    if e.Ok? {
      assert e.value["role"] == Str("candidate");
    }
  }

  /** `AuthPage` (lines 44-110). */
  class AuthPage {
    var isLogin: bool
    var role: string
    var form: Record

    predicate Valid()
      reads this
    {
      RoleOption(role)
    }

    /** The initial state of lines 45-47. */
    constructor ()
      ensures Valid()
      ensures isLogin && role == "candidate"
      ensures form == map["email" := Str(""), "password" := Str(""), "company_name" := Str(""),
                          "telegram_username" := Str("")]
    {
      isLogin := true;
      role := "candidate";
      form := map["email" := Str(""), "password" := Str(""), "company_name" := Str(""),
                  "telegram_username" := Str("")];
    }

    /** The Login / Sign Up tabs (lines 84-85). */
    method SetIsLogin(b: bool)
      requires Valid()
      modifies this
      ensures Valid()
      ensures isLogin == b && role == old(role) && form == old(form)
    {
      isLogin := b;
    }

    /** The role selector, shown on the sign-up tab (lines 88-93). */
    method SetRole(r: string)
      requires Valid() && !isLogin && RoleOption(r)
      modifies this
      ensures Valid()
      ensures role == r && isLogin == old(isLogin) && form == old(form)
    {
      role := r;
    }

    /** Typing into an input on screen (lines 96-103). */
    method SetFormField(key: string, value: string)
      requires Valid()
      requires || key == "email" || key == "password"
               || (!isLogin && role == "recruiter" && key == "company_name")
               || (!isLogin && role == "candidate" && key == "telegram_username")
      modifies this
      ensures Valid()
      ensures form == old(form)[key := Str(value)] && isLogin == old(isLogin) && role == old(role)
    {
      form := form[key := Str(value)];
    }

    /** `handleSubmit` (lines 51-78): the request, then either a login with the
        normalised session or an alert; nothing but the session can change. */
    method HandleSubmit(outcome: FetchResult, auth: AuthProvider) returns (sent: Request, notice: Option<string>)
      requires Valid()
      modifies auth
      ensures sent == Request(Post, SubmitPath(isLogin, role), Json(Obj(form)))
      ensures SubmitEffect(outcome, role).Ok? ==> auth.user == Obj(SubmitEffect(outcome, role).value) && notice.None?
      ensures SubmitEffect(outcome, role).Err? ==>
        auth.user == old(auth.user) && notice == Some(SubmitEffect(outcome, role).message)
      ensures !(outcome.Response? && outcome.ok) ==> auth.user == old(auth.user)
    {
      sent := Request(Post, SubmitPath(isLogin, role), Json(Obj(form)));
      match SubmitEffect(outcome, role)
      case Ok(u) =>
        auth.Login(Obj(u));
        notice := None;
      case Err(m) =>
        notice := Some(m);
    }
  }

  // --- recruiter's vacancy list ---

  /** `xs.flat()`: the elements of array elements are lifted one level. */
  function Flat(xs: seq<JsValue>): (ys: seq<JsValue>)
    ensures (forall i :: 0 <= i < |xs| ==> !xs[i].Arr?) ==> ys == xs
    ensures forall i :: 0 <= i < |xs| && !xs[i].Arr? ==> xs[i] in ys
    decreases |xs|
  {
    if xs == [] then [] else (if xs[0].Arr? then xs[0].items else [xs[0]]) + Flat(xs[1..])
  }

  /** Flattening a concatenation flattens each part. */
  lemma {:induction false} FlatAppend(a: seq<JsValue>, b: seq<JsValue>)
    ensures Flat(a + b) == Flat(a) + Flat(b)
    decreases |a|
  {
    if a == [] {
      assert a + b == b;
    } else {
      assert (a + b)[0] == a[0];
      assert (a + b)[1..] == a[1..] + b;
      FlatAppend(a[1..], b);
    }
  }

  /** The filter of line 124: `v.recruiter_id === user.id && !v.is_archived`. */
  predicate Keep(v: JsValue, owner: JsValue) {
    StrictEquals(OptionalMember(v, "recruiter_id"), owner) && !Truthy(OptionalMember(v, "is_archived"))
  }

  /** The vacancies that pass the filter, in their original order. */
  function OwnActive(xs: seq<JsValue>, owner: JsValue): (ys: seq<JsValue>)
    ensures |ys| <= |xs|
    ensures forall i :: 0 <= i < |ys| ==> Keep(ys[i], owner)
    decreases |xs|
  {
    if xs == [] then []
    else (if Keep(xs[0], owner) then [xs[0]] else []) + OwnActive(xs[1..], owner)
  }

  /** A vacancy is listed exactly when it is in the input and passes the filter. */
  lemma {:induction false} OwnActiveMembers(xs: seq<JsValue>, owner: JsValue, v: JsValue)
    ensures v in OwnActive(xs, owner) <==> v in xs && Keep(v, owner)
    decreases |xs|
  {
    if xs != [] {
      OwnActiveMembers(xs[1..], owner, v);
      assert xs == [xs[0]] + xs[1..];
    }
  }

  /** Filtering keeps the order: the filter of a concatenation is the
      concatenation of the filters. */
  lemma {:induction false} OwnActiveAppend(a: seq<JsValue>, b: seq<JsValue>, owner: JsValue)
    ensures OwnActive(a + b, owner) == OwnActive(a, owner) + OwnActive(b, owner)
    decreases |a|
  {
    if a == [] {
      assert a + b == b;
    } else {
      assert (a + b)[0] == a[0];
      assert (a + b)[1..] == a[1..] + b;
      OwnActiveAppend(a[1..], b, owner);
    }
  }

  /** Each kept vacancy appears as often as in the input; the others not at all. */
  lemma {:induction false} OwnActiveCount(xs: seq<JsValue>, owner: JsValue, v: JsValue)
    ensures Keep(v, owner) ==> multiset(OwnActive(xs, owner))[v] == multiset(xs)[v]
    ensures !Keep(v, owner) ==> multiset(OwnActive(xs, owner))[v] == 0
    decreases |xs|
  {
    if xs != [] {
      OwnActiveCount(xs[1..], owner, v);
      assert xs == [xs[0]] + xs[1..];
      if Keep(xs[0], owner) {
        assert OwnActive(xs, owner) == [xs[0]] + OwnActive(xs[1..], owner);
      } else {
        assert OwnActive(xs, owner) == OwnActive(xs[1..], owner);
      }
    }
  }

  /** No element is `null` or `undefined`. */
  predicate NoNullish(xs: seq<JsValue>) {
    forall i :: 0 <= i < |xs| ==> !xs[i].Nullish()
  }

  /** What `fetchVacancies` (lines 120-125) stores: the flattened, filtered
      list; nothing when the request fails, the body does not parse, the body
      is not an array, or the filter meets a `null`/`undefined` element. */
  function VacancyList(outcome: FetchResult, owner: JsValue): (l: Option<seq<JsValue>>)
    ensures l.Some? <==>
      && outcome.Response? && outcome.json.Parsed? && outcome.json.value.Arr?
      && NoNullish(Flat(outcome.json.value.items))
    ensures l.Some? ==> l.value == OwnActive(Flat(outcome.json.value.items), owner)
  {
    if outcome.Response? && outcome.json.Parsed? && outcome.json.value.Arr? then
      var f := Flat(outcome.json.value.items);
      if NoNullish(f) then Some(OwnActive(f, owner)) else None
    else None
  }

  /** `RecruiterDashboard` (lines 112-173), for the signed-in `owner` id. */
  class RecruiterDashboard {
    const owner: JsValue
    var vacancies: JsValue
    var showCreate: bool
    var newVac: Record

    /** The initial state of lines 114-116. */
    constructor (userId: JsValue)
      ensures owner == userId && vacancies == Arr([]) && !showCreate
      ensures newVac == map["title" := Str(""), "ai_filters" := Str(""), "recruiter_id" := userId]
    {
      owner := userId;
      vacancies := Arr([]);
      showCreate := false;
      newVac := map["title" := Str(""), "ai_filters" := Str(""), "recruiter_id" := userId];
    }

    /** `fetchVacancies` (lines 120-125), also run once on mount (line 118). */
    method FetchVacancies(outcome: FetchResult) returns (sent: Request)
      modifies this
      ensures sent == Request(Get, "/vacancies", NoBody)
      ensures VacancyList(outcome, owner).Some? ==> vacancies == Arr(VacancyList(outcome, owner).value)
      ensures VacancyList(outcome, owner).None? ==> vacancies == old(vacancies)
      ensures showCreate == old(showCreate) && newVac == old(newVac)
    {
      sent := Request(Get, "/vacancies", NoBody);
      match VacancyList(outcome, owner)
      case Some(l) =>
        vacancies := Arr(l);
      case None =>
    }

    /** The "+ Create Vacancy" button (line 142). */
    method OpenCreate()
      modifies this
      ensures showCreate && vacancies == old(vacancies) && newVac == old(newVac)
    {
      showCreate := true;
    }

    /** The dialog's Cancel button (line 153). */
    method CloseCreate()
      requires showCreate
      modifies this
      ensures !showCreate && vacancies == old(vacancies) && newVac == old(newVac)
    {
      showCreate := false;
    }

    /** The dialog's inputs (lines 149-150). */
    method SetNewVacField(key: string, value: string)
      requires showCreate && (key == "title" || key == "ai_filters")
      modifies this
      ensures newVac == old(newVac)[key := Str(value)]
      ensures showCreate == old(showCreate) && vacancies == old(vacancies)
    {
      newVac := newVac[key := Str(value)];
    }

    /** `handleCreate` (lines 127-136): the response is never checked, so any
        answer closes the dialog and reloads the list; only a request that
        does not complete stops the handler. */
    method HandleCreate(outcome: FetchResult, reload: FetchResult) returns (sent: seq<Request>)
      requires showCreate
      modifies this
      ensures |sent| >= 1 && sent[0] == Request(Post, "/vacancies", Json(Obj(old(newVac))))
      ensures outcome.NetworkError? ==>
        |sent| == 1 && vacancies == old(vacancies) && showCreate && newVac == old(newVac)
      ensures outcome.Response? ==>
        && sent == [sent[0], Request(Get, "/vacancies", NoBody)]
        && !showCreate && newVac == old(newVac)
        && (VacancyList(reload, owner).Some? ==> vacancies == Arr(VacancyList(reload, owner).value))
        && (VacancyList(reload, owner).None? ==> vacancies == old(vacancies))
    {
      sent := [Request(Post, "/vacancies", Json(Obj(newVac)))];
      if outcome.Response? {
        showCreate := false;
        var more := FetchVacancies(reload);
        sent := sent + [more];
      }
    }
  }

  // --- candidate portal ---

  /** What `d.flat()` stores (line 283): nothing unless the body parses to an array. */
  function FlatList(outcome: FetchResult): (l: Option<seq<JsValue>>)
    ensures l.Some? <==> outcome.Response? && outcome.json.Parsed? && outcome.json.value.Arr?
    ensures l.Some? ==> l.value == Flat(outcome.json.value.items)
  {
    if outcome.Response? && outcome.json.Parsed? && outcome.json.value.Arr? then
      Some(Flat(outcome.json.value.items))
    else None
  }

  /** `CandidatePortal` (lines 275-345), for the signed-in candidate `userId`. */
  class CandidatePortal {
    const userId: JsValue
    var vacancies: JsValue
    var myApps: JsValue
    var applyingTo: JsValue
    var file: Option<ResumeFile>

    /** The initial state of lines 277-280. */
    constructor (id: JsValue)
      ensures userId == id && vacancies == Arr([]) && myApps == Arr([]) && applyingTo == Null && file.None?
    {
      userId := id;
      vacancies := Arr([]);
      myApps := Arr([]);
      applyingTo := Null;
      file := None;
    }

    /** The first request of the mount effect (line 283): every vacancy, flattened, unfiltered. */
    method LoadVacancies(outcome: FetchResult) returns (sent: Request)
      modifies this
      ensures sent == Request(Get, "/vacancies", NoBody)
      ensures FlatList(outcome).Some? ==> vacancies == Arr(FlatList(outcome).value)
      ensures FlatList(outcome).None? ==> vacancies == old(vacancies)
      ensures myApps == old(myApps) && applyingTo == old(applyingTo) && file == old(file)
    {
      sent := Request(Get, "/vacancies", NoBody);
      match FlatList(outcome)
      case Some(l) =>
        vacancies := Arr(l);
      case None =>
    }

    /** The second request of the mount effect (line 284): the parsed body is
        stored whatever the response status. */
    method LoadMyApps(outcome: FetchResult) returns (sent: Request)
      modifies this
      ensures sent == Request(Get, "/my-applications?candidate_id=" + ToStr(userId), NoBody)
      ensures (outcome.Response? && outcome.json.Parsed?) ==> myApps == outcome.json.value
      ensures !(outcome.Response? && outcome.json.Parsed?) ==> myApps == old(myApps)
      ensures vacancies == old(vacancies) && applyingTo == old(applyingTo) && file == old(file)
    {
      sent := Request(Get, "/my-applications?candidate_id=" + ToStr(userId), NoBody);
      if outcome.Response? && outcome.json.Parsed? {
        myApps := outcome.json.value;
      }
    }

    /** "Apply Now" on one of the listed vacancies (line 312). */
    method StartApply(v: JsValue)
      requires vacancies.Arr? && v in vacancies.items
      modifies this
      ensures applyingTo == v
      ensures vacancies == old(vacancies) && myApps == old(myApps) && file == old(file)
    {
      applyingTo := v;
    }

    /** The dialog's Cancel button (line 338). */
    method CancelApply()
      requires Truthy(applyingTo)
      modifies this
      ensures applyingTo == Null
      ensures vacancies == old(vacancies) && myApps == old(myApps) && file == old(file)
    {
      applyingTo := Null;
    }

    /** The dialog's file input (line 335); `None` when the picker is dismissed. */
    method ChooseFile(f: Option<ResumeFile>)
      requires Truthy(applyingTo)
      modifies this
      ensures file == f
      ensures vacancies == old(vacancies) && myApps == old(myApps) && applyingTo == old(applyingTo)
    {
      file := f;
    }

    /** `handleApply` (lines 287-299): the form needs a file before it submits.
        The dialog closes only on an ok response; otherwise nothing changes. */
    method HandleApply(outcome: FetchResult) returns (sent: Request)
      requires Truthy(applyingTo) && file.Some?
      modifies this
      ensures sent == Request(Post, "/applications", Multipart([
        ("candidate_id", Text(ToStr(userId))),
        ("vacancy_id", Text(ToStr(OptionalMember(old(applyingTo), "id")))),
        ("resume", FilePart(old(file).value))]))
      ensures (outcome.Response? && outcome.ok) ==> applyingTo == Null
      ensures !(outcome.Response? && outcome.ok) ==> applyingTo == old(applyingTo)
      ensures vacancies == old(vacancies) && myApps == old(myApps) && file == old(file)
    {
      var form := [
        ("candidate_id", Text(ToStr(userId))),
        ("vacancy_id", Text(ToStr(Member(applyingTo, "id").value))),
        ("resume", FilePart(file.value))];
      sent := Request(Post, "/applications", Multipart(form));
      if outcome.Response? && outcome.ok {
        applyingTo := Null;
      }
    }
  }
}

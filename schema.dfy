/** The zod schemas of the server actions, applied to what `FormData.get` returns:
    `Some(s)` for a submitted field and `None` for a missing one (`null` in
    JavaScript). zod's `.optional()` and `.default(...)` admit `undefined` only,
    so a missing field fails them; only `.nullable()` admits `null`.
    As zod does, every field is checked and all failures are reported together,
    each under its field name (`error.flatten().fieldErrors`). */
module Schema {
  import opened Common
  import opened Model

  datatype ProjectForm = ProjectForm(name: Option<string>, description: Option<string>)
  datatype ProjectInput = ProjectInput(name: string, description: string)

  datatype TaskForm = TaskForm(
    title: Option<string>,
    description: Option<string>,
    status: Option<string>,
    priority: Option<string>,
    dueDate: Option<string>,
    projectId: Option<string>)
  datatype TaskInput = TaskInput(
    title: string,
    description: string,
    status: string,
    priority: string,
    dueDate: Option<string>,
    projectId: string)

  datatype SignupForm = SignupForm(name: Option<string>, email: Option<string>, password: Option<string>)
  datatype SignupInput = SignupInput(name: string, email: string, password: string)

  datatype LoginForm = LoginForm(email: Option<string>, password: Option<string>)
  datatype LoginInput = LoginInput(email: string, password: string)

  /** The outcome of `safeParse`. */
  datatype Parsed<T> = Parsed(value: T) | Rejected(errors: map<string, seq<string>>)

  /** zod's message for a `null` where a string or an enum member was expected. */
  const NullString := "Expected string, received null"

  const StatusExpected := "'todo' | 'in-progress' | 'completed'"
  const PriorityExpected := "'low' | 'medium' | 'high'"

  /** A stand-in for zod's e-mail pattern: one `@` with a non-empty local part,
      a dot inside the domain, and no spaces. */
  predicate ValidEmail(s: string) {
    && ' ' !in s
    && exists i | 0 < i < |s| ::
         && s[i] == '@'
         && '@' !in s[..i]
         && '@' !in s[i + 1..]
         && exists j | i + 1 < j < |s| - 1 :: s[j] == '.'
  }

  /** JavaScript's `s.length`: UTF-16 code units, two for a character outside
      the Basic Multilingual Plane. */
  function Utf16Length(s: string): (n: nat)
    ensures |s| <= n <= 2 * |s|
  {
    if s == [] then 0 else (if s[0] as int >= 0x1_0000 then 2 else 1) + Utf16Length(s[1..])
  }

  /** `z.string().min(n, message)`, which compares `s.length`: the message for a
      failing value, or None. */
  function MinLength(v: Option<string>, n: nat, message: string): Option<string> {
    match v
    case None => Some(NullString)
    case Some(s) => if Utf16Length(s) < n then Some(message) else None
  }

  /** `z.string().optional()` fed from `FormData.get`. */
  function OptionalString(v: Option<string>): Option<string> {
    if v.None? then Some(NullString) else None
  }

  /** `z.string().email(message)`. */
  function Email(v: Option<string>, message: string): Option<string> {
    match v
    case None => Some(NullString)
    case Some(s) => if ValidEmail(s) then None else Some(message)
  }

  /** `z.enum(values).default(d)`: the default is never used for a `null`. */
  function Enum(v: Option<string>, values: set<string>, expected: string): Option<string> {
    match v
    case None => Some("Expected " + expected + ", received null")
    case Some(s) =>
      if s in values then None
      else Some("Invalid enum value. Expected " + expected + ", received '" + s + "'")
  }

  /** Adds one field's failure, if any, to the `fieldErrors` map. */
  function AddError(errors: map<string, seq<string>>, field: string, outcome: Option<string>): map<string, seq<string>> {
    if outcome.Some? then errors[field := [outcome.value]] else errors
  }

  /** `errors` reports exactly the outcome of one field's check. */
  predicate Reports(errors: map<string, seq<string>>, field: string, outcome: Option<string>) {
    && (field in errors <==> outcome.Some?)
    && (outcome.Some? ==> errors[field] == [outcome.value])
  }

  function ValidateProject(f: ProjectForm): (r: Parsed<ProjectInput>)
    ensures r.Parsed? <==> f.name.Some? && |f.name.value| >= 1 && f.description.Some?
    ensures r.Parsed? ==> r.value == ProjectInput(f.name.value, f.description.value)
    ensures r.Rejected? ==> r.errors != map[] && r.errors.Keys <= {"name", "description"}
    ensures r.Rejected? ==> Reports(r.errors, "name", MinLength(f.name, 1, "Project name is required"))
    ensures r.Rejected? ==> Reports(r.errors, "description", OptionalString(f.description))
  {
    var name := MinLength(f.name, 1, "Project name is required");
    var description := OptionalString(f.description);
    if name.None? && description.None? then Parsed(ProjectInput(f.name.value, f.description.value))
    else
      var errors := AddError(AddError(map[], "name", name), "description", description);
      assert "name" in errors || "description" in errors;
      Rejected(errors)
  }

  /** `taskSchema.safeParse`. `dueDate` is `z.string().optional().nullable()`, which
      accepts anything `FormData.get` can return, so it never fails. */
  function ValidateTask(f: TaskForm): (r: Parsed<TaskInput>)
    ensures r.Parsed? <==>
      && f.title.Some? && |f.title.value| >= 1
      && f.description.Some?
      && f.status.Some? && f.status.value in StatusValues
      && f.priority.Some? && f.priority.value in PriorityValues
      && f.projectId.Some? && |f.projectId.value| >= 1
    ensures r.Parsed? ==> r.value == TaskInput(f.title.value, f.description.value, f.status.value,
                                               f.priority.value, f.dueDate, f.projectId.value)
    ensures r.Rejected? ==> r.errors != map[]
    ensures r.Rejected? ==> r.errors.Keys <= {"title", "description", "status", "priority", "projectId"}
    ensures r.Rejected? ==> Reports(r.errors, "title", MinLength(f.title, 1, "Task title is required"))
    ensures r.Rejected? ==> Reports(r.errors, "description", OptionalString(f.description))
    ensures r.Rejected? ==> Reports(r.errors, "status", Enum(f.status, StatusValues, StatusExpected))
    ensures r.Rejected? ==> Reports(r.errors, "priority", Enum(f.priority, PriorityValues, PriorityExpected))
    ensures r.Rejected? ==> Reports(r.errors, "projectId", MinLength(f.projectId, 1, "Project ID is required"))
  {
    var title := MinLength(f.title, 1, "Task title is required");
    var description := OptionalString(f.description);
    var status := Enum(f.status, StatusValues, StatusExpected);
    var priority := Enum(f.priority, PriorityValues, PriorityExpected);
    var projectId := MinLength(f.projectId, 1, "Project ID is required");
    if title.None? && description.None? && status.None? && priority.None? && projectId.None? then
      Parsed(TaskInput(f.title.value, f.description.value, f.status.value,
                       f.priority.value, f.dueDate, f.projectId.value))
    else
      var e1 := AddError(map[], "title", title);
      var e2 := AddError(e1, "description", description);
      assert Reports(e2, "title", title) && e2.Keys <= {"title", "description"};
      var e3 := AddError(e2, "status", status);
      assert Reports(e3, "title", title) && Reports(e3, "description", description);
      var e4 := AddError(e3, "priority", priority);
      assert Reports(e4, "title", title) && Reports(e4, "description", description) && Reports(e4, "status", status);
      var errors := AddError(e4, "projectId", projectId);
      assert "title" in errors || "description" in errors || "status" in errors
        || "priority" in errors || "projectId" in errors;
      Rejected(errors)
  }

  function ValidateSignup(f: SignupForm): (r: Parsed<SignupInput>)
    ensures r.Parsed? <==>
      && f.name.Some? && Utf16Length(f.name.value) >= 2
      && f.email.Some? && ValidEmail(f.email.value)
      && f.password.Some? && Utf16Length(f.password.value) >= 8
    ensures r.Parsed? ==> r.value == SignupInput(f.name.value, f.email.value, f.password.value)
    ensures r.Rejected? ==> r.errors != map[] && r.errors.Keys <= {"name", "email", "password"}
    ensures r.Rejected? ==> Reports(r.errors, "name", MinLength(f.name, 2, "Name must be at least 2 characters"))
    ensures r.Rejected? ==> Reports(r.errors, "email", Email(f.email, "Invalid email address"))
    ensures r.Rejected? ==> Reports(r.errors, "password", MinLength(f.password, 8, "Password must be at least 8 characters"))
  {
    var name := MinLength(f.name, 2, "Name must be at least 2 characters");
    var email := Email(f.email, "Invalid email address");
    var password := MinLength(f.password, 8, "Password must be at least 8 characters");
    if name.None? && email.None? && password.None? then
      Parsed(SignupInput(f.name.value, f.email.value, f.password.value))
    else
      var errors := AddError(AddError(AddError(map[], "name", name), "email", email), "password", password);
      assert "name" in errors || "email" in errors || "password" in errors;
      Rejected(errors)
  }

  function ValidateLogin(f: LoginForm): (r: Parsed<LoginInput>)
    ensures r.Parsed? <==>
      && f.email.Some? && ValidEmail(f.email.value)
      && f.password.Some? && |f.password.value| >= 1
    ensures r.Parsed? ==> r.value == LoginInput(f.email.value, f.password.value)
    ensures r.Rejected? ==> r.errors != map[] && r.errors.Keys <= {"email", "password"}
    ensures r.Rejected? ==> Reports(r.errors, "email", Email(f.email, "Invalid email address"))
    ensures r.Rejected? ==> Reports(r.errors, "password", MinLength(f.password, 1, "Password is required"))
  {
    var email := Email(f.email, "Invalid email address");
    var password := MinLength(f.password, 1, "Password is required");
    if email.None? && password.None? then Parsed(LoginInput(f.email.value, f.password.value))
    else
      var errors := AddError(AddError(map[], "email", email), "password", password);
      assert "email" in errors || "password" in errors;
      Rejected(errors)
  }

  /** A name of one character outside the Basic Multilingual Plane has length 2
      in JavaScript, so it meets `min(2)`. */
  lemma AstralNameAccepted()
    ensures ValidateSignup(SignupForm(Some("\U{1D49C}"), Some("a@b.co"), Some("password"))).Parsed?
  {
    SampleEmail();
    var name: string := "\U{1D49C}";
    assert name[1..] == [];
    assert Utf16Length(name) == 2;
    var password: string := "password";
    assert |password| == 8;
    var f := SignupForm(Some(name), Some("a@b.co"), Some(password));
    assert f.name.Some? && Utf16Length(f.name.value) >= 2
      && f.email.Some? && ValidEmail(f.email.value)
      && f.password.Some? && Utf16Length(f.password.value) >= 8;
  }

  lemma SampleEmail()
    ensures ValidEmail("a@b.co")
  {
    var email: string := "a@b.co";
    assert email[1] == '@' && email[..1] == "a" && email[2..] == "b.co" && email[3] == '.';
  }
}

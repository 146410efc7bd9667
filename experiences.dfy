/** The experience validation schemas: three zod object schemas
    (professional, academic, project) joined by a union discriminated on
    `category`. Parsing an untyped input either yields typed form data or
    rejects it with the set of issues zod reports. Dates are milliseconds
    since the epoch and the clock (`new Date()`) is the parameter `now`. */
module ExperienceSchemas {
  import opened JsValues

  datatype Category = Professional | Academic | Project

  /** The `category` literal of each schema. */
  function CategoryName(c: Category): string
  {
    match c
    case Professional => "professional"
    case Academic => "academic"
    case Project => "project"
  }

  /** The union's discriminator lookup: the schema whose literal is exactly
      the value found under `category`. */
  function CategoryOfTag(tag: JsValue): (c: Option<Category>)
    ensures c.Some? <==> tag.Str? && tag.s in {"professional", "academic", "project"}
    ensures c.Some? ==> tag.s == CategoryName(c.value)
  {
    if tag == Str("professional") then Some(Professional)
    else if tag == Str("academic") then Some(Academic)
    else if tag == Str("project") then Some(Project)
    else None
  }

  /** The data of one experience, one shape per schema. Optional fields
      that were absent stay `None`. After a parse `isCurrent` carries its
      default (`Some(false)`), but the raw form values the page submits
      (`FormValues`) may leave it `None`. */
  datatype FormData =
    | ProfessionalForm(title: string, company: string, location: Option<string>,
                       startDate: int, endDate: Option<int>, isCurrent: Option<bool>,
                       description: string, skills: seq<string>,
                       skillsDescription: Option<map<string, string>>)
    | AcademicForm(title: string, institution: string,
                   startDate: int, endDate: Option<int>, isCurrent: Option<bool>,
                   description: string, skills: seq<string>,
                   skillsDescription: Option<map<string, string>>)
    | ProjectForm(title: string, description: string, skills: seq<string>,
                  skillsDescription: Option<map<string, string>>)
  {
    function Category(): Category
    {
      match this
      case ProfessionalForm(_, _, _, _, _, _, _, _, _) => Professional
      case AcademicForm(_, _, _, _, _, _, _, _) => Academic
      case ProjectForm(_, _, _, _) => Project
    }
  }

  /** One zod issue: the path of the offending value and its message. */
  datatype PathKey = Key(name: string) | Index(i: nat)
  datatype Issue = Issue(path: seq<PathKey>, message: string)

  datatype ParseResult = Parsed(data: FormData) | Rejected(issues: set<Issue>)

  // ---------------------------------------------------------------------
  // Field rules: the constants of the three schemas
  // ---------------------------------------------------------------------

  datatype Bound = Bound(limit: nat, message: string)

  /** `z.string({required_error, invalid_type_error}).min(..).max(..)` */
  datatype StringRule = StringRule(requiredError: Option<string>, typeError: string,
                                   min: Option<Bound>, max: Bound)

  /** `z.date({required_error, invalid_type_error}).refine(d <= now, ..)` */
  datatype DateRule = DateRule(requiredError: Option<string>, typeError: string,
                               futureError: string)

  const ProfessionalTitle := StringRule(Some("Job title is required"), "Job title must be text",
    Some(Bound(1, "Job title cannot be empty")), Bound(100, "Job title must be less than 100 characters"))
  const Company := StringRule(Some("Company name is required"), "Company name must be text",
    Some(Bound(1, "Company name cannot be empty")), Bound(100, "Company name must be less than 100 characters"))
  const Location := StringRule(None, "Location must be text",
    None, Bound(100, "Location must be less than 100 characters"))
  const ProfessionalDescription := StringRule(Some("Job description is required"), "Description must be text",
    Some(Bound(10, "Description must be at least 10 characters long")),
    Bound(500, "Description must be less than 500 characters"))

  const AcademicTitle := StringRule(Some("Degree or program title is required"), "Title must be text",
    Some(Bound(1, "Degree/program title cannot be empty")), Bound(150, "Title must be less than 150 characters"))
  const Institution := StringRule(Some("Institution name is required"), "Institution name must be text",
    Some(Bound(1, "Institution name cannot be empty")), Bound(100, "Institution name must be less than 100 characters"))
  const AcademicDescription := StringRule(Some("Academic experience description is required"), "Description must be text",
    Some(Bound(10, "Description must be at least 10 characters long")),
    Bound(500, "Description must be less than 500 characters"))

  const ProjectTitle := StringRule(Some("Project title is required"), "Project title must be text",
    Some(Bound(1, "Project title cannot be empty")), Bound(100, "Project title must be less than 100 characters"))
  const ProjectDescription := StringRule(Some("Project description is required"), "Description must be text",
    Some(Bound(10, "Description must be at least 10 characters long")),
    Bound(500, "Description must be less than 500 characters"))

  const StartDate := DateRule(Some("Start date is required"), "Please select a valid start date",
    "Start date cannot be in the future")
  const EndDate := DateRule(None, "Please select a valid end date", "End date cannot be in the future")

  const ProfessionalCurrentError := "Current position status must be true or false"
  const AcademicCurrentError := "Current status must be true or false"

  const SkillsTypeError := "Skills must be a list"
  const SkillsMin := Bound(1, "Please select at least one skill")
  const SkillsMax := Bound(20, "Maximum 20 skills allowed")

  const ProfessionalSkillNoteRequired := "Skill description is required"
  const AcademicSkillNoteRequired := "Skill description is required"
  const ProjectSkillNoteRequired := "Please provide a description of what you used this skill for"

  const DiscriminatorError := "Invalid discriminator value. Expected 'professional' | 'academic' | 'project'"

  // ---------------------------------------------------------------------
  // Issues, field by field
  // ---------------------------------------------------------------------

  /** The message of an `invalid_type` issue: a missing value reports the
      `required_error` (zod's "Required" without one), any other wrong type
      the `invalid_type_error` (zod's "Expected .., received .." without one). */
  function TypeMessage(expected: string, v: JsValue, requiredError: Option<string>,
                       typeError: Option<string>): string
  {
    if v.Undefined? then (if requiredError.Some? then requiredError.value else "Required")
    else if typeError.Some? then typeError.value
    else "Expected " + expected + ", received " + ParsedType(v)
  }

  /** All issues of this file sit under the path of the field that raised them. */
  ghost predicate Under(issues: set<Issue>, field: string)
  {
    forall i | i in issues :: |i.path| > 0 && i.path[0] == Key(field)
  }

  function StringIssues(field: string, v: JsValue, rule: StringRule): (r: set<Issue>)
    ensures Under(r, field)
  {
    var at := [Key(field)];
    match v
    case Str(s) =>
      (if rule.min.Some? && |s| < rule.min.value.limit then {Issue(at, rule.min.value.message)} else {})
      + (if |s| > rule.max.limit then {Issue(at, rule.max.message)} else {})
    case _ => {Issue(at, TypeMessage("string", v, rule.requiredError, Some(rule.typeError)))}
  }

  /** `.optional()` lets `undefined` through before the inner schema runs. */
  function OptionalStringIssues(field: string, v: JsValue, rule: StringRule): (r: set<Issue>)
    ensures Under(r, field)
  {
    if v.Undefined? then {} else StringIssues(field, v, rule)
  }

  /** A date that fails its type check (or is an invalid Date) never
      reaches the refinement. */
  function DateIssues(field: string, v: JsValue, rule: DateRule, now: int): (r: set<Issue>)
    ensures Under(r, field)
  {
    var at := [Key(field)];
    match v
    case Date(t) => if t <= now then {} else {Issue(at, rule.futureError)}
    case InvalidDate => {Issue(at, "Invalid date")}
    case _ => {Issue(at, TypeMessage("date", v, rule.requiredError, Some(rule.typeError)))}
  }

  /** `endDate`: `.optional().refine(date => date ? date <= now : true)`. */
  function OptionalDateIssues(field: string, v: JsValue, rule: DateRule, now: int): (r: set<Issue>)
    ensures Under(r, field)
  {
    if v.Undefined? then {} else DateIssues(field, v, rule, now)
  }

  /** `z.boolean({invalid_type_error}).default(false)`. */
  function CurrentIssues(v: JsValue, typeError: string): (r: set<Issue>)
    ensures Under(r, "isCurrent")
  {
    if v.Undefined? || v.Bool? then {} else {Issue([Key("isCurrent")], typeError)}
  }

  /** `z.array(z.string(), {invalid_type_error}).min(1).max(20).default([])`:
      an absent list becomes `[]` and then fails the minimum; the length
      checks run before the elements are checked. */
  function SkillsIssues(v: JsValue): (r: set<Issue>)
    ensures Under(r, "skills")
  {
    var at := [Key("skills")];
    match v
    case Undefined => {Issue(at, SkillsMin.message)}
    case Arr(items) =>
      (if |items| < SkillsMin.limit then {Issue(at, SkillsMin.message)} else {})
      + (if |items| > SkillsMax.limit then {Issue(at, SkillsMax.message)} else {})
      + ElementIssues(items)
    case _ => {Issue(at, SkillsTypeError)}
  }

  function ElementIssues(items: seq<JsValue>): (r: set<Issue>)
    ensures Under(r, "skills")
  {
    set i | 0 <= i < |items| && !items[i].Str? ::
      Issue([Key("skills"), Index(i)], TypeMessage("string", items[i], None, None))
  }

  /** `z.record(z.string({required_error})).optional()`. */
  function NotesIssues(v: JsValue, requiredError: string): (r: set<Issue>)
    ensures Under(r, "skillsDescription")
  {
    var at := [Key("skillsDescription")];
    match v
    case Undefined => {}
    case Obj(fields) =>
      set k | k in fields && !fields[k].Str? ::
        Issue([Key("skillsDescription"), Key(k)], TypeMessage("string", fields[k], Some(requiredError), None))
    case _ => {Issue(at, TypeMessage("object", v, None, None))}
  }

  /** The `professional` object schema: each issue sits under one of its
      declared keys. */
  function ProfessionalIssues(f: map<string, JsValue>, now: int): (r: set<Issue>)
    ensures forall i | i in r :: |i.path| > 0 && i.path[0].Key? && i.path[0].name in SchemaKeys(Professional)
  {
    StringIssues("title", Get(f, "title"), ProfessionalTitle)
    + StringIssues("company", Get(f, "company"), Company)
    + OptionalStringIssues("location", Get(f, "location"), Location)
    + DateIssues("startDate", Get(f, "startDate"), StartDate, now)
    + OptionalDateIssues("endDate", Get(f, "endDate"), EndDate, now)
    + CurrentIssues(Get(f, "isCurrent"), ProfessionalCurrentError)
    + StringIssues("description", Get(f, "description"), ProfessionalDescription)
    + SkillsIssues(Get(f, "skills"))
    + NotesIssues(Get(f, "skillsDescription"), ProfessionalSkillNoteRequired)
  }

  /** The `academic` object schema: each issue sits under one of its
      declared keys. */
  function AcademicIssues(f: map<string, JsValue>, now: int): (r: set<Issue>)
    ensures forall i | i in r :: |i.path| > 0 && i.path[0].Key? && i.path[0].name in SchemaKeys(Academic)
  {
    StringIssues("title", Get(f, "title"), AcademicTitle)
    + StringIssues("institution", Get(f, "institution"), Institution)
    + DateIssues("startDate", Get(f, "startDate"), StartDate, now)
    + OptionalDateIssues("endDate", Get(f, "endDate"), EndDate, now)
    + CurrentIssues(Get(f, "isCurrent"), AcademicCurrentError)
    + StringIssues("description", Get(f, "description"), AcademicDescription)
    + SkillsIssues(Get(f, "skills"))
    + NotesIssues(Get(f, "skillsDescription"), AcademicSkillNoteRequired)
  }

  /** The `project` object schema: each issue sits under one of its
      declared keys. */
  function ProjectIssues(f: map<string, JsValue>): (r: set<Issue>)
    ensures forall i | i in r :: |i.path| > 0 && i.path[0].Key? && i.path[0].name in SchemaKeys(Project)
  {
    StringIssues("title", Get(f, "title"), ProjectTitle)
    + StringIssues("description", Get(f, "description"), ProjectDescription)
    + SkillsIssues(Get(f, "skills"))
    + NotesIssues(Get(f, "skillsDescription"), ProjectSkillNoteRequired)
  }

  /** The keys each object schema declares. */
  function SchemaKeys(c: Category): set<string>
  {
    match c
    case Professional =>
      {"category", "title", "company", "location", "startDate", "endDate", "isCurrent",
       "description", "skills", "skillsDescription"}
    case Academic =>
      {"category", "title", "institution", "startDate", "endDate", "isCurrent",
       "description", "skills", "skillsDescription"}
    case Project => {"category", "title", "description", "skills", "skillsDescription"}
  }

  /** `experienceSchema`: the input must be an object whose `category`
      selects one of the three schemas; that schema's issues follow. A
      non-object or an unknown tag is always reported, and every issue of
      a selected schema sits under a key that schema declares: keys it
      does not declare are stripped, never reported. */
  function Issues(input: JsValue, now: int): (r: set<Issue>)
    ensures !input.Obj? ==> r != {}
    ensures input.Obj? && CategoryOfTag(Get(input.fields, "category")).None? ==>
      r == {Issue([Key("category")], DiscriminatorError)}
    ensures input.Obj? && CategoryOfTag(Get(input.fields, "category")).Some? ==>
      forall i | i in r :: |i.path| > 0 && i.path[0].Key? &&
        i.path[0].name in SchemaKeys(CategoryOfTag(Get(input.fields, "category")).value)
  {
    match input
    case Obj(f) =>
      (match CategoryOfTag(Get(f, "category"))
       case None => {Issue([Key("category")], DiscriminatorError)}
       case Some(Professional) => ProfessionalIssues(f, now)
       case Some(Academic) => AcademicIssues(f, now)
       case Some(Project) => ProjectIssues(f))
    case _ => {Issue([], TypeMessage("object", input, None, None))}
  }

  // ---------------------------------------------------------------------
  // What the schemas accept, stated field by field
  // ---------------------------------------------------------------------

  predicate TextWithin(v: JsValue, lo: nat, hi: nat) { v.Str? && lo <= |v.s| <= hi }
  predicate PastDate(v: JsValue, now: int) { v.Date? && v.time <= now }
  predicate SkillList(v: JsValue)
  {
    v.Arr? && 1 <= |v.items| <= 20 && forall i | 0 <= i < |v.items| :: v.items[i].Str?
  }
  predicate SkillNotes(v: JsValue)
  {
    v.Undefined? || (v.Obj? && forall k | k in v.fields :: v.fields[k].Str?)
  }

  predicate AcceptsProfessional(f: map<string, JsValue>, now: int)
  {
    && TextWithin(Get(f, "title"), 1, 100)
    && TextWithin(Get(f, "company"), 1, 100)
    && (Get(f, "location").Undefined? || TextWithin(Get(f, "location"), 0, 100))
    && PastDate(Get(f, "startDate"), now)
    && (Get(f, "endDate").Undefined? || PastDate(Get(f, "endDate"), now))
    && (Get(f, "isCurrent").Undefined? || Get(f, "isCurrent").Bool?)
    && TextWithin(Get(f, "description"), 10, 500)
    && SkillList(Get(f, "skills"))
    && SkillNotes(Get(f, "skillsDescription"))
  }

  predicate AcceptsAcademic(f: map<string, JsValue>, now: int)
  {
    && TextWithin(Get(f, "title"), 1, 150)
    && TextWithin(Get(f, "institution"), 1, 100)
    && PastDate(Get(f, "startDate"), now)
    && (Get(f, "endDate").Undefined? || PastDate(Get(f, "endDate"), now))
    && (Get(f, "isCurrent").Undefined? || Get(f, "isCurrent").Bool?)
    && TextWithin(Get(f, "description"), 10, 500)
    && SkillList(Get(f, "skills"))
    && SkillNotes(Get(f, "skillsDescription"))
  }

  predicate AcceptsProject(f: map<string, JsValue>)
  {
    && TextWithin(Get(f, "title"), 1, 100)
    && TextWithin(Get(f, "description"), 10, 500)
    && SkillList(Get(f, "skills"))
    && SkillNotes(Get(f, "skillsDescription"))
  }

  /** What the union accepts. Whatever the category, an accepted entry
      has a description of 10 to 500 characters and 1 to 20 skills. */
  function Accepts(input: JsValue, now: int): (r: bool)
    ensures r ==> input.Obj? && CategoryOfTag(Get(input.fields, "category")).Some?
    ensures r ==> TextWithin(Get(input.fields, "description"), 10, 500)
    ensures r ==> SkillList(Get(input.fields, "skills"))
  {
    && input.Obj?
    && match CategoryOfTag(Get(input.fields, "category"))
       case None => false
       case Some(Professional) => AcceptsProfessional(input.fields, now)
       case Some(Academic) => AcceptsAcademic(input.fields, now)
       case Some(Project) => AcceptsProject(input.fields)
  }

  // ---------------------------------------------------------------------
  // Each field check reports nothing exactly when the field is acceptable
  // ---------------------------------------------------------------------

  lemma StringIssuesNone(field: string, v: JsValue, rule: StringRule, lo: nat)
    requires lo == if rule.min.Some? then rule.min.value.limit else 0
    ensures StringIssues(field, v, rule) == {} <==> TextWithin(v, lo, rule.max.limit)
  {
    if v.Str? && !TextWithin(v, lo, rule.max.limit) {
      if |v.s| < lo {
        assert Issue([Key(field)], rule.min.value.message) in StringIssues(field, v, rule);
      } else {
        assert Issue([Key(field)], rule.max.message) in StringIssues(field, v, rule);
      }
    }
  }

  lemma DateIssuesNone(field: string, v: JsValue, rule: DateRule, now: int)
    ensures DateIssues(field, v, rule, now) == {} <==> PastDate(v, now)
  {
  }

  lemma {:induction false} ElementIssuesNone(items: seq<JsValue>)
    ensures ElementIssues(items) == {} <==> forall i | 0 <= i < |items| :: items[i].Str?
  {
    if exists i | 0 <= i < |items| :: !items[i].Str? {
      var i :| 0 <= i < |items| && !items[i].Str?;
      assert Issue([Key("skills"), Index(i)], TypeMessage("string", items[i], None, None)) in ElementIssues(items);
    }
  }

  lemma SkillsIssuesNone(v: JsValue)
    ensures SkillsIssues(v) == {} <==> SkillList(v)
  {
    if v.Arr? {
      ElementIssuesNone(v.items);
      if |v.items| < 1 {
        assert Issue([Key("skills")], SkillsMin.message) in SkillsIssues(v);
      } else if |v.items| > 20 {
        assert Issue([Key("skills")], SkillsMax.message) in SkillsIssues(v);
      }
    }
  }

  lemma NotesIssuesNone(v: JsValue, requiredError: string)
    ensures NotesIssues(v, requiredError) == {} <==> SkillNotes(v)
  {
    if v.Obj? && !SkillNotes(v) {
      var k :| k in v.fields && !v.fields[k].Str?;
      assert Issue([Key("skillsDescription"), Key(k)],
                   TypeMessage("string", v.fields[k], Some(requiredError), None))
        in NotesIssues(v, requiredError);
    }
  }

  lemma ProfessionalIssuesNone(f: map<string, JsValue>, now: int)
    ensures ProfessionalIssues(f, now) == {} <==> AcceptsProfessional(f, now)
  {
    StringIssuesNone("title", Get(f, "title"), ProfessionalTitle, 1);
    StringIssuesNone("company", Get(f, "company"), Company, 1);
    StringIssuesNone("location", Get(f, "location"), Location, 0);
    DateIssuesNone("startDate", Get(f, "startDate"), StartDate, now);
    DateIssuesNone("endDate", Get(f, "endDate"), EndDate, now);
    StringIssuesNone("description", Get(f, "description"), ProfessionalDescription, 10);
    SkillsIssuesNone(Get(f, "skills"));
    NotesIssuesNone(Get(f, "skillsDescription"), ProfessionalSkillNoteRequired);
  }

  lemma AcademicIssuesNone(f: map<string, JsValue>, now: int)
    ensures AcademicIssues(f, now) == {} <==> AcceptsAcademic(f, now)
  {
    StringIssuesNone("title", Get(f, "title"), AcademicTitle, 1);
    StringIssuesNone("institution", Get(f, "institution"), Institution, 1);
    DateIssuesNone("startDate", Get(f, "startDate"), StartDate, now);
    DateIssuesNone("endDate", Get(f, "endDate"), EndDate, now);
    StringIssuesNone("description", Get(f, "description"), AcademicDescription, 10);
    SkillsIssuesNone(Get(f, "skills"));
    NotesIssuesNone(Get(f, "skillsDescription"), AcademicSkillNoteRequired);
  }

  lemma ProjectIssuesNone(f: map<string, JsValue>)
    ensures ProjectIssues(f) == {} <==> AcceptsProject(f)
  {
    StringIssuesNone("title", Get(f, "title"), ProjectTitle, 1);
    StringIssuesNone("description", Get(f, "description"), ProjectDescription, 10);
    SkillsIssuesNone(Get(f, "skills"));
    NotesIssuesNone(Get(f, "skillsDescription"), ProjectSkillNoteRequired);
  }

  /** The check-based issue list and the field-by-field statement of what
      the schemas accept agree: zod reports no issue exactly when the
      input is accepted. */
  lemma IssuesNoneIffAccepts(input: JsValue, now: int)
    ensures Issues(input, now) == {} <==> Accepts(input, now)
  {
    if input.Obj? {
      var f := input.fields;
      match CategoryOfTag(Get(f, "category"))
      case None =>
      case Some(Professional) => ProfessionalIssuesNone(f, now);
      case Some(Academic) => AcademicIssuesNone(f, now);
      case Some(Project) => ProjectIssuesNone(f);
    }
  }

  // ---------------------------------------------------------------------
  // Parsing
  // ---------------------------------------------------------------------

  function OptionalText(v: JsValue): Option<string>
  {
    if v.Str? then Some(v.s) else None
  }

  function OptionalTime(v: JsValue): Option<int>
  {
    if v.Date? then Some(v.time) else None
  }

  function Texts(items: seq<JsValue>): (r: seq<string>)
    requires forall i | 0 <= i < |items| :: items[i].Str?
    ensures |r| == |items| && forall i | 0 <= i < |items| :: r[i] == items[i].s
  {
    seq(|items|, i requires 0 <= i < |items| => items[i].s)
  }

  function Notes(v: JsValue): Option<map<string, string>>
    requires SkillNotes(v)
  {
    if v.Obj? then Some(map k | k in v.fields :: v.fields[k].s) else None
  }

  /** The typed value of an accepted input: unknown keys are stripped,
      absent optionals stay absent, `isCurrent` defaults to false. */
  function Build(input: JsValue, now: int): (r: FormData)
    requires Accepts(input, now)
    ensures Some(r.Category()) == CategoryOfTag(Get(input.fields, "category"))
    ensures Get(input.fields, "title") == Str(r.title)
    ensures |r.skills| == |Get(input.fields, "skills").items|
    ensures !r.ProjectForm? ==> r.isCurrent == Some(Get(input.fields, "isCurrent") == Bool(true))
  {
    var f := input.fields;
    var current := Get(f, "isCurrent");
    match CategoryOfTag(Get(f, "category"))
    case Some(Professional) =>
      ProfessionalForm(Get(f, "title").s, Get(f, "company").s, OptionalText(Get(f, "location")),
        Get(f, "startDate").time, OptionalTime(Get(f, "endDate")),
        Some(current.Bool? && current.b), Get(f, "description").s,
        Texts(Get(f, "skills").items), Notes(Get(f, "skillsDescription")))
    case Some(Academic) =>
      AcademicForm(Get(f, "title").s, Get(f, "institution").s,
        Get(f, "startDate").time, OptionalTime(Get(f, "endDate")),
        Some(current.Bool? && current.b), Get(f, "description").s,
        Texts(Get(f, "skills").items), Notes(Get(f, "skillsDescription")))
    case Some(Project) =>
      ProjectForm(Get(f, "title").s, Get(f, "description").s,
        Texts(Get(f, "skills").items), Notes(Get(f, "skillsDescription")))
  }

  /** `experienceSchema.safeParse(input)` with the clock read as `now`. */
  function Parse(input: JsValue, now: int): (r: ParseResult)
    ensures r.Parsed? <==> Accepts(input, now)
    ensures r.Rejected? ==> r.issues != {} && r.issues == Issues(input, now)
    ensures r.Parsed? ==> CategoryOfTag(Get(input.fields, "category")) == Some(r.data.Category())
  {
    IssuesNoneIffAccepts(input, now);
    var issues := Issues(input, now);
    if issues == {} then Parsed(Build(input, now)) else Rejected(issues)
  }
}

/** What the schemas promise field by field: whether zod reports an issue
    under a field depends on that field alone, and the bounds are those of
    the schema constants. */
module SchemaProperties {
  import opened JsValues
  import opened ExperienceSchemas

  /** zod reported at least one issue under `field`. */
  ghost predicate Reported(input: JsValue, now: int, field: string)
  {
    exists i | i in Issues(input, now) :: |i.path| > 0 && i.path[0] == Key(field)
  }

  lemma DescriptionRule(f: map<string, JsValue>, now: int)
    requires CategoryOfTag(Get(f, "category")).Some?
    ensures Reported(Obj(f), now, "description") <==> !TextWithin(Get(f, "description"), 10, 500)
  {
    var c := CategoryOfTag(Get(f, "category")).value;
    var v := Get(f, "description");
    var rule := match c case Professional => ProfessionalDescription
                        case Academic => AcademicDescription
                        case Project => ProjectDescription;
    StringIssuesNone("description", v, rule, 10);
    if !TextWithin(v, 10, 500) {
      var i :| i in StringIssues("description", v, rule);
      assert i in Issues(Obj(f), now);
    }
  }

  function TitleLimit(c: Category): nat
  {
    if c == Academic then 150 else 100
  }

  lemma TitleRule(f: map<string, JsValue>, now: int)
    requires CategoryOfTag(Get(f, "category")).Some?
    ensures var c := CategoryOfTag(Get(f, "category")).value;
      Reported(Obj(f), now, "title") <==> !TextWithin(Get(f, "title"), 1, TitleLimit(c))
  {
    var c := CategoryOfTag(Get(f, "category")).value;
    var v := Get(f, "title");
    var rule := match c case Professional => ProfessionalTitle
                        case Academic => AcademicTitle
                        case Project => ProjectTitle;
    StringIssuesNone("title", v, rule, 1);
    if !TextWithin(v, 1, TitleLimit(c)) {
      var i :| i in StringIssues("title", v, rule);
      assert i in Issues(Obj(f), now);
    }
  }

  /** `company` is required of professional entries, with 1 to 100 characters. */
  lemma CompanyRule(f: map<string, JsValue>, now: int)
    requires Get(f, "category") == Str("professional")
    ensures Reported(Obj(f), now, "company") <==> !TextWithin(Get(f, "company"), 1, 100)
  {
    var v := Get(f, "company");
    StringIssuesNone("company", v, Company, 1);
    if !TextWithin(v, 1, 100) {
      var i :| i in StringIssues("company", v, Company);
      assert i in Issues(Obj(f), now);
    }
  }

  /** `institution` is required of academic entries, with 1 to 100 characters. */
  lemma InstitutionRule(f: map<string, JsValue>, now: int)
    requires Get(f, "category") == Str("academic")
    ensures Reported(Obj(f), now, "institution") <==> !TextWithin(Get(f, "institution"), 1, 100)
  {
    var v := Get(f, "institution");
    StringIssuesNone("institution", v, Institution, 1);
    if !TextWithin(v, 1, 100) {
      var i :| i in StringIssues("institution", v, Institution);
      assert i in Issues(Obj(f), now);
    }
  }

  /** A professional `location` may be absent; when present it is text of
      at most 100 characters. The other schemas strip the key unchecked. */
  lemma LocationRule(f: map<string, JsValue>, now: int)
    requires CategoryOfTag(Get(f, "category")).Some?
    ensures var v := Get(f, "location");
      Reported(Obj(f), now, "location") <==>
        Get(f, "category") == Str("professional") && !v.Undefined? && !TextWithin(v, 0, 100)
  {
    var v := Get(f, "location");
    StringIssuesNone("location", v, Location, 0);
    if Get(f, "category") == Str("professional") && !v.Undefined? && !TextWithin(v, 0, 100) {
      var i :| i in StringIssues("location", v, Location);
      assert i in Issues(Obj(f), now);
    }
  }

  /** `startDate` is a required Date no later than `now` in the dated
      schemas; the project schema strips it unchecked. */
  lemma StartDateRule(f: map<string, JsValue>, now: int)
    requires CategoryOfTag(Get(f, "category")).Some?
    ensures var dated := CategoryOfTag(Get(f, "category")).value != Project;
      Reported(Obj(f), now, "startDate") <==> dated && !PastDate(Get(f, "startDate"), now)
  {
    var v := Get(f, "startDate");
    DateIssuesNone("startDate", v, StartDate, now);
    if CategoryOfTag(Get(f, "category")).value != Project && !PastDate(v, now) {
      var i :| i in DateIssues("startDate", v, StartDate, now);
      assert i in Issues(Obj(f), now);
    }
  }

  /** `endDate` may be absent; when present it is a Date no later than
      `now`. Nothing compares it with `startDate` or with `isCurrent`. */
  lemma EndDateRule(f: map<string, JsValue>, now: int)
    requires CategoryOfTag(Get(f, "category")).Some?
    ensures var dated := CategoryOfTag(Get(f, "category")).value != Project;
      var v := Get(f, "endDate");
      Reported(Obj(f), now, "endDate") <==> dated && !v.Undefined? && !PastDate(v, now)
  {
    var v := Get(f, "endDate");
    DateIssuesNone("endDate", v, EndDate, now);
    if CategoryOfTag(Get(f, "category")).value != Project && !v.Undefined? && !PastDate(v, now) {
      var i :| i in DateIssues("endDate", v, EndDate, now);
      assert i in Issues(Obj(f), now);
    }
    if Reported(Obj(f), now, "endDate") {
      var i :| i in Issues(Obj(f), now) && |i.path| > 0 && i.path[0] == Key("endDate");
      EndDateIssueSource(f, now, i);
    }
  }

  /** An issue under `endDate` comes from the end date's own check, in a
      dated schema. */
  lemma EndDateIssueSource(f: map<string, JsValue>, now: int, i: Issue)
    requires CategoryOfTag(Get(f, "category")).Some?
    requires i in Issues(Obj(f), now) && |i.path| > 0 && i.path[0] == Key("endDate")
    ensures CategoryOfTag(Get(f, "category")).value != Project
    ensures i in OptionalDateIssues("endDate", Get(f, "endDate"), EndDate, now)
  {
    var c := CategoryOfTag(Get(f, "category")).value;
    assert "endDate" in SchemaKeys(c);
    if c == Professional {
      assert i in ProfessionalIssues(f, now);
    } else {
      assert i in AcademicIssues(f, now);
    }
  }

  /** `isCurrent` may be absent (it then defaults to false) or a boolean. */
  lemma CurrentRule(f: map<string, JsValue>, now: int)
    requires CategoryOfTag(Get(f, "category")).Some?
    ensures var dated := CategoryOfTag(Get(f, "category")).value != Project;
      var v := Get(f, "isCurrent");
      Reported(Obj(f), now, "isCurrent") <==> dated && !v.Undefined? && !v.Bool?
  {
    var v := Get(f, "isCurrent");
    if CategoryOfTag(Get(f, "category")).value != Project && !v.Undefined? && !v.Bool? {
      var msg := if Get(f, "category") == Str("professional") then ProfessionalCurrentError
                 else AcademicCurrentError;
      assert Issue([Key("isCurrent")], msg) in Issues(Obj(f), now);
    }
  }

  /** In every schema the skills are a list of 1 to 20 strings; duplicates
      are not looked for. */
  lemma SkillsRule(f: map<string, JsValue>, now: int)
    requires CategoryOfTag(Get(f, "category")).Some?
    ensures Reported(Obj(f), now, "skills") <==> !SkillList(Get(f, "skills"))
  {
    var v := Get(f, "skills");
    SkillsIssuesNone(v);
    if !SkillList(v) {
      var i :| i in SkillsIssues(v);
      assert i in Issues(Obj(f), now);
    }
  }

  /** An absent skills list takes the default `[]`, which the minimum then
      rejects with its own message. */
  lemma MissingSkillsRejected(f: map<string, JsValue>, now: int)
    requires CategoryOfTag(Get(f, "category")).Some?
    requires "skills" !in f
    ensures Issue([Key("skills")], "Please select at least one skill") in Issues(Obj(f), now)
    ensures Parse(Obj(f), now).Rejected?
  {
    assert Issue([Key("skills")], SkillsMin.message) in SkillsIssues(Get(f, "skills"));
  }

  /** `skillsDescription` may be absent; when present it is an object whose
      every value is a string. */
  lemma SkillNotesRule(f: map<string, JsValue>, now: int)
    requires CategoryOfTag(Get(f, "category")).Some?
    ensures Reported(Obj(f), now, "skillsDescription") <==> !SkillNotes(Get(f, "skillsDescription"))
  {
    var v := Get(f, "skillsDescription");
    var msg := if Get(f, "category") == Str("project") then ProjectSkillNoteRequired
               else ProfessionalSkillNoteRequired;
    NotesIssuesNone(v, msg);
    if !SkillNotes(v) {
      var i :| i in NotesIssues(v, msg);
      assert i in Issues(Obj(f), now);
    }
  }

  /** Any `category` other than the three literals is rejected with the
      discriminator issue alone, whatever the other fields hold. */
  lemma UnknownCategoryRejected(f: map<string, JsValue>, now: int)
    requires !(Get(f, "category").Str? && Get(f, "category").s in {"professional", "academic", "project"})
    ensures Parse(Obj(f), now) == Rejected({Issue([Key("category")], DiscriminatorError)})
  {
  }

  /** What a successful parse yields: the input's own values, with the
      category chosen by the tag, absent optionals left absent and
      `isCurrent` defaulting to false. */
  lemma ParsedValues(f: map<string, JsValue>, now: int)
    requires Parse(Obj(f), now).Parsed?
    ensures var d := Parse(Obj(f), now).data;
      && Get(f, "category") == Str(CategoryName(d.Category()))
      && Get(f, "title") == Str(d.title)
      && Get(f, "description") == Str(d.description)
      && 10 <= |d.description| <= 500
      && 1 <= |d.skills| <= 20
      && |d.skills| == |Get(f, "skills").items|
      && (forall i | 0 <= i < |d.skills| :: Get(f, "skills").items[i] == Str(d.skills[i]))
      && (d.skillsDescription.None? <==> Get(f, "skillsDescription").Undefined?)
      && (d.skillsDescription.Some? ==>
            && Get(f, "skillsDescription").Obj?
            && d.skillsDescription.value.Keys == Get(f, "skillsDescription").fields.Keys
            && forall k | k in d.skillsDescription.value ::
                 Get(f, "skillsDescription").fields[k] == Str(d.skillsDescription.value[k]))
      && (!d.ProjectForm? ==>
            && Get(f, "startDate") == Date(d.startDate) && d.startDate <= now
            && (d.endDate.None? <==> Get(f, "endDate").Undefined?)
            && (d.endDate.Some? ==> Get(f, "endDate") == Date(d.endDate.value) && d.endDate.value <= now)
            && d.isCurrent == Some(Get(f, "isCurrent") == Bool(true)))
      && (d.ProfessionalForm? ==>
            && Get(f, "company") == Str(d.company)
            && (d.location.None? <==> Get(f, "location").Undefined?)
            && (Get(f, "location").Str? ==> d.location == Some(Get(f, "location").s)))
      && (d.AcademicForm? ==> Get(f, "institution") == Str(d.institution))
  {
  }
}

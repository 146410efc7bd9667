/** The form-to-wire transformer: each category's parsed form data is
    renamed into the outbound `Experience` record, and a batch of them is
    mapped in order into the payload of the batch-create request. */
module ExperienceTransform {
  import opened JsValues
  import opened ExperienceSchemas

  /** The object literal each transformer returns. A field holding `None`
      is a key whose value is `undefined` (or a key the literal does not
      write). The sub-name is written under the key `subname`. */
  datatype Experience = Experience(
    category: Category,
    name: string,
    subname: Option<string>,
    startDate: Option<int>,
    endDate: Option<int>,
    isCurrent: Option<bool>,
    location: Option<string>,
    description: string,
    skills: seq<string>,
    skillsDescription: Option<map<string, string>>)

  function TransformProfessional(d: FormData): (e: Experience)
    requires d.ProfessionalForm?
    ensures e.category == Professional && e.name == d.title && e.subname == Some(d.company)
    ensures e.startDate == Some(d.startDate) && e.endDate == d.endDate && e.location == d.location
  {
    Experience(Professional, d.title, Some(d.company), Some(d.startDate), d.endDate,
               d.isCurrent, d.location, d.description, d.skills, d.skillsDescription)
  }

  function TransformAcademic(d: FormData): (e: Experience)
    requires d.AcademicForm?
    ensures e.category == Academic && e.name == d.title && e.subname == Some(d.institution)
    ensures e.startDate == Some(d.startDate) && e.endDate == d.endDate && e.location.None?
  {
    Experience(Academic, d.title, Some(d.institution), Some(d.startDate), d.endDate,
               d.isCurrent, None, d.description, d.skills, d.skillsDescription)
  }

  function TransformProject(d: FormData): (e: Experience)
    requires d.ProjectForm?
    ensures e.category == Project && e.name == d.title && e.skills == d.skills
    ensures e.subname.None? && e.startDate.None? && e.endDate.None? && e.isCurrent.None? && e.location.None?
  {
    Experience(Project, d.title, None, None, None, None, None,
               d.description, d.skills, d.skillsDescription)
  }

  /** `transformExperienceFormData`: dispatch on the category tag. The
      category set is closed, so the `undefined` fall-through of the
      source cannot be reached. */
  function TransformExperienceFormData(d: FormData): (e: Experience)
    ensures e.category == d.Category()
  {
    match d
    case ProfessionalForm(_, _, _, _, _, _, _, _, _) => TransformProfessional(d)
    case AcademicForm(_, _, _, _, _, _, _, _) => TransformAcademic(d)
    case ProjectForm(_, _, _, _) => TransformProject(d)
  }

  /** The keys `JSON.stringify` writes for the record: keys whose value is
      `undefined` are dropped. */
  function WireKeys(e: Experience): (keys: set<string>)
    ensures {"category", "name", "description", "skills"} <= keys
    ensures "subName" !in keys
    ensures "subname" in keys <==> e.subname.Some?
  {
    {"category", "name", "description", "skills"}
    + (if e.subname.Some? then {"subname"} else {})
    + (if e.startDate.Some? then {"startDate"} else {})
    + (if e.endDate.Some? then {"endDate"} else {})
    + (if e.isCurrent.Some? then {"isCurrent"} else {})
    + (if e.location.Some? then {"location"} else {})
    + (if e.skillsDescription.Some? then {"skillsDescription"} else {})
  }

  /** The inverse direction, used only to state that the transform loses
      nothing: the form data a record was made from. */
  function Restore(e: Experience): Option<FormData>
  {
    match e.category
    case Professional =>
      if e.subname.Some? && e.startDate.Some? then
        Some(ProfessionalForm(e.name, e.subname.value, e.location, e.startDate.value, e.endDate,
                              e.isCurrent, e.description, e.skills, e.skillsDescription))
      else None
    case Academic =>
      if e.subname.Some? && e.startDate.Some? && e.location.None? then
        Some(AcademicForm(e.name, e.subname.value, e.startDate.value, e.endDate,
                          e.isCurrent, e.description, e.skills, e.skillsDescription))
      else None
    case Project =>
      if e.subname.None? && e.startDate.None? && e.endDate.None? && e.isCurrent.None? && e.location.None? then
        Some(ProjectForm(e.name, e.description, e.skills, e.skillsDescription))
      else None
  }

  /** The transform is lossless for every category. */
  lemma TransformRoundTrip(d: FormData)
    ensures Restore(TransformExperienceFormData(d)) == Some(d)
  {
  }

  /** Field by field: `title` becomes `name`; company or institution becomes
      `subname`; dates and `isCurrent` are copied as they are (an `endDate`
      survives `isCurrent == true`); `location` only for professional
      entries; `skills` (in order) and `skillsDescription` unchanged. */
  lemma TransformFields(d: FormData)
    ensures var e := TransformExperienceFormData(d);
      && e.name == d.title
      && e.description == d.description
      && e.skills == d.skills
      && e.skillsDescription == d.skillsDescription
      && (d.ProfessionalForm? ==> e.subname == Some(d.company) && e.location == d.location)
      && (d.AcademicForm? ==> e.subname == Some(d.institution) && e.location.None?)
      && (!d.ProjectForm? ==>
            && e.startDate == Some(d.startDate)
            && e.endDate == d.endDate
            && e.isCurrent == d.isCurrent)
      && (d.ProjectForm? ==>
            e.subname.None? && e.startDate.None? && e.endDate.None? && e.isCurrent.None? && e.location.None?)
  {
  }

  /** What goes on the wire: a project record carries only its category,
      name, description, skills and (when given) skill notes; the sub-name
      travels as `subname`, never as the `subName` the `Experience` type
      declares. */
  lemma WireShape(d: FormData)
    ensures var keys := WireKeys(TransformExperienceFormData(d));
      && "subName" !in keys
      && ("subname" in keys <==> !d.ProjectForm?)
      && ("startDate" in keys <==> !d.ProjectForm?)
      && ("isCurrent" in keys <==> !d.ProjectForm? && d.isCurrent.Some?)
      && ("endDate" in keys <==> !d.ProjectForm? && d.endDate.Some?)
      && ("location" in keys <==> d.ProfessionalForm? && d.location.Some?)
      && ("skillsDescription" in keys <==> d.skillsDescription.Some?)
      && (d.ProjectForm? ==>
            keys <= {"category", "name", "description", "skills", "skillsDescription"})
  {
  }

  /** `data.map(transformExperienceFormData).filter(Boolean)`: every record
      is an object, so the filter keeps them all. */
  function CreateExperiencesPayload(data: seq<FormData>): (r: seq<Experience>)
    ensures |r| == |data|
    ensures forall i | 0 <= i < |data| :: r[i].category == data[i].Category()
  {
    if data == [] then []
    else [TransformExperienceFormData(data[0])] + CreateExperiencesPayload(data[1..])
  }

  /** The batch keeps one record per entry, in the entries' order. */
  lemma {:induction false} PayloadInOrder(data: seq<FormData>)
    ensures |CreateExperiencesPayload(data)| == |data|
    ensures forall i | 0 <= i < |data| ::
      CreateExperiencesPayload(data)[i] == TransformExperienceFormData(data[i])
  {
    if data != [] {
      PayloadInOrder(data[1..]);
    }
  }

  /** Batching two lists is batching each and concatenating. */
  lemma {:induction false} PayloadAppend(a: seq<FormData>, b: seq<FormData>)
    ensures CreateExperiencesPayload(a + b) == CreateExperiencesPayload(a) + CreateExperiencesPayload(b)
  {
    if a != [] {
      assert (a + b)[1..] == a[1..] + b;
      PayloadAppend(a[1..], b);
    } else {
      assert a + b == b;
    }
  }
}

/** What the create page submits. Each form is validated with `trigger`,
    but the values sent are `getValues()`, the form's own state, not zod's
    parsed output. The two differ only in `isCurrent`: zod's
    `.default(false)` is never applied, so a checkbox nobody touched stays
    absent. */
module FormSubmission {
  import opened JsValues
  import opened ExperienceSchemas
  import opened ExperienceTransform

  /** `validateAndGetValues()` on a form whose state validates. */
  function FormValues(input: JsValue, now: int): (d: FormData)
    requires Accepts(input, now)
    ensures Some(d.Category()) == CategoryOfTag(Get(input.fields, "category"))
    ensures !d.ProjectForm? ==>
      d.isCurrent == (if Get(input.fields, "isCurrent").Bool? then Some(Get(input.fields, "isCurrent").b) else None)
    ensures d.ProjectForm? ==> d == Build(input, now)
  {
    var parsed := Build(input, now);
    var current := Get(input.fields, "isCurrent");
    if parsed.ProjectForm? then parsed
    else parsed.(isCurrent := if current.Bool? then Some(current.b) else None)
  }

  /** A dated entry whose checkbox was never touched: the parse would
      default `isCurrent` to false, but the record actually sent has no
      `isCurrent` key at all. */
  lemma UntouchedCheckboxOmitsIsCurrent(f: map<string, JsValue>, now: int)
    requires Accepts(Obj(f), now)
    requires Get(f, "category") != Str("project")
    requires "isCurrent" !in f
    ensures Parse(Obj(f), now).data.isCurrent == Some(false)
    ensures "isCurrent" in WireKeys(TransformExperienceFormData(Parse(Obj(f), now).data))
    ensures "isCurrent" !in WireKeys(TransformExperienceFormData(FormValues(Obj(f), now)))
  {
    IssuesNoneIffAccepts(Obj(f), now);
    var p := Build(Obj(f), now);
    assert Parse(Obj(f), now).data == p;
    assert !p.ProjectForm? by {
      assert CategoryOfTag(Get(f, "category")) != Some(Project);
    }
    var v := FormValues(Obj(f), now);
    assert v.isCurrent.None?;
    WireShape(p);
    WireShape(v);
  }

  /** Apart from `isCurrent`, the submitted values are the parsed ones. */
  lemma SubmittedMatchesParsed(f: map<string, JsValue>, now: int)
    requires Accepts(Obj(f), now)
    ensures var p := Parse(Obj(f), now).data;
      var v := FormValues(Obj(f), now);
      p.ProjectForm? ==> v == p
    ensures var p := Parse(Obj(f), now).data;
      var v := FormValues(Obj(f), now);
      !p.ProjectForm? ==> v == p.(isCurrent := v.isCurrent)
  {
  }
}

/** Parsing and transforming together, on concrete inputs. */
module ExperienceScenarios {
  import opened JsValues
  import opened ExperienceSchemas
  import opened ExperienceTransform

  const Description := "Built a personal portfolio using modern tooling."

  /** A project with one skill parses, and its record carries exactly the
      category, name, description and skills (no skill notes key, since
      none were given). */
  lemma PortfolioProject(now: int)
    ensures var input := Obj(map["category" := Str("project"), "title" := Str("Portfolio Site"),
                                 "description" := Str(Description), "skills" := Arr([Str("react")])]);
      && Parse(input, now) == Parsed(ProjectForm("Portfolio Site", Description, ["react"], None))
      && CreateExperiencesPayload([Parse(input, now).data])
           == [Experience(Project, "Portfolio Site", None, None, None, None, None, Description, ["react"], None)]
  {
    var input := Obj(map["category" := Str("project"), "title" := Str("Portfolio Site"),
                         "description" := Str(Description), "skills" := Arr([Str("react")])]);
    assert Accepts(input, now);
    var d := Parse(input, now).data;
    assert Texts([Str("react")]) == ["react"];
    assert d == ProjectForm("Portfolio Site", Description, ["react"], None);
    PayloadInOrder([d]);
  }

  /** Nothing checks the order of the dates or `isCurrent` against
      `endDate`: an entry that is current, ends before it starts, and names
      the same skill twice is accepted, and its record keeps the end date. */
  lemma CurrentEntryKeepsEndDate()
    ensures var input := Obj(map["category" := Str("academic"), "title" := Str("BSc"),
                                 "institution" := Str("UFMG"), "startDate" := Date(2000),
                                 "endDate" := Date(1000), "isCurrent" := Bool(true),
                                 "description" := Str(Description),
                                 "skills" := Arr([Str("go"), Str("go")])]);
      && Parse(input, 5000).Parsed?
      && Parse(input, 5000).data.isCurrent == Some(true)
      && Parse(input, 5000).data.skills == ["go", "go"]
      && TransformExperienceFormData(Parse(input, 5000).data).endDate == Some(1000)
  {
    var input := Obj(map["category" := Str("academic"), "title" := Str("BSc"),
                         "institution" := Str("UFMG"), "startDate" := Date(2000),
                         "endDate" := Date(1000), "isCurrent" := Bool(true),
                         "description" := Str(Description),
                         "skills" := Arr([Str("go"), Str("go")])]);
    assert Accepts(input, 5000);
    assert Texts([Str("go"), Str("go")]) == ["go", "go"];
  }
}

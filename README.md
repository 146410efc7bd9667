# Experience forms, route guard and form widgets — a Dafny model

This project models the logic of a Next.js application in which a user
keeps a profile of "experiences": professional roles, academic programs
and projects. The logic has six small parts, one Dafny module each:

- **Validation schemas** (`experiences.dfy`, modules `ExperienceSchemas`
  and `SchemaProperties`). The three zod object schemas are joined by a
  union that is discriminated on `category`. The model runs zod's parse
  over an untyped JavaScript value (`JsValue`, in `js_values.dfy`). The
  result is either typed `FormData` or the set of issues zod reports,
  each with its path and message. Every bound, default and message of
  the source appears as a constant. `Issues` checks field by field, as
  zod does. `Accepts` states the same rules as a plain conjunction. The
  lemma `IssuesNoneIffAccepts` proves that the two agree.
- **Form-to-wire transformer** (`experience_transform.dfy`). It renames
  the fields of each category into the outbound `Experience` record. The
  batch payload maps these records in order. `WireKeys` gives the keys
  that `JSON.stringify` writes, so the wire shape can be stated. Module
  `FormSubmission` models what the create page submits: the form's raw
  values once they validate, not zod's parsed output.
- **Skill label lookup** (`skill_labels.dfy`). A first-match search of
  the skill catalog, with the id itself as the fallback.
- **Route guard** (`middleware.dfy`). A pure decision computed from the
  path, the `auth_token` cookie, the `authorization` header and the
  `redirect` query parameter, together with the path matcher.
- **Multi-select state** (`multi_select.dfy`). A class holding
  `selected`, `inputValue` and `open`, with one method per event
  handler. Beside it are the pure derived lists: the options still
  offered and the form value.
- **Calendar form logic** (`calendar.dfy`). `getNestedError` is a fold of
  optional property access over `path.split('.')`. A second predicate
  disables the days outside [1900-01-01, now]. Any `disabled` key in
  the caller's props replaces that predicate, even one whose value is
  `undefined`. Every form that shows a calendar forwards such a key. The
  create page leaves it `undefined`, so every day is selectable there.
  The edit page passes `false` while editing (every day selectable) and
  `true` otherwise. See "## Findings".

The clock (`new Date()`) is the parameter `now`. All dates are integers:
milliseconds since the Unix epoch. The skill catalog
(`src/types/tech-skills`) is not part of this model, so it is a
parameter too.

Facts about the modelled code that are easy to get wrong:

- The transformer passes `skills` and `skillsDescription` through
  unchanged. `Restore` is the model's own inverse and exists only to
  state that the transform loses nothing. It is not the source's
  `transformExperienceResponseToFormData` (see "## Left out").
- Neither the schemas nor the transformer clear `endDate` when
  `isCurrent` is true. `CurrentEntryKeepsEndDate` shows an accepted
  current entry whose record keeps its end date. Only the form
  components' watchers do that clearing (see "## Left out").
- The create page submits `getValues()`, not the parsed data. zod's
  `.default(false)` for `isCurrent` is therefore never applied. A dated
  entry whose checkbox was never touched goes on the wire without an
  `isCurrent` key (`UntouchedCheckboxOmitsIsCurrent`).
- The schemas accept duplicate skills. They do not compare the two dates
  with each other.
- An absent `skillsDescription` stays absent. It does not become `{}`.
- The sub-name goes on the wire under the key `subname`. The `subName`
  key that the `Experience` type declares is never written (`WireShape`).

## Model

| member | source | states |
|---|---|---|
| `ExperienceSchemas.CategoryOfTag` | src/lib/validations/experiences.ts:174-178 | a schema is chosen exactly when `category` is one of the strings "professional", "academic", "project", and the chosen schema's literal is that string |
| `ExperienceSchemas.StringIssues` | src/lib/validations/experiences.ts:5-11 | every issue of a string field (required / type / min / max message) is reported under that field's path |
| `ExperienceSchemas.OptionalStringIssues` | src/lib/validations/experiences.ts:19-24 | an optional string field reports only under its own path |
| `ExperienceSchemas.DateIssues` | src/lib/validations/experiences.ts:25-32 | every date issue (required, not a Date, invalid Date, in the future) is reported under that field's path |
| `ExperienceSchemas.OptionalDateIssues` | src/lib/validations/experiences.ts:33-46 | the optional end date reports only under `endDate` |
| `ExperienceSchemas.CurrentIssues` | src/lib/validations/experiences.ts:47-51 | an `isCurrent` issue is reported under `isCurrent` |
| `ExperienceSchemas.SkillsIssues` | src/lib/validations/experiences.ts:59-65 | every skills issue (list type, min 1, max 20, element type) is reported under `skills` |
| `ExperienceSchemas.ElementIssues` | src/lib/validations/experiences.ts:60 | each non-string element is reported under `skills` (at its index) |
| `ExperienceSchemas.NotesIssues` | src/lib/validations/experiences.ts:66-72 | every `skillsDescription` issue (not an object, a value that is not a string) is reported under `skillsDescription` |
| `ExperienceSchemas.StringIssuesNone` | src/lib/validations/experiences.ts:5-11 | a string rule reports nothing exactly when the value is a string whose length lies between the rule's minimum (0 without one) and maximum |
| `ExperienceSchemas.DateIssuesNone` | src/lib/validations/experiences.ts:25-32 | a date rule reports nothing exactly when the value is a valid Date no later than now |
| `ExperienceSchemas.ElementIssuesNone` | src/lib/validations/experiences.ts:60 | no element issue exactly when every element is a string |
| `ExperienceSchemas.SkillsIssuesNone` | src/lib/validations/experiences.ts:59-65 | no skills issue exactly when the value is a list of 1 to 20 strings (an absent list is rejected) |
| `ExperienceSchemas.NotesIssuesNone` | src/lib/validations/experiences.ts:66-72 | no `skillsDescription` issue exactly when it is absent or an object of strings |
| `ExperienceSchemas.ProfessionalIssuesNone` | src/lib/validations/experiences.ts:3-73 | the professional schema reports nothing exactly when every field meets its stated rule |
| `ExperienceSchemas.AcademicIssuesNone` | src/lib/validations/experiences.ts:75-139 | the academic schema reports nothing exactly when every field meets its stated rule |
| `ExperienceSchemas.ProjectIssuesNone` | src/lib/validations/experiences.ts:141-172 | the project schema reports nothing exactly when every field meets its stated rule |
| `ExperienceSchemas.IssuesNoneIffAccepts` | src/lib/validations/experiences.ts:174-178 | the discriminated union reports no issue exactly when the input is an object whose `category` selects a schema and that schema's field rules all hold |
| `ExperienceSchemas.ProfessionalIssues` | src/lib/validations/experiences.ts:3-73 | every issue of the professional schema sits under one of its ten declared keys |
| `ExperienceSchemas.AcademicIssues` | src/lib/validations/experiences.ts:75-139 | every issue of the academic schema sits under one of its nine declared keys (no `location`) |
| `ExperienceSchemas.ProjectIssues` | src/lib/validations/experiences.ts:141-172 | every issue of the project schema sits under category, title, description, skills or skill notes |
| `ExperienceSchemas.Issues` | src/lib/validations/experiences.ts:174-178 | a non-object is always reported; an unknown tag gives the discriminator issue alone; every issue of a selected schema sits under a key that schema declares (undeclared keys are stripped, never reported) |
| `ExperienceSchemas.Accepts` | src/lib/validations/experiences.ts:3-178 | an accepted input is an object with a known tag, a description of 10 to 500 characters and 1 to 20 skills, whatever the category |
| `ExperienceSchemas.Build` | src/lib/validations/experiences.ts:3-172 | the typed value has the tag's category, the input's title and one skill per input element |
| `ExperienceSchemas.Parse` | src/lib/validations/experiences.ts:174-178 | a parse succeeds exactly when the input is accepted; otherwise it returns the non-empty issue set; a success's category is the one the tag selected |
| `SchemaProperties.DescriptionRule` | src/lib/validations/experiences.ts:52-58 | in every category, an issue is reported under `description` exactly when it is not a string of 10 to 500 characters (the same rule is at lines 118-124 and 150-156) |
| `SchemaProperties.TitleRule` | src/lib/validations/experiences.ts:5-11 | an issue is reported under `title` exactly when it is not a string of 1 to 100 characters (1 to 150 for academic, lines 77-83; project at lines 143-149) |
| `SchemaProperties.CompanyRule` | src/lib/validations/experiences.ts:12-18 | for professional entries, `company` is reported exactly when it is not a string of 1 to 100 characters |
| `SchemaProperties.InstitutionRule` | src/lib/validations/experiences.ts:84-90 | for academic entries, `institution` is reported exactly when it is not a string of 1 to 100 characters |
| `SchemaProperties.LocationRule` | src/lib/validations/experiences.ts:19-24 | `location` is reported exactly when the entry is professional and the location is present but not a string of at most 100 characters |
| `SchemaProperties.StartDateRule` | src/lib/validations/experiences.ts:25-32 | `startDate` is reported exactly when the entry is dated (not a project) and the value is not a valid Date no later than now |
| `SchemaProperties.EndDateRule` | src/lib/validations/experiences.ts:33-46 | `endDate` is reported exactly when the entry is dated and the value is present but not a valid Date no later than now; its own value alone decides (no comparison with the start date or `isCurrent`) |
| `SchemaProperties.EndDateIssueSource` | src/lib/validations/experiences.ts:33-46 | an issue under `endDate` arises only in a dated schema, from the end date's own check |
| `SchemaProperties.CurrentRule` | src/lib/validations/experiences.ts:47-51 | `isCurrent` is reported exactly when the entry is dated and the value is present but not a boolean |
| `SchemaProperties.SkillsRule` | src/lib/validations/experiences.ts:59-65 | in every category, `skills` is reported exactly when it is not a list of 1 to 20 strings; duplicates do not matter |
| `SchemaProperties.MissingSkillsRejected` | src/lib/validations/experiences.ts:59-65 | an absent skills list defaults to `[]` and is rejected with "Please select at least one skill" |
| `SchemaProperties.SkillNotesRule` | src/lib/validations/experiences.ts:66-72 | `skillsDescription` is reported exactly when it is present and not an object whose every value is a string |
| `SchemaProperties.UnknownCategoryRejected` | src/lib/validations/experiences.ts:174-178 | any other `category` is rejected with the discriminator issue alone |
| `SchemaProperties.ParsedValues` | src/lib/validations/experiences.ts:3-172 | a parsed value holds the input's own title, description, skills (same count, in order), dates, company or institution; a present location is the input's text; present skill notes have the input object's keys and its string values; absent optionals stay absent; a dated entry's `isCurrent` is always present (the default) and true only when the input says `true` |
| `ExperienceTransform.TransformProfessional` | src/helpers/experience-transform.ts:27-42 | a professional record: title as name, company as subname, both dates and the location copied |
| `ExperienceTransform.TransformAcademic` | src/helpers/experience-transform.ts:44-58 | an academic record: title as name, institution as subname, both dates copied, no location |
| `ExperienceTransform.TransformProject` | src/helpers/experience-transform.ts:60-70 | a project record: title as name, skills copied, and no subname, dates, `isCurrent` or location |
| `ExperienceTransform.TransformExperienceFormData` | src/helpers/experience-transform.ts:8-25 | the record's category is the form data's category, for all three categories |
| `ExperienceTransform.WireKeys` | src/helpers/experience-transform.ts:27-70 | the JSON record always has category, name, description and skills; it has `subname` exactly when a sub-name is set, and never `subName` |
| `ExperienceTransform.CreateExperiencesPayload` | src/lib/api/experience.ts:15 | the batch has one record per entry, each with its entry's category |
| `ExperienceTransform.TransformRoundTrip` | src/helpers/experience-transform.ts:27-70 | the form data can be recovered from its record: the transform loses nothing |
| `ExperienceTransform.TransformFields` | src/helpers/experience-transform.ts:27-70 | name is the title; subname is the company or institution; dates and `isCurrent` are copied (the end date is kept even when current); location only for professional entries; skills and skill notes are unchanged; a project record carries no dates, `isCurrent`, subname or location |
| `ExperienceTransform.WireShape` | src/helpers/experience-transform.ts:27-70 | the JSON record never has a `subName` key; `subname` and `startDate` appear exactly for dated entries; `isCurrent` appears exactly for dated entries whose form data holds it; a project record has only category, name, description, skills and optional skill notes |
| `FormSubmission.FormValues` | src/lib/validations/experiences.ts:47-51 | the values the create page submits (`getValues()` after `trigger()`, in the page's form instance) skip this default: they have the tag's category; a dated entry carries `isCurrent` only when the raw input holds a boolean there; a project entry is exactly the parsed value |
| `FormSubmission.UntouchedCheckboxOmitsIsCurrent` | src/lib/validations/experiences.ts:47-51 | for an accepted dated entry without an `isCurrent` key, the parse would default it to false and its record would carry the key, but the record built from the submitted values has no `isCurrent` key |
| `FormSubmission.SubmittedMatchesParsed` | src/lib/validations/experiences.ts:3-172 | the submitted values equal the parsed value except, for dated entries, in `isCurrent` |
| `ExperienceTransform.PayloadInOrder` | src/lib/api/experience.ts:15 | the batch payload has one record per entry, each the transform of the entry at the same position |
| `ExperienceTransform.PayloadAppend` | src/lib/api/experience.ts:15 | the batch payload of a concatenation is the concatenation of the payloads |
| `ExperienceScenarios.PortfolioProject` | src/helpers/experience-transform.ts:60-70 | a one-skill project parses to project data and is sent as one record with exactly its category, name, description and skills |
| `ExperienceScenarios.CurrentEntryKeepsEndDate` | src/helpers/experience-transform.ts:44-58 | a current academic entry that ends before it starts and lists a skill twice is accepted, and its record keeps the end date |
| `SkillLabels.FirstMatch` | src/utils.ts:4 | `find` returns the first entry whose value is the id, or none when no entry has it |
| `SkillLabels.GetSkillLabel` | src/utils.ts:3-4 | an id missing from the catalog is its own label; any other label is the label of an entry carrying the id |
| `SkillLabels.LabelOfFirstMatch` | src/utils.ts:3-4 | the label is the first matching entry's label when that is non-empty, and the id otherwise |
| `SkillLabels.UnknownIdIsOwnLabel` | src/utils.ts:4 | an id no entry carries is its own label |
| `SkillLabels.LabelSource` | src/utils.ts:3-4 | the lookup is total: its result is the id or the non-empty label of an entry carrying the id |
| `SkillLabels.FrontEntryWins` | src/utils.ts:4 | with duplicate values the earlier entry wins |
| `RouteGuard.IndexOf` | src/middleware.ts:14 | the position found holds the pattern and no earlier position does; none means no position holds it |
| `RouteGuard.RemoveFirst` | src/middleware.ts:14 | without an occurrence the text is unchanged; with one, exactly the pattern's length is removed |
| `RouteGuard.HasToken` | src/middleware.ts:25 | the token is truthy exactly when the cookie is non-empty, or the header with "Bearer " removed is non-empty |
| `RouteGuard.IsProtectedRoute` | src/middleware.ts:17-19 | protected exactly when the path starts with "/dashboard" |
| `RouteGuard.IsAuthRoute` | src/middleware.ts:22 | an auth route exactly when the path is "/sign-in" or "/sign-up" |
| `RouteGuard.Token` | src/middleware.ts:12-14 | there is no token exactly when the cookie is absent or empty and there is no header; without a header the token is the cookie |
| `RouteGuard.Middleware` | src/middleware.ts:10-40 | without a token a request passes or goes to "/sign-in"; with a token it passes unless it is for an auth route |
| `RouteGuard.Matched` | src/middleware.ts:42-54 | a matched path starts with "/" |
| `RouteGuard.SlashPrefix` | src/middleware.ts:52 | after a leading "/", the rest starts with a prefix exactly when the path starts with "/" followed by it |
| `RouteGuard.MatchedPaths` | src/middleware.ts:42-54 | a path is matched exactly when it starts with "/" and with none of "/api", "/_next/static", "/_next/image", "/favicon.ico", "/public" |
| `RouteGuard.Guard` | src/middleware.ts:42-54 | API paths always pass; a redirect is the middleware's own decision |
| `RouteGuard.RemoveFirstSpec` | src/middleware.ts:14 | `replace('Bearer ', '')` removes the first occurrence, wherever it is |
| `RouteGuard.BearerHeader` | src/middleware.ts:14 | "Bearer " followed by a token yields the token |
| `RouteGuard.HeaderWithoutBearer` | src/middleware.ts:14 | a header without "Bearer " is used whole |
| `RouteGuard.TokenSource` | src/middleware.ts:12-14 | a non-empty cookie is the token; otherwise the header with "Bearer " removed; with neither there is no token |
| `RouteGuard.RouteClasses` | src/middleware.ts:5-22 | protected exactly when the path starts with "/dashboard"; an auth route exactly when it is "/sign-in" or "/sign-up" |
| `RouteGuard.RouteClassesDisjoint` | src/middleware.ts:5-8 | no path is both protected and an auth route |
| `RouteGuard.Decisions` | src/middleware.ts:25-39 | a protected path without a token goes to "/sign-in"; an auth route with a token goes to the non-empty `redirect` parameter or "/dashboard"; every other request passes |
| `RouteGuard.PassThroughCases` | src/middleware.ts:25-39 | a signed-in dashboard request and a signed-out sign-in request both pass; every redirect goes to "/sign-in", "/dashboard" or the `redirect` parameter |
| `RouteGuard.SelfRedirectOneHop` | src/middleware.ts:31-36 | the `redirect` parameter is followed unchecked: a signed-in "/sign-in?redirect=/sign-in" goes back to "/sign-in", and the follow-up request without the query goes to "/dashboard" |
| `RouteGuard.ProtectedPathsGuarded` | src/middleware.ts:42-54 | the matcher never exempts a dashboard path: without a token it is always sent to sign-in |
| `CalendarForm.GetNestedError` | src/components/shadcn/calendar.tsx:257-259 | null or undefined errors give undefined for every path |
| `CalendarForm.Split` | src/components/shadcn/calendar.tsx:258 | splitting yields at least one segment |
| `CalendarForm.SplitSegmentsHaveNoDots` | src/components/shadcn/calendar.tsx:258 | no segment contains a dot |
| `CalendarForm.JoinSplit` | src/components/shadcn/calendar.tsx:258 | joining the segments with dots gives the path back |
| `CalendarForm.SplitWithoutDots` | src/components/shadcn/calendar.tsx:258 | a path without dots is one segment |
| `CalendarForm.SplitAtDot` | src/components/shadcn/calendar.tsx:258 | the split of `p.q` is the split of `p` followed by the split of `q` |
| `CalendarForm.WalkAppend` | src/components/shadcn/calendar.tsx:258 | folding over two key lists is folding over the first, then the second |
| `CalendarForm.UndefinedStaysUndefined` | src/components/shadcn/calendar.tsx:258 | `undefined?.[key]` stays undefined for any keys |
| `CalendarForm.MissingIntermediate` | src/components/shadcn/calendar.tsx:258 | once an intermediate lookup is undefined, the whole lookup is undefined |
| `CalendarForm.PlainName` | src/components/shadcn/calendar.tsx:258 | a path without dots returns `errors[path]` |
| `CalendarForm.NestedName` | src/components/shadcn/calendar.tsx:257-259 | looking up `p.q` is looking up `q` in the result of looking up `p` |
| `CalendarForm.ArrayElementName` | src/components/shadcn/calendar.tsx:258 | a name like "skills.1" reaches the array element at that index |
| `CalendarForm.FirstSelectableIs1900` | src/components/shadcn/calendar.tsx:307 | the lower bound is 1900-01-01 at midnight UTC, in milliseconds |
| `CalendarForm.Disabled` | src/components/shadcn/calendar.tsx:306-308 | the date predicate alone: every day before 1900-01-01 is disabled; every enabled day passes the schemas' date rule |
| `CalendarForm.SelectableDates` | src/components/shadcn/calendar.tsx:306-308 | without a `disabled` prop from the caller, a day is selectable exactly when it lies in [1900-01-01, now], both ends included; every such day passes the start and end date checks |
| `CalendarForm.CalendarDisabled` | src/components/shadcn/calendar.tsx:302-311 | without a `disabled` key in the caller's props the date predicate applies; `disabled={undefined}` and `disabled={false}` enable every day; `disabled={true}` disables every day |
| `CalendarForm.EditingEnablesPre1900` | src/components/shadcn/calendar.tsx:306-310 | the day before 1900-01-01 is disabled by the plain calendar, but selectable under the edit page's `disabled={false}`, and the start date rule accepts it |
| `CalendarForm.CreatePageEnablesAnyDay` | src/components/shadcn/calendar.tsx:302-311 | on the create page, whose form instance forwards `disabled={undefined}`, tomorrow and the day before 1900-01-01 are both selectable, though the plain calendar disables both; the start date rule then rejects tomorrow with its "in the future" message |
| `CalendarForm.IntendedDisabled` | src/components/shadcn/calendar.tsx:302-311 | corrected predicate: a selectable day always lies in [1900-01-01, now]; `disabled={true}` disables every day; without a boolean prop it is the plain calendar's predicate |
| `CalendarForm.IntendedDaysPassRules` | src/components/shadcn/calendar.tsx:306-308 | under the corrected predicate, every selectable day passes the start and end date checks, whatever the prop |
| `MultiSelectState.DropLast` | src/components/shadcn/multi-select.tsx:50-52 | popping removes the last entry and keeps the rest; an empty list stays empty |
| `MultiSelectState.WithoutValue` | src/components/shadcn/multi-select.tsx:37 | the filtered list is no longer than the input, and every entry of it comes from the input and has another value |
| `MultiSelectState.Selectables` | src/components/shadcn/multi-select.tsx:67-69 | the offered list is no longer than the options, and every entry of it is an option not selected |
| `MultiSelectState.FormValue` | src/components/shadcn/multi-select.tsx:170-174 | the form value has one value per selected entry |
| `MultiSelectState.WithoutValueMembers` | src/components/shadcn/multi-select.tsx:37 | unselecting keeps exactly the entries whose value differs |
| `MultiSelectState.WithoutValueAppend` | src/components/shadcn/multi-select.tsx:37 | unselecting keeps the order: filtering a concatenation filters each part |
| `MultiSelectState.WithoutAbsentValue` | src/components/shadcn/multi-select.tsx:37 | unselecting a value nobody has changes nothing |
| `MultiSelectState.WithoutValueDistinct` | src/components/shadcn/multi-select.tsx:37 | unselecting keeps a duplicate-free selection duplicate-free |
| `MultiSelectState.SelectThenUnselect` | src/components/shadcn/multi-select.tsx:35-41 | unselecting an item just appended (whose value was new) restores the earlier selection |
| `MultiSelectState.SelectablesMembers` | src/components/shadcn/multi-select.tsx:67-69 | the offered options are exactly the options not selected |
| `MultiSelectState.SelectablesAppend` | src/components/shadcn/multi-select.tsx:67-69 | the offered options keep the options' order |
| `MultiSelectState.FormValueInOrder` | src/components/shadcn/multi-select.tsx:170-174 | the form value has one value per selected entry, in the same order |
| `MultiSelectState.FormValueAppend` | src/components/shadcn/multi-select.tsx:171-173 | the form value of a concatenation is the concatenation of the form values |
| `MultiSelectState.PopLeavesFormValueStale` | src/components/shadcn/multi-select.tsx:47-54 | the pop reports nothing, so a form that last saw the list before the pop still holds the dropped value: its form value is the list's after the pop, plus that value, so the two differ |
| `MultiSelectState.PoppedValueGone` | src/components/shadcn/multi-select.tsx:47-54 | when no other selected entry shares the dropped value, the list after the pop no longer has that value, while the stale form value still does |
| `MultiSelectState.UnselectedValueGone` | src/components/shadcn/multi-select.tsx:170-174 | after unselecting, the reported form value no longer holds that value |
| `MultiSelectState.SelectedOrOffered` | src/components/shadcn/multi-select.tsx:67-69 | each option is either selected or offered, never both |
| `MultiSelectState.MultiSelect.constructor` | src/components/shadcn/multi-select.tsx:31-33 | the component starts closed, with nothing selected and an empty input |
| `MultiSelectState.MultiSelect.HandleUnselect` | src/components/shadcn/multi-select.tsx:35-41 | the selection loses every entry with the item's value, keeps the rest in order, and the new list is reported; input and menu are unchanged |
| `MultiSelectState.MultiSelect.OnSelect` | src/components/shadcn/multi-select.tsx:129-136 | the item is appended, the input text is cleared, and the new list is reported; the selection stays duplicate-free |
| `MultiSelectState.MultiSelect.HandleKeyDown` | src/components/shadcn/multi-select.tsx:43-63 | Backspace or Delete on an empty input drops the last entry (no change on an empty list) and reports nothing; with input text, or for other keys, the selection is unchanged; Escape closes the menu |
| `MultiSelectState.MultiSelect.SetInputValue` | src/components/shadcn/multi-select.tsx:108 | typing sets the input text and changes nothing else |
| `MultiSelectState.MultiSelect.MenuShown` | src/components/shadcn/multi-select.tsx:118 | the menu is rendered exactly when the input has focus and some option is not selected |
| `MultiSelectState.MultiSelect.SetFocused` | src/components/shadcn/multi-select.tsx:109-110 | focus opens the menu and blur closes it; nothing else changes |

## Findings

| source | as written | input that shows it | evidently intended | confidence | as-written member | corrected member |
|---|---|---|---|---|---|---|
| src/components/shadcn/calendar.tsx:306-310 | the date limits are written before `{...props}`, so any `disabled` key from the caller replaces them; the create page forwards `disabled={undefined}` and the edit page `disabled={false}` | on the create page, the day after `now` (or 1899-12-31) is selectable | the limits to [1900-01-01, now] always apply, and a form-level `disabled` only disables more | medium, not executed | `CalendarForm.CalendarDisabled`, `CalendarForm.CreatePageEnablesAnyDay` | `CalendarForm.IntendedDisabled`, `CalendarForm.IntendedDaysPassRules` |

## Left out

- The real clock and the contents of the skill catalog. Both are parameters.
- JavaScript strings are UTF-16. zod's `min`/`max` count UTF-16 code units, but the model counts the elements of a `seq<char>`.
- Numbers in `JsValue` are integers, and `NaN` is not modelled. Only the type of a number matters to these schemas.
- Property access on primitives (a string's `length`, a character by index), an array's own `length`, and built-in prototypes all read as `undefined` in `getNestedError`.
- zod's issue order and codes are not modelled, and issues form a set. The schemas raise at most one issue per path. The form resolver keeps only the first issue per path, so order is not observable there.
- JavaScript object key order is not modelled: objects are finite maps.
- `CreateExperiencesPayload`: the `filter(Boolean)` step is the identity. The category set is closed, so the transformer has no `undefined` result.
- The HTTP calls, the response envelope, and the Date-to-string conversion of `JSON.stringify`.
- `RouteGuard.Middleware`: `new URL(target, request.url)` is not resolved. The decision carries the target path as given, so an absolute URL in `redirect` is not told apart.
- `RouteGuard.Matched`: Next.js turns the matcher into a regular expression over the pathname, with its own extras (locales, trailing slashes). The model reads the negative lookahead as five prefix tests on the literal text. In the regular expression, the `.` in `favicon.ico` matches any character, so a path such as "/faviconXico" is exempt too. The model still guards it.
- `MultiSelectState.MultiSelect.HandleKeyDown`: the null check on `inputRef.current` is not modelled, since the input is always mounted.
- `MultiSelectState.MultiSelect.HandleUnselect`: the badge handlers also call `onValueChange(selected)` with the list from before the update. When that call lands relative to the updater's call depends on how React schedules state updates, so it is left out.
- `MultiSelectState.Selectables`: `selected.includes(item)` compares object identity. The model compares values, so two structurally equal options count as one.
- The text filter that the command menu applies to the offered items is not modelled.
- The form components' watchers are not part of this model. They are at src/app/(protected)/experiences/forms/professional-form.tsx:38-48 and academic-form.tsx:38-48, and these forms serve both the create page and the edit page. They clear `endDate` when `isCurrent` becomes true, and reset `isCurrent` when an end date is set. The model's `FormData` is the value before or without those edits.
- `transformExperienceResponseToFormData`, which the edit page uses for its default values (src/app/(protected)/experiences/editable-experience-form.tsx:10,67), is not part of this model: its definition is not among the modelled files. `Restore` is not a model of it.
- `FormSubmission.FormValues`: the raw form state is modelled only where it can differ from the parse, in `isCurrent`. Values that pass validation are otherwise taken as the parsed ones (react-hook-form keeps the `Date` and string values the fields set).
- `CalendarForm.CalendarDisabled`: react-day-picker also accepts a date matcher as the `disabled` prop. No caller here passes one, so the model's prop is absent, `undefined` or a boolean. How the pages derive it (`!isEditing`, or nothing) is stated per page in the lemmas, not computed.
- The calendar's rendering and day-button styling, and the time-zone handling of the days it shows.

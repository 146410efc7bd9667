/** The logic inside `CalendarForm`: the lookup of a field's error by a
    dotted field name, and the predicate that disables calendar days
    outside [1900-01-01, now]. Dates are milliseconds since the epoch. */
module CalendarForm {
  import opened JsValues
  import ExperienceSchemas

  // ---------------------------------------------------------------------
  // path.split('.')
  // ---------------------------------------------------------------------

  /** `s.split('.')`: the text between dots, in order; at least one segment. */
  function Split(s: string): (r: seq<string>)
    ensures |r| >= 1
  {
    if s == [] then [""]
    else
      var rest := Split(s[1..]);
      if s[0] == '.' then [""] + rest else [[s[0]] + rest[0]] + rest[1..]
  }

  /** `segments.join('.')`, the partner of `Split`. */
  function Join(segments: seq<string>): string
  {
    if segments == [] then ""
    else if |segments| == 1 then segments[0]
    else segments[0] + "." + Join(segments[1..])
  }

  /** No segment holds a dot. */
  lemma {:induction false} SplitSegmentsHaveNoDots(s: string)
    ensures forall i | 0 <= i < |Split(s)| :: '.' !in Split(s)[i]
  {
    if s != [] {
      SplitSegmentsHaveNoDots(s[1..]);
      var rest := Split(s[1..]);
      if s[0] != '.' {
        assert '.' !in rest[0];
        assert '.' !in [s[0]] + rest[0];
      }
    }
  }

  /** Joining the segments gives the path back. */
  lemma {:induction false} JoinSplit(s: string)
    ensures Join(Split(s)) == s
  {
    if s != [] {
      JoinSplit(s[1..]);
      var rest := Split(s[1..]);
      if s[0] == '.' {
        assert Join([""] + rest) == "" + "." + Join(rest);
        assert s == [s[0]] + s[1..];
      } else {
        var r := [[s[0]] + rest[0]] + rest[1..];
        if |rest| == 1 {
          assert Join(r) == [s[0]] + rest[0];
          assert Join(rest) == rest[0];
        } else {
          assert r[1..] == rest[1..];
          assert Join(r) == [s[0]] + rest[0] + "." + Join(rest[1..]);
          assert Join(rest) == rest[0] + "." + Join(rest[1..]);
        }
        assert s == [s[0]] + s[1..];
      }
    }
  }

  /** A name without dots is a single segment. */
  lemma {:induction false} SplitWithoutDots(s: string)
    requires '.' !in s
    ensures Split(s) == [s]
  {
    if s != [] {
      assert '.' !in s[1..] by {
        forall i | 0 <= i < |s[1..]| ensures s[1..][i] != '.' { assert s[1..][i] == s[i + 1]; }
      }
      SplitWithoutDots(s[1..]);
      assert s == [s[0]] + s[1..];
    }
  }

  /** Splitting `p + "." + q` splits `p` and `q` apart. */
  lemma {:induction false} SplitAtDot(p: string, q: string)
    ensures Split(p + "." + q) == Split(p) + Split(q)
  {
    if p == [] {
      assert "" + "." + q == ['.'] + q;
      assert (['.'] + q)[1..] == q;
    } else {
      var s := p + "." + q;
      assert s[0] == p[0];
      assert s[1..] == p[1..] + "." + q;
      SplitAtDot(p[1..], q);
    }
  }

  // ---------------------------------------------------------------------
  // .reduce((obj, key) => obj?.[key], errors)
  // ---------------------------------------------------------------------

  /** `obj?.[key]`: undefined once the object is null or undefined. */
  function Step(obj: JsValue, key: string): JsValue
  {
    if obj.Undefined? || obj.Null? then Undefined else Property(obj, key)
  }

  /** The fold of `Step` over the keys, left to right. */
  function Walk(v: JsValue, keys: seq<string>): JsValue
    decreases keys
  {
    if keys == [] then v else Walk(Step(v, keys[0]), keys[1..])
  }

  /** `getNestedError(errors, path)` */
  function GetNestedError(errors: JsValue, path: string): (e: JsValue)
    ensures errors.Undefined? || errors.Null? ==> e == Undefined
  {
    var keys := Split(path);
    UndefinedStaysUndefined(keys[1..]);
    Walk(errors, keys)
  }

  lemma {:induction false} WalkAppend(v: JsValue, a: seq<string>, b: seq<string>)
    ensures Walk(v, a + b) == Walk(Walk(v, a), b)
    decreases a
  {
    if a == [] {
      assert a + b == b;
    } else {
      assert (a + b)[0] == a[0] && (a + b)[1..] == a[1..] + b;
      WalkAppend(Step(v, a[0]), a[1..], b);
    }
  }

  /** Once a lookup has come out undefined, every later key keeps it so. */
  lemma {:induction false} UndefinedStaysUndefined(keys: seq<string>)
    ensures Walk(Undefined, keys) == Undefined
  {
    if keys != [] {
      UndefinedStaysUndefined(keys[1..]);
    }
  }

  /** A missing intermediate value makes the whole lookup undefined. */
  lemma MissingIntermediate(errors: JsValue, path: string, i: nat)
    requires i <= |Split(path)|
    requires Walk(errors, Split(path)[..i]) == Undefined
    ensures GetNestedError(errors, path) == Undefined
  {
    var keys := Split(path);
    assert keys == keys[..i] + keys[i..];
    WalkAppend(errors, keys[..i], keys[i..]);
    UndefinedStaysUndefined(keys[i..]);
  }

  /** A name without dots is looked up directly: `errors?.[path]`. */
  lemma PlainName(errors: JsValue, path: string)
    requires '.' !in path
    ensures GetNestedError(errors, path) == Step(errors, path)
    ensures errors.Obj? ==> GetNestedError(errors, path) == Get(errors.fields, path)
  {
    SplitWithoutDots(path);
    assert [path][1..] == [];
    assert Walk(errors, [path]) == Walk(Step(errors, path), []);
  }

  /** Looking up `p.q` is looking up `q` in what `p` finds. */
  lemma NestedName(errors: JsValue, p: string, q: string)
    ensures GetNestedError(errors, p + "." + q) == GetNestedError(GetNestedError(errors, p), q)
  {
    SplitAtDot(p, q);
    WalkAppend(errors, Split(p), Split(q));
  }

  /** The error of an array element: "skills.1" reaches the second entry. */
  lemma ArrayElementName(items: seq<JsValue>, n: nat, field: string)
    requires '.' !in field
    requires n < |items|
    ensures GetNestedError(Obj(map[field := Arr(items)]), field + "." + IndexName(n)) == items[n]
  {
    var errors := Obj(map[field := Arr(items)]);
    NestedName(errors, field, IndexName(n));
    PlainName(errors, field);
    IndexNameRoundTrip(n);
    assert '.' !in IndexName(n) by {
      forall i | 0 <= i < |IndexName(n)| ensures IndexName(n)[i] != '.' { }
    }
    PlainName(Arr(items), IndexName(n));
  }

  // ---------------------------------------------------------------------
  // disabled={date => date > new Date() || date < new Date('1900-01-01')}
  // ---------------------------------------------------------------------

  const MillisPerDay := 86400000

  /** The number of days from 1970-01-01 to the given proleptic Gregorian
      date (negative before it). */
  function DaysFromCivil(year: int, month: int, day: int): int
    requires 1 <= month <= 12 && 1 <= day <= 31
  {
    var y := if month <= 2 then year - 1 else year;
    var era := y / 400;
    var yoe := y - era * 400;
    var mp := (month + 9) % 12;
    var doy := (153 * mp + 2) / 5 + day - 1;
    var doe := yoe * 365 + yoe / 4 - yoe / 100 + doy;
    era * 146097 + doe - 719468
  }

  /** `new Date('1900-01-01')`: midnight UTC, in milliseconds. */
  const FirstSelectable: int := -2208988800000

  lemma FirstSelectableIs1900()
    ensures FirstSelectable == DaysFromCivil(1900, 1, 1) * MillisPerDay
    ensures DaysFromCivil(1970, 1, 1) == 0
  {
  }

  /** The calendar's `disabled` predicate. Every day it leaves enabled
      passes the schemas' date rule. */
  function Disabled(date: int, now: int): (r: bool)
    ensures !r ==> ExperienceSchemas.PastDate(Date(date), now)
    ensures date < FirstSelectable ==> r
  {
    date > now || date < FirstSelectable
  }

  /** The `disabled` prop a caller gives `CalendarForm`: left out of the
      JSX, written with the value `undefined` (the create page's forms do
      this, since they forward a prop the page never sets), or a boolean
      (the edit page: `!isEditing`). */
  datatype DisabledProp = NoProp | UndefinedProp | BoolProp(b: bool)

  /** What `CalendarForm` hands to the day picker, as written: the date
      predicate comes before `{...props}`, so a `disabled` key in the props
      replaces it, even when its value is `undefined`, which the day picker
      reads as "nothing disabled". */
  function CalendarDisabled(prop: DisabledProp, date: int, now: int): (r: bool)
    ensures prop.NoProp? ==> (r <==> !(FirstSelectable <= date <= now))
    ensures prop.UndefinedProp? ==> !r
    ensures prop == BoolProp(false) ==> !r
    ensures prop == BoolProp(true) ==> r
  {
    match prop
    case NoProp => Disabled(date, now)
    case UndefinedProp => false
    case BoolProp(b) => b
  }

  /** While an entry is edited the forms pass `disabled={false}`: the day
      before 1900-01-01, which the plain calendar disables, becomes
      selectable, and the start date rule then accepts it. */
  lemma EditingEnablesPre1900(now: int)
    requires FirstSelectable <= now
    ensures CalendarDisabled(NoProp, FirstSelectable - 1, now)
    ensures !CalendarDisabled(BoolProp(false), FirstSelectable - 1, now)
    ensures ExperienceSchemas.DateIssues("startDate", Date(FirstSelectable - 1), ExperienceSchemas.StartDate, now) == {}
  {
  }

  /** On the create page the forms pass `disabled={undefined}`: a day after
      `now` and the day before 1900-01-01 are both selectable, and the start
      date rule rejects the future one. */
  lemma CreatePageEnablesAnyDay(now: int)
    requires FirstSelectable <= now
    ensures CalendarDisabled(NoProp, now + 1, now) && CalendarDisabled(NoProp, FirstSelectable - 1, now)
    ensures !CalendarDisabled(UndefinedProp, now + 1, now)
    ensures !CalendarDisabled(UndefinedProp, FirstSelectable - 1, now)
    ensures ExperienceSchemas.DateIssues("startDate", Date(now + 1), ExperienceSchemas.StartDate, now)
      == {ExperienceSchemas.Issue([ExperienceSchemas.Key("startDate")], "Start date cannot be in the future")}
  {
  }

  /** The evident intent: the date limits always hold, and a form-level
      `disabled` (a boolean, `undefined` meaning false) can only disable
      more days. */
  function IntendedDisabled(prop: DisabledProp, date: int, now: int): (r: bool)
    ensures !r ==> FirstSelectable <= date <= now
    ensures prop == BoolProp(true) ==> r
    ensures Disabled(date, now) ==> r
    ensures !prop.BoolProp? ==> (r <==> CalendarDisabled(NoProp, date, now))
  {
    (prop.BoolProp? && prop.b) || Disabled(date, now)
  }

  /** Under the intended predicate, whatever the prop, every day the picker
      offers passes both date rules. */
  lemma IntendedDaysPassRules(prop: DisabledProp, date: int, now: int)
    requires !IntendedDisabled(prop, date, now)
    ensures ExperienceSchemas.DateIssues("startDate", Date(date), ExperienceSchemas.StartDate, now) == {}
    ensures ExperienceSchemas.OptionalDateIssues("endDate", Date(date), ExperienceSchemas.EndDate, now) == {}
  {
    SelectableDates(date, now);
  }

  /** A selectable day lies in [1900-01-01, now], both ends included, and
      the schemas accept it as a start or end date. */
  lemma SelectableDates(date: int, now: int)
    ensures !Disabled(date, now) <==> FirstSelectable <= date <= now
    ensures !Disabled(date, now) ==>
      ExperienceSchemas.DateIssues("startDate", Date(date), ExperienceSchemas.StartDate, now) == {} &&
      ExperienceSchemas.OptionalDateIssues("endDate", Date(date), ExperienceSchemas.EndDate, now) == {}
  {
  }
}

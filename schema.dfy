/**
 * The argument schemas the tools declare (zod object schemas) as a closed
 * datatype, and the validation that the tool protocol applies to raw
 * arguments before a handler runs: every declared field is checked in
 * order, a missing required field, a value of the wrong kind and a string
 * outside an enumeration are reported as issues with their path, all issues
 * are collected, absent defaulted fields receive their default (constant or
 * read from the clock), absent optional fields stay absent, and keys the
 * schema does not declare are dropped.
 */
module Schema {
  import opened Wrappers
  import opened JsValues
  import Dates

  datatype Kind =
    | KString
    | KNumber
    | KBool
    | KEnum(allowed: seq<string>)
    | KArray(elem: Kind)
    | KObject(fields: seq<Field>)

  /** Defaults computed when validation runs rather than when the schema is built. */
  datatype Now = Today | ThirtyDaysAgo

  datatype Presence = Required | Optional | Default(value: Json) | DefaultNow(at: Now)

  datatype Field = Field(name: string, kind: Kind, presence: Presence)

  datatype PathItem = Key(name: string) | Index(i: nat)

  datatype Expected = ExpectString | ExpectNumber | ExpectBool | ExpectArray | ExpectObject

  datatype IssueCode = Missing | WrongType(expected: Expected) | NotInEnum(allowed: seq<string>)

  datatype Issue = Issue(path: seq<PathItem>, code: IssueCode)

  /** The value of a clock-computed default: an ISO date string. */
  function NowValue(at: Now, clock: Dates.Clock): Json
  {
    match at
    case Today => JStr(Dates.IsoDate(clock.today))
    case ThirtyDaysAgo => JStr(Dates.IsoDate(clock.thirtyDaysAgo))
  }

  function IssuesOf<T>(r: Result<T, seq<Issue>>): seq<Issue>
  {
    if r.Err? then r.error else []
  }

  // ---------------------------------------------------------------------------
  // Validation
  // ---------------------------------------------------------------------------

  /** Validates `v` against `k`; `path` locates `v` in the arguments. */
  function Check(k: Kind, v: Json, path: seq<PathItem>, clock: Dates.Clock): Result<Json, seq<Issue>>
    decreases k, 2
  {
    match k
    case KString => if v.JStr? then Ok(v) else Err([Issue(path, WrongType(ExpectString))])
    case KNumber => if v.JNum? then Ok(v) else Err([Issue(path, WrongType(ExpectNumber))])
    case KBool => if v.JBool? then Ok(v) else Err([Issue(path, WrongType(ExpectBool))])
    case KEnum(allowed) =>
      if !v.JStr? then Err([Issue(path, WrongType(ExpectString))])
      else if v.s in allowed then Ok(v)
      else Err([Issue(path, NotInEnum(allowed))])
    case KArray(elem) =>
      if !v.JArr? then Err([Issue(path, WrongType(ExpectArray))])
      else
        var r := CheckItems(elem, v.items, 0, path, clock);
        if r.Ok? then Ok(JArr(r.value)) else Err(r.error)
    case KObject(_) =>
      if !v.JObj? then Err([Issue(path, WrongType(ExpectObject))])
      else
        var r := CheckFields(k, 0, v.fields, path, clock);
        if r.Ok? then Ok(JObj(r.value)) else Err(r.error)
  }

  /** Validates the array elements `items`, the first of which sits at index `from`. */
  function CheckItems(elem: Kind, items: seq<Json>, from: nat, path: seq<PathItem>, clock: Dates.Clock)
    : Result<seq<Json>, seq<Issue>>
    decreases elem, 3, |items|
  {
    if items == [] then Ok([])
    else
      var head := Check(elem, items[0], path + [Index(from)], clock);
      var tail := CheckItems(elem, items[1..], from + 1, path, clock);
      if head.Ok? && tail.Ok? then Ok([head.value] + tail.value)
      else Err(IssuesOf(head) + IssuesOf(tail))
  }

  /** The outcome for one declared field: `Ok(None)` leaves it out of the output. */
  function CheckField(k: Kind, i: nat, m: map<string, Json>, path: seq<PathItem>, clock: Dates.Clock)
    : Result<Option<Json>, seq<Issue>>
    requires k.KObject? && i < |k.fields|
    decreases k, 1, 0
  {
    var f := k.fields[i];
    assert f in k.fields;
    var at := path + [Key(f.name)];
    if f.name in m then
      var r := Check(f.kind, m[f.name], at, clock);
      if r.Ok? then Ok(Some(r.value)) else Err(r.error)
    else
      match f.presence
      case Required => Err([Issue(at, Missing)])
      case Optional => Ok(None)
      case Default(d) =>
        var r := Check(f.kind, d, at, clock);
        if r.Ok? then Ok(Some(r.value)) else Err(r.error)
      case DefaultNow(when) =>
        var r := Check(f.kind, NowValue(when, clock), at, clock);
        if r.Ok? then Ok(Some(r.value)) else Err(r.error)
  }

  /** Validates the fields of object schema `k` from the `i`-th on against the raw object `m`. */
  function CheckFields(k: Kind, i: nat, m: map<string, Json>, path: seq<PathItem>, clock: Dates.Clock)
    : Result<map<string, Json>, seq<Issue>>
    requires k.KObject? && i <= |k.fields|
    decreases k, 1, |k.fields| - i
  {
    if i == |k.fields| then Ok(map[])
    else
      var here := CheckField(k, i, m, path, clock);
      var rest := CheckFields(k, i + 1, m, path, clock);
      if here.Ok? && rest.Ok? then
        Ok(if here.value.Some? then rest.value[k.fields[i].name := here.value.value] else rest.value)
      else Err(IssuesOf(here) + IssuesOf(rest))
  }

  /** Validation of a tool's whole argument object. */
  function Validate(schema: Kind, raw: Json, clock: Dates.Clock): Result<Json, seq<Issue>>
  {
    Check(schema, raw, [], clock)
  }

  // ---------------------------------------------------------------------------
  // Reference definitions
  // ---------------------------------------------------------------------------

  /** When a value is acceptable, stated without the validator. */
  predicate Accepts(k: Kind, v: Json, clock: Dates.Clock)
    decreases k, 2
  {
    match k
    case KString => v.JStr?
    case KNumber => v.JNum?
    case KBool => v.JBool?
    case KEnum(allowed) => v.JStr? && v.s in allowed
    case KArray(elem) => v.JArr? && forall j :: 0 <= j < |v.items| ==> Accepts(elem, v.items[j], clock)
    case KObject(_) => v.JObj? && FieldsAccepted(k, 0, v.fields, clock)
  }

  /** Every field from the `i`-th on is acceptable in `m`. */
  predicate FieldsAccepted(k: Kind, i: nat, m: map<string, Json>, clock: Dates.Clock)
    requires k.KObject? && i <= |k.fields|
    decreases k, 1, |k.fields| - i
  {
    i == |k.fields| || (FieldAccepted(k, i, m, clock) && FieldsAccepted(k, i + 1, m, clock))
  }

  predicate FieldAccepted(k: Kind, j: nat, m: map<string, Json>, clock: Dates.Clock)
    requires k.KObject? && j < |k.fields|
    decreases k, 0
  {
    var f := k.fields[j];
    assert f in k.fields;
    if f.name in m then Accepts(f.kind, m[f.name], clock)
    else
      match f.presence
      case Required => false
      case Optional => true
      case Default(d) => Accepts(f.kind, d, clock)
      case DefaultNow(when) => Accepts(f.kind, NowValue(when, clock), clock)
  }

  /** The names of the fields from the `i`-th on. */
  function NamesFrom(fields: seq<Field>, i: nat): set<string>
  {
    set j | i <= j < |fields| :: fields[j].name
  }

  function Names(fields: seq<Field>): set<string>
  {
    NamesFrom(fields, 0)
  }

  /**
   * The shape of validated arguments: only declared keys, every required or
   * defaulted field present, every present field of its declared kind.
   */
  predicate Conforms(k: Kind, v: Json)
    decreases k, 1
  {
    match k
    case KString => v.JStr?
    case KNumber => v.JNum?
    case KBool => v.JBool?
    case KEnum(allowed) => v.JStr? && v.s in allowed
    case KArray(elem) => v.JArr? && forall j :: 0 <= j < |v.items| ==> Conforms(elem, v.items[j])
    case KObject(fields) =>
      && v.JObj?
      && v.fields.Keys <= Names(fields)
      && forall j :: 0 <= j < |fields| ==> FieldConforms(k, j, v.fields)
  }

  predicate FieldConforms(k: Kind, j: nat, m: map<string, Json>)
    requires k.KObject? && j < |k.fields|
    decreases k, 0
  {
    var f := k.fields[j];
    assert f in k.fields;
    && (f.name in m ==> Conforms(f.kind, m[f.name]))
    && (f.presence.Optional? || f.name in m)
  }

  /** Field names are distinct in every object schema. */
  predicate WellFormed(k: Kind)
  {
    match k
    case KArray(elem) => WellFormed(elem)
    case KObject(fields) =>
      && (forall i, j :: 0 <= i < j < |fields| ==> fields[i].name != fields[j].name)
      && (forall j :: 0 <= j < |fields| ==> WellFormed(fields[j].kind))
    case _ => true
  }

  /** Kinds without object schemas inside: validation never rewrites their values. */
  predicate Flat(k: Kind)
  {
    match k
    case KArray(elem) => Flat(elem)
    case KObject(_) => false
    case _ => true
  }

  // ---------------------------------------------------------------------------
  // The validator agrees with the reference definition of acceptance
  // ---------------------------------------------------------------------------

  /** Validation succeeds exactly on acceptable values, and every failure carries an issue. */
  lemma {:induction false} CheckAgreesWithAccepts(k: Kind, v: Json, path: seq<PathItem>, clock: Dates.Clock)
    ensures Check(k, v, path, clock).Ok? <==> Accepts(k, v, clock)
    ensures Check(k, v, path, clock).Err? ==> Check(k, v, path, clock).error != []
    decreases k, 2
  {
    if k.KArray? && v.JArr? {
      ItemsAgreeWithAccepts(k.elem, v.items, 0, path, clock);
    } else if k.KObject? && v.JObj? {
      FieldsAgreeWithAccepts(k, 0, v.fields, path, clock);
    }
  }

  lemma {:induction false} ItemsAgreeWithAccepts(elem: Kind, items: seq<Json>, from: nat, path: seq<PathItem>, clock: Dates.Clock)
    ensures CheckItems(elem, items, from, path, clock).Ok?
        <==> forall j :: 0 <= j < |items| ==> Accepts(elem, items[j], clock)
    ensures CheckItems(elem, items, from, path, clock).Err? ==> CheckItems(elem, items, from, path, clock).error != []
    decreases elem, 3, |items|
  {
    if items != [] {
      CheckAgreesWithAccepts(elem, items[0], path + [Index(from)], clock);
      ItemsAgreeWithAccepts(elem, items[1..], from + 1, path, clock);
      assert forall j :: 1 <= j < |items| ==> items[1..][j - 1] == items[j];
    }
  }

  lemma {:induction false} FieldAgreesWithAccepts(k: Kind, i: nat, m: map<string, Json>, path: seq<PathItem>, clock: Dates.Clock)
    requires k.KObject? && i < |k.fields|
    ensures CheckField(k, i, m, path, clock).Ok? <==> FieldAccepted(k, i, m, clock)
    ensures CheckField(k, i, m, path, clock).Err? ==> CheckField(k, i, m, path, clock).error != []
    decreases k, 1, 0
  {
    var f := k.fields[i];
    assert f in k.fields;
    var at := path + [Key(f.name)];
    if f.name in m {
      CheckAgreesWithAccepts(f.kind, m[f.name], at, clock);
    } else {
      match f.presence
      case Default(d) => CheckAgreesWithAccepts(f.kind, d, at, clock);
      case DefaultNow(when) => CheckAgreesWithAccepts(f.kind, NowValue(when, clock), at, clock);
      case _ =>
    }
  }

  lemma {:induction false} FieldsAgreeWithAccepts(k: Kind, i: nat, m: map<string, Json>, path: seq<PathItem>, clock: Dates.Clock)
    requires k.KObject? && i <= |k.fields|
    ensures CheckFields(k, i, m, path, clock).Ok? <==> FieldsAccepted(k, i, m, clock)
    ensures CheckFields(k, i, m, path, clock).Err? ==> CheckFields(k, i, m, path, clock).error != []
    decreases k, 1, |k.fields| - i
  {
    if i < |k.fields| {
      FieldAgreesWithAccepts(k, i, m, path, clock);
      FieldsAgreeWithAccepts(k, i + 1, m, path, clock);
    }
  }

  // ---------------------------------------------------------------------------
  // Validated arguments have the declared shape
  // ---------------------------------------------------------------------------

  /** The keys of a validated object are declared field names. */
  lemma {:induction false} FieldsKeys(k: Kind, i: nat, m: map<string, Json>, path: seq<PathItem>, clock: Dates.Clock)
    requires k.KObject? && i <= |k.fields|
    requires CheckFields(k, i, m, path, clock).Ok?
    ensures CheckFields(k, i, m, path, clock).value.Keys <= NamesFrom(k.fields, i)
    decreases |k.fields| - i
  {
    if i < |k.fields| {
      FieldsKeys(k, i + 1, m, path, clock);
      assert k.fields[i].name in NamesFrom(k.fields, i);
      assert NamesFrom(k.fields, i + 1) <= NamesFrom(k.fields, i);
    }
  }

  /** Validation output conforms to the schema: the invariant every handler relies on. */
  lemma {:induction false} CheckConforms(k: Kind, v: Json, path: seq<PathItem>, clock: Dates.Clock)
    requires WellFormed(k)
    requires Check(k, v, path, clock).Ok?
    ensures Conforms(k, Check(k, v, path, clock).value)
    decreases k, 2
  {
    match k
    case KArray(elem) => ItemsConform(elem, v.items, 0, path, clock);
    case KObject(_) =>
      FieldsConform(k, 0, v.fields, path, clock);
      FieldsKeys(k, 0, v.fields, path, clock);
    case _ =>
  }

  lemma {:induction false} ItemsConform(elem: Kind, items: seq<Json>, from: nat, path: seq<PathItem>, clock: Dates.Clock)
    requires WellFormed(elem)
    requires CheckItems(elem, items, from, path, clock).Ok?
    ensures var out := CheckItems(elem, items, from, path, clock).value;
      forall j :: 0 <= j < |out| ==> Conforms(elem, out[j])
    decreases elem, 3, |items|
  {
    if items != [] {
      CheckConforms(elem, items[0], path + [Index(from)], clock);
      ItemsConform(elem, items[1..], from + 1, path, clock);
    }
  }

  lemma {:induction false} FieldsConform(k: Kind, i: nat, m: map<string, Json>, path: seq<PathItem>, clock: Dates.Clock)
    requires k.KObject? && i <= |k.fields| && WellFormed(k)
    requires CheckFields(k, i, m, path, clock).Ok?
    ensures var out := CheckFields(k, i, m, path, clock).value;
      forall j :: i <= j < |k.fields| ==> FieldConforms(k, j, out)
    decreases k, 1, |k.fields| - i
  {
    if i < |k.fields| {
      var f := k.fields[i];
      var here := CheckField(k, i, m, path, clock).value;
      var rest := CheckFields(k, i + 1, m, path, clock).value;
      var out := CheckFields(k, i, m, path, clock).value;
      assert out == if here.Some? then rest[f.name := here.value] else rest;
      FieldsConform(k, i + 1, m, path, clock);
      FieldsKeys(k, i + 1, m, path, clock);
      assert f.name !in NamesFrom(k.fields, i + 1);
      FieldResultConforms(k, i, m, path, clock);
      assert FieldConforms(k, i, out);
      forall j | i < j < |k.fields|
        ensures FieldConforms(k, j, out)
      {
        assert k.fields[j].name != f.name;
        assert FieldConforms(k, j, rest);
      }
    }
  }

  /** The outcome for one field conforms to its kind, and only an optional field is left out. */
  lemma {:induction false} FieldResultConforms(k: Kind, i: nat, m: map<string, Json>, path: seq<PathItem>, clock: Dates.Clock)
    requires k.KObject? && i < |k.fields| && WellFormed(k)
    requires CheckField(k, i, m, path, clock).Ok?
    ensures var r := CheckField(k, i, m, path, clock).value;
      && (r.Some? ==> Conforms(k.fields[i].kind, r.value))
      && (r.None? ==> k.fields[i].presence.Optional? && k.fields[i].name !in m)
    decreases k, 0
  {
    var f := k.fields[i];
    assert f in k.fields;
    var at := path + [Key(f.name)];
    if f.name in m {
      CheckConforms(f.kind, m[f.name], at, clock);
    } else if f.presence.Default? {
      CheckConforms(f.kind, f.presence.value, at, clock);
    } else if f.presence.DefaultNow? {
      CheckConforms(f.kind, NowValue(f.presence.at, clock), at, clock);
    }
  }

  // ---------------------------------------------------------------------------
  // Conforming values pass through unchanged: validation is idempotent
  // ---------------------------------------------------------------------------

  lemma {:induction false} ConformingUnchanged(k: Kind, v: Json, path: seq<PathItem>, clock: Dates.Clock)
    requires WellFormed(k) && Conforms(k, v)
    ensures Check(k, v, path, clock) == Ok(v)
    decreases k, 2
  {
    match k
    case KArray(elem) => ConformingItemsUnchanged(elem, v.items, 0, path, clock);
    case KObject(fields) =>
      ConformingFieldsUnchanged(k, 0, v.fields, path, clock);
      assert Restrict(v.fields, NamesFrom(fields, 0)) == v.fields;
    case _ =>
  }

  lemma {:induction false} ConformingItemsUnchanged(elem: Kind, items: seq<Json>, from: nat, path: seq<PathItem>, clock: Dates.Clock)
    requires WellFormed(elem)
    requires forall j :: 0 <= j < |items| ==> Conforms(elem, items[j])
    ensures CheckItems(elem, items, from, path, clock) == Ok(items)
    decreases elem, 3, |items|
  {
    if items != [] {
      ConformingUnchanged(elem, items[0], path + [Index(from)], clock);
      ConformingItemsUnchanged(elem, items[1..], from + 1, path, clock);
      assert [items[0]] + items[1..] == items;
    }
  }

  /** `m` restricted to the keys in `names`. */
  function Restrict(m: map<string, Json>, names: set<string>): map<string, Json>
  {
    map key | key in m && key in names :: m[key]
  }

  lemma NamesFromStep(fields: seq<Field>, i: nat)
    requires i < |fields|
    ensures NamesFrom(fields, i) == NamesFrom(fields, i + 1) + {fields[i].name}
  {
  }

  lemma RestrictAdd(m: map<string, Json>, names: set<string>, name: string)
    ensures name in m ==> Restrict(m, names + {name}) == Restrict(m, names)[name := m[name]]
    ensures name !in m ==> Restrict(m, names + {name}) == Restrict(m, names)
  {
  }

  lemma {:induction false} ConformingFieldsUnchanged(k: Kind, i: nat, m: map<string, Json>, path: seq<PathItem>, clock: Dates.Clock)
    requires k.KObject? && i <= |k.fields| && WellFormed(k)
    requires forall j :: i <= j < |k.fields| ==> FieldConforms(k, j, m)
    ensures CheckFields(k, i, m, path, clock) == Ok(Restrict(m, NamesFrom(k.fields, i)))
    decreases k, 1, |k.fields| - i
  {
    if i == |k.fields| {
      assert Restrict(m, NamesFrom(k.fields, i)) == map[];
    } else {
      var f := k.fields[i];
      assert f in k.fields;
      assert FieldConforms(k, i, m);
      ConformingFieldsUnchanged(k, i + 1, m, path, clock);
      NamesFromStep(k.fields, i);
      RestrictAdd(m, NamesFrom(k.fields, i + 1), f.name);
      if f.name in m {
        ConformingUnchanged(f.kind, m[f.name], path + [Key(f.name)], clock);
        assert CheckField(k, i, m, path, clock) == Ok(Some(m[f.name]));
      } else {
        assert CheckField(k, i, m, path, clock) == Ok(None);
      }
    }
  }

  /** Validating already-validated arguments changes nothing. */
  lemma ValidateIdempotent(schema: Kind, raw: Json, clock: Dates.Clock)
    requires WellFormed(schema)
    requires Validate(schema, raw, clock).Ok?
    ensures Validate(schema, Validate(schema, raw, clock).value, clock) == Validate(schema, raw, clock)
  {
    CheckConforms(schema, raw, [], clock);
    ConformingUnchanged(schema, Validate(schema, raw, clock).value, [], clock);
  }

  /** Strings, numbers, booleans, enumerations and arrays of them are passed through as given. */
  lemma {:induction false} FlatUnchanged(k: Kind, v: Json, path: seq<PathItem>, clock: Dates.Clock)
    requires Flat(k)
    requires Check(k, v, path, clock).Ok?
    ensures Check(k, v, path, clock).value == v
    decreases k, 2
  {
    if k.KArray? {
      FlatItemsUnchanged(k.elem, v.items, 0, path, clock);
    }
  }

  lemma {:induction false} FlatItemsUnchanged(elem: Kind, items: seq<Json>, from: nat, path: seq<PathItem>, clock: Dates.Clock)
    requires Flat(elem)
    requires CheckItems(elem, items, from, path, clock).Ok?
    ensures CheckItems(elem, items, from, path, clock).value == items
    decreases elem, 3, |items|
  {
    if items != [] {
      FlatUnchanged(elem, items[0], path + [Index(from)], clock);
      FlatItemsUnchanged(elem, items[1..], from + 1, path, clock);
    }
  }

  // ---------------------------------------------------------------------------
  // Field by field: what validation outputs and what it reports
  // ---------------------------------------------------------------------------

  lemma {:induction false} FieldOutput(k: Kind, i: nat, j: nat, m: map<string, Json>, path: seq<PathItem>, clock: Dates.Clock)
    requires k.KObject? && WellFormed(k) && i <= j < |k.fields|
    requires CheckFields(k, i, m, path, clock).Ok?
    ensures var out := CheckFields(k, i, m, path, clock).value;
      var here := CheckField(k, j, m, path, clock);
      && here.Ok?
      && (here.value.Some? ==> k.fields[j].name in out && out[k.fields[j].name] == here.value.value)
      && (here.value.None? ==> k.fields[j].name !in out)
    decreases |k.fields| - i
  {
    var here := CheckField(k, i, m, path, clock).value;
    var rest := CheckFields(k, i + 1, m, path, clock).value;
    var out := CheckFields(k, i, m, path, clock).value;
    assert out == if here.Some? then rest[k.fields[i].name := here.value] else rest;
    if i < j {
      FieldOutput(k, i + 1, j, m, path, clock);
      assert k.fields[i].name != k.fields[j].name;
    } else {
      FieldsKeys(k, i + 1, m, path, clock);
      assert k.fields[i].name !in NamesFrom(k.fields, i + 1);
    }
  }

  /**
   * The output for a declared field: the caller's value validated, or the
   * default validated, or nothing for an absent optional field; a required
   * field is never absent. Values of
   * flat kinds and conforming defaults appear exactly as given.
   */
  lemma ValidatedField(k: Kind, m: map<string, Json>, j: nat, path: seq<PathItem>, clock: Dates.Clock)
    requires k.KObject? && WellFormed(k) && j < |k.fields|
    requires Check(k, JObj(m), path, clock).Ok?
    ensures var out := Check(k, JObj(m), path, clock).value.fields;
      var f := k.fields[j];
      && (f.name in m ==> f.name in out && Check(f.kind, m[f.name], path + [Key(f.name)], clock) == Ok(out[f.name]))
      && (f.name in m && Flat(f.kind) ==> out[f.name] == m[f.name])
      && (f.presence.Required? ==> f.name in m)
      && (f.name !in m ==> (f.name in out <==> !f.presence.Optional?))
      && ((f.name !in m && f.presence.Default? && Conforms(f.kind, f.presence.value))
          ==> out[f.name] == f.presence.value)
      && ((f.name !in m && f.presence.DefaultNow? && Conforms(f.kind, NowValue(f.presence.at, clock)))
          ==> out[f.name] == NowValue(f.presence.at, clock))
  {
    var f := k.fields[j];
    assert f in k.fields;
    var at := path + [Key(f.name)];
    FieldOutput(k, 0, j, m, path, clock);
    if f.name in m {
      if Flat(f.kind) { FlatUnchanged(f.kind, m[f.name], at, clock); }
    } else if f.presence.Default? {
      if Conforms(f.kind, f.presence.value) { ConformingUnchanged(f.kind, f.presence.value, at, clock); }
    } else if f.presence.DefaultNow? {
      var now := NowValue(f.presence.at, clock);
      if Conforms(f.kind, now) { ConformingUnchanged(f.kind, now, at, clock); }
    }
  }

  lemma {:induction false} FieldIssuesReported(k: Kind, i: nat, j: nat, m: map<string, Json>, path: seq<PathItem>, clock: Dates.Clock)
    requires k.KObject? && i <= j < |k.fields|
    ensures forall x :: x in IssuesOf(CheckField(k, j, m, path, clock)) ==> x in IssuesOf(CheckFields(k, i, m, path, clock))
    decreases |k.fields| - i
  {
    if i < j {
      FieldIssuesReported(k, i + 1, j, m, path, clock);
    }
  }

  lemma {:induction false} ItemIssuesReported(elem: Kind, items: seq<Json>, from: nat, t: nat, path: seq<PathItem>, clock: Dates.Clock)
    requires t < |items|
    ensures forall x :: x in IssuesOf(Check(elem, items[t], path + [Index(from + t)], clock))
                   ==> x in IssuesOf(CheckItems(elem, items, from, path, clock))
    decreases t
  {
    var head := Check(elem, items[0], path + [Index(from)], clock);
    var tail := CheckItems(elem, items[1..], from + 1, path, clock);
    var whole := CheckItems(elem, items, from, path, clock);
    assert IssuesOf(whole) == IssuesOf(head) + IssuesOf(tail);
    if t > 0 {
      ItemIssuesReported(elem, items[1..], from + 1, t - 1, path, clock);
      assert items[1..][t - 1] == items[t];
      assert path + [Index(from + 1 + (t - 1))] == path + [Index(from + t)];
    }
    forall x | x in IssuesOf(Check(elem, items[t], path + [Index(from + t)], clock))
      ensures x in IssuesOf(whole)
    {
      if t == 0 {
        assert x in IssuesOf(head);
      } else {
        assert x in IssuesOf(tail);
      }
    }
  }

  /** Every issue found in a field's value is reported for the whole object. */
  lemma FieldValueIssuesReported(k: Kind, m: map<string, Json>, j: nat, path: seq<PathItem>, clock: Dates.Clock)
    requires k.KObject? && j < |k.fields| && k.fields[j].name in m
    ensures var f := k.fields[j];
      forall x :: x in IssuesOf(Check(f.kind, m[f.name], path + [Key(f.name)], clock))
              ==> x in IssuesOf(Check(k, JObj(m), path, clock))
  {
    var f := k.fields[j];
    FieldIssuesReported(k, 0, j, m, path, clock);
    assert IssuesOf(Check(k, JObj(m), path, clock)) == IssuesOf(CheckFields(k, 0, m, path, clock));
    assert IssuesOf(CheckField(k, j, m, path, clock))
        == IssuesOf(Check(f.kind, m[f.name], path + [Key(f.name)], clock));
  }

  /** Every issue found in an array element is reported for the whole array, at the element's index. */
  lemma ArrayItemIssuesReported(elem: Kind, items: seq<Json>, t: nat, path: seq<PathItem>, clock: Dates.Clock)
    requires t < |items|
    ensures forall x :: x in IssuesOf(Check(elem, items[t], path + [Index(t)], clock))
                   ==> x in IssuesOf(Check(KArray(elem), JArr(items), path, clock))
  {
    var r := CheckItems(elem, items, 0, path, clock);
    ItemIssuesReported(elem, items, 0, t, path, clock);
    assert Check(KArray(elem), JArr(items), path, clock)
        == if r.Ok? then Ok(JArr(r.value)) else Err(r.error);
    assert path + [Index(0 + t)] == path + [Index(t)];
    assert IssuesOf(Check(KArray(elem), JArr(items), path, clock)) == IssuesOf(r);
  }

  /** An absent required field fails validation with a Missing issue at that field. */
  lemma MissingRequiredReported(k: Kind, m: map<string, Json>, j: nat, path: seq<PathItem>, clock: Dates.Clock)
    requires k.KObject? && j < |k.fields|
    requires k.fields[j].presence.Required? && k.fields[j].name !in m
    ensures Check(k, JObj(m), path, clock).Err?
    ensures Issue(path + [Key(k.fields[j].name)], Missing) in Check(k, JObj(m), path, clock).error
  {
    FieldIssuesReported(k, 0, j, m, path, clock);
    assert CheckField(k, j, m, path, clock) == Err([Issue(path + [Key(k.fields[j].name)], Missing)]);
    assert IssuesOf(Check(k, JObj(m), path, clock)) == IssuesOf(CheckFields(k, 0, m, path, clock));
    assert Issue(path + [Key(k.fields[j].name)], Missing) in IssuesOf(Check(k, JObj(m), path, clock));
  }

  /**
   * A string outside the enumeration, at index `t` of an array-of-enumeration
   * field, fails validation with a NotInEnum issue at that index.
   */
  lemma EnumItemReported(k: Kind, m: map<string, Json>, j: nat, t: nat, path: seq<PathItem>, clock: Dates.Clock)
    requires k.KObject? && j < |k.fields|
    requires k.fields[j].kind.KArray? && k.fields[j].kind.elem.KEnum?
    requires k.fields[j].name in m && m[k.fields[j].name].JArr? && t < |m[k.fields[j].name].items|
    requires var item := m[k.fields[j].name].items[t];
      item.JStr? && item.s !in k.fields[j].kind.elem.allowed
    ensures Check(k, JObj(m), path, clock).Err?
    ensures var f := k.fields[j];
      Issue(path + [Key(f.name), Index(t)], NotInEnum(f.kind.elem.allowed)) in Check(k, JObj(m), path, clock).error
  {
    var f := k.fields[j];
    var at := path + [Key(f.name)];
    var items := m[f.name].items;
    ArrayItemIssuesReported(f.kind.elem, items, t, at, clock);
    FieldValueIssuesReported(k, m, j, path, clock);
    assert at + [Index(t)] == path + [Key(f.name), Index(t)];
    assert Issue(at + [Index(t)], NotInEnum(f.kind.elem.allowed)) in IssuesOf(Check(f.kind.elem, items[t], at + [Index(t)], clock));
  }

  lemma {:induction false} FieldsIgnoreKey(k: Kind, i: nat, m: map<string, Json>, key: string, x: Json, path: seq<PathItem>, clock: Dates.Clock)
    requires k.KObject? && i <= |k.fields| && key !in NamesFrom(k.fields, i)
    ensures CheckFields(k, i, m[key := x], path, clock) == CheckFields(k, i, m, path, clock)
    decreases |k.fields| - i
  {
    if i < |k.fields| {
      NamesFromStep(k.fields, i);
      FieldsIgnoreKey(k, i + 1, m, key, x, path, clock);
      var name := k.fields[i].name;
      assert name != key;
      assert (name in m[key := x]) == (name in m);
      assert name in m ==> m[key := x][name] == m[name];
      assert CheckField(k, i, m[key := x], path, clock) == CheckField(k, i, m, path, clock);
    }
  }

  /** Keys the schema does not declare change nothing: they are neither errors nor output. */
  lemma ExtraKeysIgnored(k: Kind, m: map<string, Json>, key: string, x: Json, path: seq<PathItem>, clock: Dates.Clock)
    requires k.KObject? && key !in Names(k.fields)
    ensures Check(k, JObj(m[key := x]), path, clock) == Check(k, JObj(m), path, clock)
  {
    FieldsIgnoreKey(k, 0, m, key, x, path, clock);
  }

  /** A conforming object conforms field by field. */
  lemma ConformsField(k: Kind, v: Json, j: nat)
    requires k.KObject? && j < |k.fields| && Conforms(k, v)
    ensures v.JObj? && FieldConforms(k, j, v.fields)
  {
  }

  /** The strings of an array whose elements are all strings. */
  function Strings(items: seq<Json>): (r: seq<string>)
    requires forall i :: 0 <= i < |items| ==> items[i].JStr?
    ensures |r| == |items| && forall i :: 0 <= i < |items| ==> items[i] == JStr(r[i])
  {
    seq(|items|, i requires 0 <= i < |items| => items[i].s)
  }

  /** The strings of a conforming enumeration array, each one of the allowed values. */
  function EnumStrings(allowed: seq<string>, v: Json): (r: seq<string>)
    requires Conforms(KArray(KEnum(allowed)), v)
    ensures v.JArr? && |r| == |v.items|
    ensures forall i :: 0 <= i < |r| ==> v.items[i] == JStr(r[i]) && r[i] in allowed
  {
    assert forall i :: 0 <= i < |v.items| ==> Conforms(KEnum(allowed), v.items[i]);
    Strings(v.items)
  }

  /** A string-valued field of a conforming object. */
  function StringField(m: map<string, Json>, name: string): string
    requires name in m && m[name].JStr?
  {
    m[name].s
  }

  /** An optional string-valued field: `None` when absent. */
  function OptionalString(m: map<string, Json>, name: string): (r: Option<string>)
    requires name in m ==> m[name].JStr?
    ensures r.Some? <==> name in m
  {
    if name in m then Some(m[name].s) else None
  }

  /** A boolean-valued field of a conforming object. */
  function BoolField(m: map<string, Json>, name: string): bool
    requires name in m && m[name].JBool?
  {
    m[name].b
  }

  /** An optional number-valued field: `None` when absent. */
  function OptionalNumber(m: map<string, Json>, name: string): (r: Option<real>)
    requires name in m ==> m[name].JNum?
    ensures r.Some? <==> name in m
  {
    if name in m then Some(m[name].n) else None
  }
}

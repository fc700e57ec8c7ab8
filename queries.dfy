/** The query assembler of guspy/__init__.py (`Query`) and the pure specification of
    its mutable builder (`GUSObject` and the `create` methods of its subclasses). */
module Queries {
  import opened Wrappers
  import opened Text
  import opened Filters

  /** The schema table loaded from objects.json: alias -> {"Object": concrete name, ...}. */
  type Schema = map<string, map<string, string>>

  /** A `Query` instance: it keeps only the resolved object name. */
  datatype Query = Query(obj: string)

  /** `Query(obj_name)`: a catalogued alias resolves through its "Object" entry; an
      unknown alias is used literally; a catalogued alias without "Object" raises KeyError. */
  function NewQuery(schema: Schema, name: string): (r: Result<Query, PyError>)
    ensures name !in schema ==> r == Success(Query(name))
    ensures name in schema ==> (r.Success? <==> "Object" in schema[name])
    ensures r.Success? && name in schema ==> r.value.obj == schema[name]["Object"]
    ensures r.Failure? ==> r.error == KeyError("Object")
  {
    if name !in schema then Success(Query(name))
    else if "Object" in schema[name] then Success(Query(schema[name]["Object"]))
    else Failure(KeyError("Object"))
  }

  /** The mandatory head of every query. */
  function Head(fields: string, obj: string): string {
    "SELECT " + fields + " FROM " + obj
  }

  /** `bool(limit)`: None and 0 are falsy. */
  predicate LimitTruthy(limit: Option<int>) {
    limit.Some? && limit.value != 0
  }

  function WhereClause(filters: Option<string>): string {
    if Truthy(filters) then " WHERE " + filters.value else ""
  }

  function OrderClause(sortBy: Option<string>, sortSeq: Option<string>): string {
    if Truthy(sortBy) && Truthy(sortSeq) then " ORDER BY " + sortBy.value + " " + sortSeq.value else ""
  }

  function LimitClause(limit: Option<int>): string {
    if LimitTruthy(limit) then " LIMIT " + IntToString(limit.value) else ""
  }

  /** `query += f" WHERE {filters}"` when the filter is truthy. */
  function AddWhere(query: string, filters: Option<string>): (r: string)
    ensures r == query + WhereClause(filters)
  {
    if Truthy(filters) then
      assert query + " WHERE " + filters.value == query + (" WHERE " + filters.value);
      query + " WHERE " + filters.value
    else query
  }

  /** `query += f" ORDER BY {sort_by} {sort_seq}"` when both are truthy. */
  function AddOrder(query: string, sortBy: Option<string>, sortSeq: Option<string>): (r: string)
    ensures r == query + OrderClause(sortBy, sortSeq)
  {
    if Truthy(sortBy) && Truthy(sortSeq) then
      var r := query + " ORDER BY " + sortBy.value + " " + sortSeq.value;
      Regroup(query + " ORDER BY ", sortBy.value, " ", sortSeq.value);
      Regroup(query, " ORDER BY ", sortBy.value, " " + sortSeq.value);
      Regroup(" ORDER BY ", sortBy.value, " ", sortSeq.value);
      r
    else query
  }

  /** `query += f" LIMIT {limit}"` when the limit is truthy. */
  function AddLimit(query: string, limit: Option<int>): (r: string)
    ensures r == query + LimitClause(limit)
  {
    if LimitTruthy(limit) then
      assert query + " LIMIT " + IntToString(limit.value) == query + (" LIMIT " + IntToString(limit.value));
      query + " LIMIT " + IntToString(limit.value)
    else query
  }

  /** `Query.create(...)`: the head, then WHERE, ORDER BY and LIMIT, in that fixed order,
      each present exactly when its arguments are truthy. */
  function Create(q: Query, fields: string, filters: Option<string>, sortBy: Option<string>,
                  sortSeq: Option<string>, limit: Option<int>): (r: string)
    ensures r == Head(fields, q.obj) + WhereClause(filters) + OrderClause(sortBy, sortSeq) + LimitClause(limit)
    ensures Head(fields, q.obj) <= r
  {
    var query := "SELECT " + fields + " FROM " + q.obj;
    assert query == Head(fields, q.obj);
    AddLimit(AddOrder(AddWhere(query, filters), sortBy, sortSeq), limit)
  }

  /** ORDER BY and LIMIT clauses, when present, have 'O' and 'L' as second character. */
  lemma LaterClausesStart(sortBy: Option<string>, sortSeq: Option<string>, limit: Option<int>)
    ensures var rest := OrderClause(sortBy, sortSeq) + LimitClause(limit);
      rest == "" || (|rest| >= 2 && (rest[1] == 'O' || rest[1] == 'L'))
  {
    var o := OrderClause(sortBy, sortSeq);
    var l := LimitClause(limit);
    if o != "" {
      assert (o + l)[1] == o[1];
    } else {
      assert o + l == l;
    }
  }

  /** The optional clauses begin with " WHERE " exactly when the filter is truthy. */
  lemma ClausesWhereIff(filters: Option<string>, rest: string)
    requires rest == "" || (|rest| >= 2 && (rest[1] == 'O' || rest[1] == 'L'))
    ensures var t := WhereClause(filters) + rest;
      (" WHERE " <= t <==> Truthy(filters)) &&
      (Truthy(filters) ==> " WHERE " + filters.value <= t)
  {
    var t := WhereClause(filters) + rest;
    if Truthy(filters) {
      assert t == (" WHERE " + filters.value) + rest;
      assert t == " WHERE " + (filters.value + rest);
    } else {
      assert t == rest;
    }
  }

  /** Right after the head, the query continues with " WHERE " exactly when the filter
      is truthy, and then with the filter text itself. */
  lemma CreateWhereIff(q: Query, fields: string, filters: Option<string>, sortBy: Option<string>,
                       sortSeq: Option<string>, limit: Option<int>)
    ensures var r := Create(q, fields, filters, sortBy, sortSeq, limit);
      var t := r[|Head(fields, q.obj)|..];
      (" WHERE " <= t <==> Truthy(filters)) &&
      (Truthy(filters) ==> " WHERE " + filters.value <= t)
  {
    var h := Head(fields, q.obj);
    var rest := OrderClause(sortBy, sortSeq) + LimitClause(limit);
    Regroup(h, WhereClause(filters), OrderClause(sortBy, sortSeq), LimitClause(limit));
    LaterClausesStart(sortBy, sortSeq, limit);
    ClausesWhereIff(filters, rest);
  }

  /** With a truthy limit the query ends in " LIMIT " and digits that read back as the limit;
      with a falsy one there is no LIMIT clause at all. */
  lemma CreateLimit(q: Query, fields: string, filters: Option<string>, sortBy: Option<string>,
                    sortSeq: Option<string>, limit: Option<int>)
    ensures var r := Create(q, fields, filters, sortBy, sortSeq, limit);
      var body := Head(fields, q.obj) + WhereClause(filters) + OrderClause(sortBy, sortSeq);
      (LimitTruthy(limit) ==>
         var n := r[|body| + 7..];
         r[|body|..|body| + 7] == " LIMIT " && ParseInt(n) == limit.value) &&
      (!LimitTruthy(limit) ==> r == body)
  {
    if LimitTruthy(limit) {
      ParseIntToString(limit.value);
      var body := Head(fields, q.obj) + WhereClause(filters) + OrderClause(sortBy, sortSeq);
      var r := Create(q, fields, filters, sortBy, sortSeq, limit);
      assert r == body + " LIMIT " + IntToString(limit.value);
      assert r[|body| + 7..] == IntToString(limit.value);
    }
  }

  /** The argument of `fields()`: a str, a list of str, or any other value (None included). */
  datatype FieldsArg = FieldStr(text: string) | FieldList(names: seq<string>) | FieldOther

  /** What `fields()` stores in `field_value`, or the TypeError it raises. */
  function FieldsValue(fields: FieldsArg): (r: Result<string, PyError>)
    ensures r.Failure? <==> fields.FieldOther?
    ensures r.Failure? ==> r.error == TypeError
    ensures fields.FieldStr? ==> r == Success(fields.text)
  {
    match fields
    case FieldStr(text) => Success(text)
    case FieldList(names) => Success(Join(names, ","))
    case FieldOther => Failure(TypeError)
  }

  /** A list of field names is stored comma-separated with no spaces, in order: splitting
      the stored text at the commas gives the list back. */
  lemma FieldsListOrder(names: seq<string>)
    requires |names| >= 1
    requires forall k :: 0 <= k < |names| ==> ',' !in names[k]
    ensures FieldsValue(FieldList(names)).Success?
    ensures SplitOn(FieldsValue(FieldList(names)).value, ',') == names
  {
    SplitOnJoin(names, ',');
  }

  /** The builder's attributes (`query` excepted, it only caches the last rendering). */
  datatype BuilderState = BuilderState(
    fieldValue: string,
    filterValue: Option<string>,
    limitValue: Option<int>,
    sortBy: Option<string>,
    sortSeq: Option<string>,
    queryObj: Option<Query>)

  /** What `filters(x, inclusive)` stores: `x` itself while no truthy filter is set;
      otherwise " AND x" (or " OR x"), the earlier fragment being dropped. */
  function FilterUpdate(current: Option<string>, x: Option<string>, inclusive: bool): (r: Option<string>)
    ensures !Truthy(current) ==> r == x
    ensures Truthy(current) ==> r.Some? && r.value == (if inclusive then " AND " else " OR ") + PyStr(x)
  {
    if Truthy(current) then Some(" " + (if inclusive then "AND" else "OR") + " " + PyStr(x)) else x
  }

  /** Once a truthy filter is set, the next `filters()` call forgets it: the stored value
      depends only on the new fragment. */
  lemma FilterUpdateForgets(c1: Option<string>, c2: Option<string>, x: Option<string>, inclusive: bool)
    requires Truthy(c1) && Truthy(c2)
    ensures FilterUpdate(c1, x, inclusive) == FilterUpdate(c2, x, inclusive)
  {
  }

  /** The evidently intended `filters()`: keep the earlier fragment and append the new one. */
  function FilterUpdateIntended(current: Option<string>, x: Option<string>, inclusive: bool): (r: Option<string>)
    ensures !Truthy(current) ==> r == x
    ensures Truthy(current) ==> r.Some? && current.value <= r.value
    ensures Truthy(current) && x.Some? ==>
      r.value[|current.value|..] == (if inclusive then " AND " else " OR ") + x.value
  {
    if Truthy(current)
    then Some(current.value + " " + (if inclusive then "AND" else "OR") + " " + PyStr(x))
    else x
  }

  /** As written, `filters()` reads `filter_value` before `__init__` has set it: an
      unset attribute (the outer None) raises AttributeError. */
  function FilterUpdateAsWritten(current: Option<Option<string>>, x: Option<string>, inclusive: bool)
    : (r: Result<Option<string>, PyError>)
    ensures current.None? <==> r.Failure?
    ensures current.Some? ==> r == Success(FilterUpdate(current.value, x, inclusive))
  {
    match current
    case None => Failure(AttributeError("filter_value"))
    case Some(c) => Success(FilterUpdate(c, x, inclusive))
  }

  /** `GUSObject.__init__` as written: `field_value` is set, `fields()` runs, then
      `filters()` reads the never-assigned `filter_value`. */
  function InitialAsWritten(fields: FieldsArg, filters: Option<string>, limit: Option<int>,
                            sortBy: Option<string>, sortSeq: Option<string>): (r: Result<BuilderState, PyError>)
    ensures r.Failure?
  {
    match FieldsValue(fields)
    case Failure(e) => Failure(e)
    case Success(fv) =>
      match FilterUpdateAsWritten(None, filters, true)
      case Failure(e) => Failure(e)
      case Success(f) => Success(BuilderState(fv, f, limit, sortBy, sortSeq, None))
  }

  /** As written, no builder can be constructed: `__init__` always raises, TypeError for a
      non-str, non-list `fields` and AttributeError otherwise. */
  lemma ConstructorAlwaysRaises(fields: FieldsArg, filters: Option<string>, limit: Option<int>,
                                sortBy: Option<string>, sortSeq: Option<string>)
    ensures InitialAsWritten(fields, filters, limit, sortBy, sortSeq) ==
      Failure(if fields.FieldOther? then TypeError else AttributeError("filter_value"))
  {
  }

  /** `GUSObject.__init__` with `filter_value` starting absent: the given settings are
      stored verbatim (the fields in their `fields()` form), unless `fields()` raises. */
  function Initial(fields: FieldsArg, filters: Option<string>, limit: Option<int>,
                   sortBy: Option<string>, sortSeq: Option<string>): (r: Result<BuilderState, PyError>)
    ensures r.Failure? <==> fields.FieldOther?
    ensures r.Failure? ==> r.error == TypeError
    ensures r.Success? ==>
      r.value == BuilderState(FieldsValue(fields).value, filters, limit, sortBy, sortSeq, None)
  {
    var blank := BuilderState("Id", None, None, None, None, None);
    match FieldsValue(fields)
    case Failure(e) => Failure(e)
    case Success(fv) =>
      var s := blank.(fieldValue := fv);
      var s := s.(filterValue := FilterUpdate(s.filterValue, filters, true));
      var s := s.(limitValue := limit);
      Success(s.(sortBy := sortBy, sortSeq := sortSeq))
  }

  /** `generate()`: renders from the builder's attributes alone; without a `query_obj`
      the attribute read raises. */
  function Generated(st: BuilderState): (r: Result<string, PyError>)
    ensures st.queryObj.None? <==> r.Failure?
    ensures st.queryObj.Some? ==> Head(st.fieldValue, st.queryObj.value.obj) <= r.value
  {
    match st.queryObj
    case None => Failure(AttributeError("query_obj"))
    case Some(q) => Success(Create(q, st.fieldValue, st.filterValue, st.sortBy, st.sortSeq, st.limitValue))
  }

  /** A case number (or case id) argument: a single str or a list of str. */
  datatype CaseRef = One(text: string) | Many(items: seq<string>)

  /** `bool(case_number)`. */
  predicate RefTruthy(r: Option<CaseRef>) {
    match r
    case None => false
    case Some(One(s)) => s != ""
    case Some(Many(xs)) => xs != []
  }

  /** A list is comma-joined first; a single str is kept. */
  function Joined(r: CaseRef): (s: string)
    ensures r.One? ==> s == r.text
    ensures r.Many? && r.items == [] ==> s == ""
    ensures r.Many? && r.items != [] ==> r.items[0] <= s
  {
    match r
    case One(t) => t
    case Many(xs) => Join(xs, ",")
  }

  /** A list of comma-free case numbers survives the join: splitting the joined text on
      commas gives the list back. */
  lemma JoinedRoundTrip(items: seq<string>)
    requires items != []
    requires forall k :: 0 <= k < |items| ==> ',' !in items[k]
    ensures SplitOn(Joined(Many(items)), ',') == items
  {
    SplitOnJoin(items, ',');
  }

  /** What a `create` adds to the builder's filter: nothing, or one `filters()` call. */
  datatype Extra = NoFilter | AddFilter(f: Option<string>)

  /** The raw-value relationship filter: `key IN (values)` when the joined text holds a
      comma, `key = 'value'` otherwise. */
  function RawFilter(manyKey: string, oneKey: string, joined: string): (r: Option<string>)
    ensures manyKey != "" && oneKey != "" ==> (r.None? <==> joined == "")
    ensures r.Some? && ',' in joined ==> manyKey <= r.value
    ensures r.Some? && ',' !in joined ==> oneKey <= r.value
  {
    if ',' in joined then IsIn(Some(manyKey), Some(Bracket(joined)))
    else Equals(Some(oneKey), Some(joined))
  }

  /** Concatenations of string literals that the solver does not fold on its own; the
      lemmas that spell out rendered filters call this once instead of asserting each. */
  lemma LiteralConcats()
    ensures " IN " + "(" == " IN ("
    ensures "WhatId" + " IN (" == "WhatId IN ("
    ensures "ParentId" + " = '" == "ParentId = '"
    ensures "SELECT " + "Id" + " FROM " == "SELECT Id FROM "
    ensures "CaseNumber" + " IN " == "CaseNumber IN "
    ensures "CaseNumber" + " = " == "CaseNumber = "
  {
  }

  lemma RawFilterShape(manyKey: string, oneKey: string, joined: string)
    requires manyKey != "" && oneKey != ""
    ensures ',' in joined ==> RawFilter(manyKey, oneKey, joined) == Some(manyKey + " IN (" + joined + ")")
    ensures ',' !in joined && joined != "" ==>
      RawFilter(manyKey, oneKey, joined) == Some(oneKey + " = '" + joined + "'")
    ensures joined == "" ==> RawFilter(manyKey, oneKey, joined) == None
  {
    LiteralConcats();
    assert manyKey + " IN " + Bracket(joined) == manyKey + " IN (" + joined + ")";
  }

  /** CaseComment and Chatter: `ParentId` for one value or several. */
  function RawExtra(key: string, ref: Option<CaseRef>): (r: Result<Extra, PyError>)
    ensures r.Success? && (r.value.NoFilter? <==> !RefTruthy(ref))
    ensures key != "" && RefTruthy(ref) ==> (r.value.f.None? <==> Joined(ref.value) == "")
  {
    if RefTruthy(ref) then Success(AddFilter(RawFilter(key, key, Joined(ref.value))))
    else Success(NoFilter)
  }

  /** Task: `WhatId IN (...)` for several values, but `ParentId = '...'` for one. */
  function TaskExtra(ref: Option<CaseRef>): (r: Result<Extra, PyError>)
    ensures r.Success? && (r.value.NoFilter? <==> !RefTruthy(ref))
    ensures RefTruthy(ref) ==> (r.value.f.None? <==> Joined(ref.value) == "")
  {
    if RefTruthy(ref) then Success(AddFilter(RawFilter("WhatId", "ParentId", Joined(ref.value))))
    else Success(NoFilter)
  }

  /** ScrumMember: the key is `obj['ScrumMember']['TeamName']`, read only when a team
      name is given. */
  function ScrumExtra(schema: Schema, ref: Option<CaseRef>): (r: Result<Extra, PyError>)
    ensures !RefTruthy(ref) ==> r == Success(NoFilter)
    ensures r.Failure? ==> r.error == KeyError("ScrumMember") || r.error == KeyError("TeamName")
    ensures r.Success? && RefTruthy(ref) ==> r.value.AddFilter?
  {
    if !RefTruthy(ref) then Success(NoFilter)
    else if "ScrumMember" !in schema then Failure(KeyError("ScrumMember"))
    else if "TeamName" !in schema["ScrumMember"] then Failure(KeyError("TeamName"))
    else
      var key := schema["ScrumMember"]["TeamName"];
      Success(AddFilter(RawFilter(key, key, Joined(ref.value))))
  }

  /** Task filters several ids on `WhatId` but a single id on `ParentId`. */
  lemma TaskExtraShape(ref: Option<CaseRef>)
    requires RefTruthy(ref) && Joined(ref.value) != ""
    ensures var ids := Joined(ref.value);
      TaskExtra(ref) == Success(AddFilter(Some(
        if ',' in ids then "WhatId IN (" + ids + ")" else "ParentId = '" + ids + "'")))
  {
    var ids := Joined(ref.value);
    RawFilterShape("WhatId", "ParentId", ids);
    LiteralConcats();
  }

  /** ScrumMember takes its key from the schema table, and fails with KeyError only when
      a team name is given and the table lacks the entry. */
  lemma ScrumExtraShape(schema: Schema, ref: Option<CaseRef>)
    ensures ScrumExtra(schema, ref).Failure? <==>
      RefTruthy(ref) && !("ScrumMember" in schema && "TeamName" in schema["ScrumMember"])
    ensures (&& RefTruthy(ref) && "ScrumMember" in schema && "TeamName" in schema["ScrumMember"]
             && schema["ScrumMember"]["TeamName"] != "" && Joined(ref.value) != "") ==>
      var key := schema["ScrumMember"]["TeamName"];
      var names := Joined(ref.value);
      ScrumExtra(schema, ref) == Success(AddFilter(Some(
        if ',' in names then key + " IN (" + names + ")" else key + " = '" + names + "'")))
  {
    if RefTruthy(ref) && "ScrumMember" in schema && "TeamName" in schema["ScrumMember"] {
      var key := schema["ScrumMember"]["TeamName"];
      if key != "" {
        RawFilterShape(key, key, Joined(ref.value));
      }
    }
  }

  /** The query of a builder in state `st` after `query_object(alias)` and `generate()`. */
  function RenderFor(schema: Schema, alias: string, st: BuilderState): Result<string, PyError> {
    match NewQuery(schema, alias)
    case Failure(e) => Failure(e)
    case Success(q) => Generated(st.(queryObj := Some(q)))
  }

  /** `Case(filters=f).create()` as written: no `fields` is passed, so `fields(None)`
      raises TypeError before anything is rendered. */
  function CaseSubquery(schema: Schema, caseFilter: Option<string>): (r: Result<string, PyError>)
    ensures r == Failure(TypeError)
  {
    match Initial(FieldOther, caseFilter, None, None, None)
    case Failure(e) => Failure(e)
    case Success(st) => RenderFor(schema, "Case", st)
  }

  /** The evidently intended nested Case query: the builder keeps its default "Id". */
  function CaseSubqueryIntended(schema: Schema, caseFilter: Option<string>): (r: Result<string, PyError>)
    ensures r.Success? <==> NewQuery(schema, "Case").Success?
    ensures NewQuery(schema, "Case").Success? ==> Head("Id", NewQuery(schema, "Case").value.obj) <= r.value
  {
    match Initial(FieldStr("Id"), caseFilter, None, None, None)
    case Failure(e) => Failure(e)
    case Success(st) => RenderFor(schema, "Case", st)
  }

  /** The nested relationship filter of Attachment, CIStep and ReleaseEvent, given what
      building the Case query yields: `key IN (<Case query>)` for several numbers,
      `key = '<Case query>'` for one. */
  function NestedExtraVia(key: string, ref: Option<CaseRef>, caseQuery: Option<string> -> Result<string, PyError>)
    : (r: Result<Extra, PyError>)
    ensures !RefTruthy(ref) ==> r == Success(NoFilter)
    ensures RefTruthy(ref) && r.Success? ==> r.value.AddFilter? && (key == "" ==> r.value.f.None?)
    ensures r.Failure? ==>
      && RefTruthy(ref)
      && var numbers := Joined(ref.value);
         caseQuery(if ',' in numbers then IsIn(Some("CaseNumber"), Some(Bracket(numbers)))
                   else Equals(Some("CaseNumber"), Some(numbers))) == Failure(r.error)
  {
    if !RefTruthy(ref) then Success(NoFilter)
    else
      var numbers := Joined(ref.value);
      if ',' in numbers then
        match caseQuery(IsIn(Some("CaseNumber"), Some(Bracket(numbers))))
        case Failure(e) => Failure(e)
        case Success(sub) => Success(AddFilter(IsIn(Some(key), Some(Bracket(sub)))))
      else
        match caseQuery(Equals(Some("CaseNumber"), Some(numbers)))
        case Failure(e) => Failure(e)
        case Success(sub) => Success(AddFilter(Equals(Some(key), Some(sub))))
  }

  /** The nested relationship filter as written. */
  function NestedExtra(schema: Schema, key: string, ref: Option<CaseRef>): (r: Result<Extra, PyError>)
    ensures r.Success? <==> !RefTruthy(ref)
    ensures r.Failure? ==> r.error == TypeError
  {
    NestedExtraVia(key, ref, f => CaseSubquery(schema, f))
  }

  /** The nested relationship filter as evidently intended. */
  function NestedExtraIntended(schema: Schema, key: string, ref: Option<CaseRef>): (r: Result<Extra, PyError>)
    ensures !RefTruthy(ref) ==> r == Success(NoFilter)
    ensures RefTruthy(ref) ==> (r.Success? <==> NewQuery(schema, "Case").Success?)
    ensures RefTruthy(ref) && r.Success? ==> r.value.AddFilter?
  {
    NestedExtraVia(key, ref, f => CaseSubqueryIntended(schema, f))
  }

  /** As written, every truthy case number makes the nested `Case(...)` raise TypeError;
      a falsy one adds no filter. */
  lemma NestedExtraRaises(schema: Schema, key: string, ref: Option<CaseRef>)
    ensures NestedExtra(schema, key, ref) == if RefTruthy(ref) then Failure(TypeError) else Success(NoFilter)
  {
  }

  /** The name the "Case" alias resolves to, when it resolves. */
  function CaseObject(schema: Schema): string
    requires NewQuery(schema, "Case").Success?
  {
    NewQuery(schema, "Case").value.obj
  }

  /** The intended nested Case query for a truthy case-number filter. */
  lemma CaseSubqueryIntendedText(schema: Schema, f: Option<string>)
    requires Truthy(f)
    requires NewQuery(schema, "Case").Success?
    ensures CaseSubqueryIntended(schema, f) ==
      Success("SELECT Id FROM " + CaseObject(schema) + " WHERE " + f.value)
  {
    var c := CaseObject(schema);
    assert Create(Query(c), "Id", f, None, None, None) == Head("Id", c) + " WHERE " + f.value;
    LiteralConcats();
    assert Head("Id", c) == "SELECT Id FROM " + c;
  }

  /** Several case numbers: the filter compares the key with the bracketed Case query. */
  lemma ViaMany(key: string, ref: Option<CaseRef>, caseQuery: Option<string> -> Result<string, PyError>, sub: string)
    requires RefTruthy(ref) && ',' in Joined(ref.value)
    requires caseQuery(IsIn(Some("CaseNumber"), Some(Bracket(Joined(ref.value))))) == Success(sub)
    ensures NestedExtraVia(key, ref, caseQuery) == Success(AddFilter(IsIn(Some(key), Some(Bracket(sub)))))
  {
  }

  /** One case number: the filter compares the key with the quoted Case query. */
  lemma ViaOne(key: string, ref: Option<CaseRef>, caseQuery: Option<string> -> Result<string, PyError>, sub: string)
    requires RefTruthy(ref) && ',' !in Joined(ref.value)
    requires caseQuery(Equals(Some("CaseNumber"), Some(Joined(ref.value)))) == Success(sub)
    ensures NestedExtraVia(key, ref, caseQuery) == Success(AddFilter(Equals(Some(key), Some(sub))))
  {
  }

  /** The intended Case query for several case numbers. */
  lemma ManySubquery(schema: Schema, numbers: string)
    requires NewQuery(schema, "Case").Success?
    ensures CaseSubqueryIntended(schema, IsIn(Some("CaseNumber"), Some(Bracket(numbers)))) ==
      Success("SELECT Id FROM " + CaseObject(schema) + " WHERE " + ("CaseNumber IN " + Bracket(numbers)))
  {
    var f := IsIn(Some("CaseNumber"), Some(Bracket(numbers)));
    LiteralConcats();
    assert f == Some("CaseNumber IN " + Bracket(numbers));
    CaseSubqueryIntendedText(schema, f);
  }

  /** The intended Case query for one case number. */
  lemma OneSubquery(schema: Schema, number: string)
    requires number != ""
    requires NewQuery(schema, "Case").Success?
    ensures CaseSubqueryIntended(schema, Equals(Some("CaseNumber"), Some(number))) ==
      Success("SELECT Id FROM " + CaseObject(schema) + " WHERE " + ("CaseNumber = " + Quote(number)))
  {
    var f := Equals(Some("CaseNumber"), Some(number));
    LiteralConcats();
    assert f == Some("CaseNumber = " + Quote(number));
    CaseSubqueryIntendedText(schema, f);
  }

  /** As intended, several case numbers give `key IN (SELECT Id FROM <Case> WHERE
      CaseNumber IN (<numbers>))`. */
  lemma NestedIntendedMany(schema: Schema, key: string, ref: Option<CaseRef>)
    requires key != "" && RefTruthy(ref) && ',' in Joined(ref.value)
    requires NewQuery(schema, "Case").Success?
    ensures var head := "SELECT Id FROM " + CaseObject(schema) + " WHERE ";
      NestedExtraIntended(schema, key, ref) ==
        Success(AddFilter(Some(key + " IN " + Bracket(head + ("CaseNumber IN " + Bracket(Joined(ref.value)))))))
  {
    var numbers := Joined(ref.value);
    var sub := "SELECT Id FROM " + CaseObject(schema) + " WHERE " + ("CaseNumber IN " + Bracket(numbers));
    assert NestedExtraIntended(schema, key, ref) == Success(AddFilter(IsIn(Some(key), Some(Bracket(sub))))) by {
      ManySubquery(schema, numbers);
      ViaMany(key, ref, f => CaseSubqueryIntended(schema, f), sub);
    }
    assert IsIn(Some(key), Some(Bracket(sub))) == Some(key + " IN " + Bracket(sub));
  }

  /** As intended, one case number gives `key = 'SELECT Id FROM <Case> WHERE
      CaseNumber = '<number>''`: the whole subquery compared as a quoted literal. */
  lemma NestedIntendedOne(schema: Schema, key: string, ref: Option<CaseRef>)
    requires key != "" && RefTruthy(ref) && ',' !in Joined(ref.value) && Joined(ref.value) != ""
    requires NewQuery(schema, "Case").Success?
    ensures var head := "SELECT Id FROM " + CaseObject(schema) + " WHERE ";
      NestedExtraIntended(schema, key, ref) ==
        Success(AddFilter(Some(key + " = " + Quote(head + ("CaseNumber = " + Quote(Joined(ref.value)))))))
  {
    var number := Joined(ref.value);
    var sub := "SELECT Id FROM " + CaseObject(schema) + " WHERE " + ("CaseNumber = " + Quote(number));
    assert NestedExtraIntended(schema, key, ref) == Success(AddFilter(Equals(Some(key), Some(sub)))) by {
      OneSubquery(schema, number);
      ViaOne(key, ref, f => CaseSubqueryIntended(schema, f), sub);
    }
    assert Equals(Some(key), Some(sub)) == Some(key + " = " + Quote(sub));
  }

  /** After a `create`: the builder's attributes, its cached `query`, and what it returned. */
  datatype Step = Step(state: BuilderState, query: Option<string>, result: Result<string, PyError>)

  /** Every `create`: `query_object(alias)`, then the relationship filter (if any) through
      `filters()`, then `generate()`; an exception stops the sequence where it is raised. */
  function CreateStep(schema: Schema, alias: string, st: BuilderState, query: Option<string>,
                      extra: Result<Extra, PyError>): (s: Step)
    ensures s.result.Success? <==> NewQuery(schema, alias).Success? && extra.Success?
    ensures s.result.Success? ==> s.query == Some(s.result.value)
    ensures s.result.Failure? ==> s.query == query
    ensures NewQuery(schema, alias).Failure? ==> s.state == st && s.result == Failure(NewQuery(schema, alias).error)
    ensures NewQuery(schema, alias).Success? ==> s.state.queryObj == Some(NewQuery(schema, alias).value)
    ensures s.result.Success? ==> Head(st.fieldValue, NewQuery(schema, alias).value.obj) <= s.result.value
    ensures NewQuery(schema, alias).Success? && extra.Success? && extra.value.AddFilter? ==>
      s.state.filterValue == FilterUpdate(st.filterValue, extra.value.f, true)
    ensures NewQuery(schema, alias).Success? && !(extra.Success? && extra.value.AddFilter?) ==>
      s.state.filterValue == st.filterValue
    ensures s.result.Success? ==>
      s.result.value == Create(NewQuery(schema, alias).value, s.state.fieldValue, s.state.filterValue,
                               s.state.sortBy, s.state.sortSeq, s.state.limitValue)
  {
    match NewQuery(schema, alias)
    case Failure(e) => Step(st, query, Failure(e))
    case Success(q) =>
      var st1 := st.(queryObj := Some(q));
      match extra
      case Failure(e) => Step(st1, query, Failure(e))
      case Success(x) =>
        var st2 := if x.AddFilter? then st1.(filterValue := FilterUpdate(st1.filterValue, x.f, true)) else st1;
        var out := Create(q, st2.fieldValue, st2.filterValue, st2.sortBy, st2.sortSeq, st2.limitValue);
        Step(st2, Some(out), Success(out))
  }

  /** A `create` leaves the fields, limit and sort untouched, succeeds exactly when the
      alias resolves and the relationship filter could be built, and then returns (and
      caches) what `generate()` renders from the new state. */
  lemma CreateStepRendersState(schema: Schema, alias: string, st: BuilderState, query: Option<string>,
                               extra: Result<Extra, PyError>)
    ensures var s := CreateStep(schema, alias, st, query, extra);
      && s.state.fieldValue == st.fieldValue && s.state.limitValue == st.limitValue
      && s.state.sortBy == st.sortBy && s.state.sortSeq == st.sortSeq
      && (s.result.Success? <==> NewQuery(schema, alias).Success? && extra.Success?)
      && (s.result.Success? ==> s.result == Generated(s.state) && s.query == Some(s.result.value))
      && (s.result.Failure? ==> s.query == query)
      && (extra.Success? && extra.value.NoFilter? ==> s.state.filterValue == st.filterValue)
      && (NewQuery(schema, alias).Success? && extra.Success? && extra.value.AddFilter? ==>
            s.state.filterValue == FilterUpdate(st.filterValue, extra.value.f, true))
  {
  }

  /** The query for raw values with no earlier filter: WHERE holds the IN or = predicate. */
  lemma RawCreateShape(schema: Schema, alias: string, key: string, st: BuilderState, query: Option<string>,
                       ref: Option<CaseRef>)
    requires key != "" && RefTruthy(ref) && Joined(ref.value) != ""
    requires !Truthy(st.filterValue)
    requires NewQuery(schema, alias).Success?
    ensures var s := CreateStep(schema, alias, st, query, RawExtra(key, ref));
      var q := NewQuery(schema, alias).value;
      var numbers := Joined(ref.value);
      s.result == Success(Create(q, st.fieldValue,
        Some(if ',' in numbers then key + " IN (" + numbers + ")" else key + " = '" + numbers + "'"),
        st.sortBy, st.sortSeq, st.limitValue))
  {
    RawFilterShape(key, key, Joined(ref.value));
  }

  /** Several values given as a list always take the IN form; one comma-free value the = form. */
  lemma ListArgumentForm(items: seq<string>)
    requires forall k :: 0 <= k < |items| ==> ',' !in items[k]
    ensures ',' in Joined(Many(items)) <==> |items| >= 2
  {
    JoinFreeOfSeparator(items, ',');
  }
}

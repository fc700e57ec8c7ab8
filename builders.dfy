/** `GUSObject` of guspy/__init__.py: a mutable query builder, and the `create` methods
    of its subclasses, one method per subclass. Every method is proved against the
    pure specification in module Queries. */
module Builders {
  import opened Wrappers
  import opened Queries

  class GUSObject {
    var fieldValue: string
    var filterValue: Option<string>
    var limitValue: Option<int>
    var sortBy: Option<string>
    var sortSeq: Option<string>
    var queryObj: Option<Query>
    var query: Option<string>

    /** The builder's attributes, as one value. */
    function State(): BuilderState
      reads this
    {
      BuilderState(fieldValue, filterValue, limitValue, sortBy, sortSeq, queryObj)
    }

    /** The attributes before `fields()` runs in `__init__`: `field_value` is "Id" and,
        unlike the source, `filter_value` already exists and is absent. */
    constructor Blank()
      ensures State() == BuilderState("Id", None, None, None, None, None)
      ensures query == None
    {
      fieldValue := "Id";
      filterValue := None;
      limitValue := None;
      sortBy := None;
      sortSeq := None;
      queryObj := None;
      query := None;
    }

    /** `fields(fields)`: a str is stored verbatim, a list comma-joined; anything else
        raises TypeError and leaves `field_value` as it was. */
    method Fields(fields: FieldsArg) returns (r: Outcome<PyError>)
      modifies this`fieldValue
      ensures r.Fail? <==> FieldsValue(fields).Failure?
      ensures r.Fail? ==> r.error == TypeError && fieldValue == old(fieldValue)
      ensures r.Pass? ==> fieldValue == FieldsValue(fields).value
    {
      match FieldsValue(fields)
      case Failure(e) =>
        r := Fail(e);
      case Success(v) =>
        fieldValue := v;
        r := Pass;
    }

    /** `filters(filters, inclusive=True)`. */
    method Filters(filters: Option<string>, inclusive: bool := true)
      modifies this`filterValue
      ensures filterValue == FilterUpdate(old(filterValue), filters, inclusive)
      ensures Truthy(old(filterValue)) ==> filterValue.Some? && filterValue.value[..1] == " "
    {
      if Truthy(filterValue) {
        filterValue := Some(" " + (if inclusive then "AND" else "OR") + " " + PyStr(filters));
      } else {
        filterValue := filters;
      }
    }

    /** `limit(num=15)`. */
    method Limit(num: Option<int> := Some(15))
      modifies this`limitValue
      ensures limitValue == num
    {
      limitValue := num;
    }

    /** `sort(field, seq="DESC")`. */
    method Sort(field: Option<string>, order: Option<string> := Some("DESC"))
      modifies this`sortBy, this`sortSeq
      ensures sortBy == field && sortSeq == order
    {
      sortBy := field;
      sortSeq := order;
    }

    /** `query_object(object_name)`: a KeyError from `Query` leaves `query_obj` as it was. */
    method QueryObject(schema: Schema, name: string) returns (r: Outcome<PyError>)
      modifies this`queryObj
      ensures r.Fail? <==> NewQuery(schema, name).Failure?
      ensures r.Fail? ==> r.error == NewQuery(schema, name).error && queryObj == old(queryObj)
      ensures r.Pass? ==> queryObj == Some(NewQuery(schema, name).value)
    {
      match NewQuery(schema, name)
      case Failure(e) =>
        r := Fail(e);
      case Success(q) =>
        queryObj := Some(q);
        r := Pass;
    }

    /** `generate()`: renders the query from the attributes alone and caches it. */
    method Generate() returns (r: Result<string, PyError>)
      modifies this`query
      ensures r == Generated(State())
      ensures r.Success? ==> query == Some(r.value)
      ensures r.Failure? ==> query == old(query)
    {
      match queryObj
      case None =>
        r := Failure(AttributeError("query_obj"));
      case Some(q) =>
        var text := Create(q, fieldValue, filterValue, sortBy, sortSeq, limitValue);
        query := Some(text);
        r := Success(text);
    }

    /** Two `generate()` calls with no setter in between return the same text. */
    method GenerateTwice() returns (first: Result<string, PyError>, second: Result<string, PyError>)
      modifies this`query
      ensures first == second == Generated(State())
    {
      first := Generate();
      second := Generate();
    }

    /** The tail shared by every `create`: `query_object(alias)`, then the relationship
        filter, if the subclass builds one, through `filters()`, then `generate()`. */
    method CreateWith(schema: Schema, alias: string, extra: Result<Extra, PyError>)
      returns (r: Result<string, PyError>)
      modifies this`queryObj, this`filterValue, this`query
      ensures Step(State(), query, r) == CreateStep(schema, alias, old(State()), old(query), extra)
    {
      var ok := QueryObject(schema, alias);
      if ok.Fail? {
        return Failure(ok.error);
      }
      if extra.Failure? {
        return Failure(extra.error);
      }
      if extra.value.AddFilter? {
        Filters(extra.value.f);
      }
      r := Generate();
    }

    /** `Apprise.create()`: the "AppriseLogs" alias. */
    method CreateApprise(schema: Schema) returns (r: Result<string, PyError>)
      modifies this`queryObj, this`filterValue, this`query
      ensures Step(State(), query, r) ==
        CreateStep(schema, "AppriseLogs", old(State()), old(query), Success(NoFilter))
    {
      r := CreateWith(schema, "AppriseLogs", Success(NoFilter));
    }

    /** `Case.create()`. */
    method CreateCase(schema: Schema) returns (r: Result<string, PyError>)
      modifies this`queryObj, this`filterValue, this`query
      ensures Step(State(), query, r) ==
        CreateStep(schema, "Case", old(State()), old(query), Success(NoFilter))
    {
      r := CreateWith(schema, "Case", Success(NoFilter));
    }

    /** `ClusterInstanceLink.create()`: it queries the "CTCLock" alias. */
    method CreateClusterInstanceLink(schema: Schema) returns (r: Result<string, PyError>)
      modifies this`queryObj, this`filterValue, this`query
      ensures Step(State(), query, r) ==
        CreateStep(schema, "CTCLock", old(State()), old(query), Success(NoFilter))
    {
      r := CreateWith(schema, "CTCLock", Success(NoFilter));
    }

    /** `CTCLock.create()`. */
    method CreateCTCLock(schema: Schema) returns (r: Result<string, PyError>)
      modifies this`queryObj, this`filterValue, this`query
      ensures Step(State(), query, r) ==
        CreateStep(schema, "CTCLock", old(State()), old(query), Success(NoFilter))
    {
      r := CreateWith(schema, "CTCLock", Success(NoFilter));
    }

    /** `User.create()`. */
    method CreateUser(schema: Schema) returns (r: Result<string, PyError>)
      modifies this`queryObj, this`filterValue, this`query
      ensures Step(State(), query, r) ==
        CreateStep(schema, "User", old(State()), old(query), Success(NoFilter))
    {
      r := CreateWith(schema, "User", Success(NoFilter));
    }

    /** `Release.create()`. */
    method CreateRelease(schema: Schema) returns (r: Result<string, PyError>)
      modifies this`queryObj, this`filterValue, this`query
      ensures Step(State(), query, r) ==
        CreateStep(schema, "Release", old(State()), old(query), Success(NoFilter))
    {
      r := CreateWith(schema, "Release", Success(NoFilter));
    }

    /** `InstanceDatacenter.create()`. */
    method CreateInstanceDatacenter(schema: Schema) returns (r: Result<string, PyError>)
      modifies this`queryObj, this`filterValue, this`query
      ensures Step(State(), query, r) ==
        CreateStep(schema, "InstanceDatacenter", old(State()), old(query), Success(NoFilter))
    {
      r := CreateWith(schema, "InstanceDatacenter", Success(NoFilter));
    }

    /** `CaseComment.create(case_number=None)`: `ParentId` against the raw values. */
    method CreateCaseComment(schema: Schema, caseNumber: Option<CaseRef> := None)
      returns (r: Result<string, PyError>)
      modifies this`queryObj, this`filterValue, this`query
      ensures Step(State(), query, r) ==
        CreateStep(schema, "CaseComment", old(State()), old(query), RawExtra("ParentId", caseNumber))
    {
      r := CreateWith(schema, "CaseComment", RawExtra("ParentId", caseNumber));
    }

    /** `Chatter.create(case_id=None)`: `ParentId` against the raw values. */
    method CreateChatter(schema: Schema, caseId: Option<CaseRef> := None)
      returns (r: Result<string, PyError>)
      modifies this`queryObj, this`filterValue, this`query
      ensures Step(State(), query, r) ==
        CreateStep(schema, "Chatter", old(State()), old(query), RawExtra("ParentId", caseId))
    {
      r := CreateWith(schema, "Chatter", RawExtra("ParentId", caseId));
    }

    /** `Task.create(case_id)`: `WhatId` for several values, `ParentId` for one. */
    method CreateTask(schema: Schema, caseId: Option<CaseRef>) returns (r: Result<string, PyError>)
      modifies this`queryObj, this`filterValue, this`query
      ensures Step(State(), query, r) ==
        CreateStep(schema, "Task", old(State()), old(query), TaskExtra(caseId))
    {
      r := CreateWith(schema, "Task", TaskExtra(caseId));
    }

    /** `ScrumMember.create(team_name=None)`: the key comes from the schema table. */
    method CreateScrumMember(schema: Schema, teamName: Option<CaseRef> := None)
      returns (r: Result<string, PyError>)
      modifies this`queryObj, this`filterValue, this`query
      ensures Step(State(), query, r) ==
        CreateStep(schema, "ScrumMember", old(State()), old(query), ScrumExtra(schema, teamName))
    {
      r := CreateWith(schema, "ScrumMember", ScrumExtra(schema, teamName));
    }

    /** `Attachment.create(case_number)`: `ParentId` against a nested Case query, which as
        written raises TypeError for any truthy case number. */
    method CreateAttachment(schema: Schema, caseNumber: Option<CaseRef>) returns (r: Result<string, PyError>)
      modifies this`queryObj, this`filterValue, this`query
      ensures Step(State(), query, r) ==
        CreateStep(schema, "Attachment", old(State()), old(query), NestedExtra(schema, "ParentId", caseNumber))
      ensures RefTruthy(caseNumber) ==>
        r == (if NewQuery(schema, "Attachment").Failure? then Failure(KeyError("Object")) else Failure(TypeError))
    {
      NestedExtraRaises(schema, "ParentId", caseNumber);
      r := CreateWith(schema, "Attachment", NestedExtra(schema, "ParentId", caseNumber));
    }

    /** `CIStep.create(case_number)`: `Case__c` against a nested Case query. */
    method CreateCIStep(schema: Schema, caseNumber: Option<CaseRef>) returns (r: Result<string, PyError>)
      modifies this`queryObj, this`filterValue, this`query
      ensures Step(State(), query, r) ==
        CreateStep(schema, "CIStep", old(State()), old(query), NestedExtra(schema, "Case__c", caseNumber))
    {
      r := CreateWith(schema, "CIStep", NestedExtra(schema, "Case__c", caseNumber));
    }

    /** `ReleaseEvent.create(case_number=None)`: `ChangeCase__c` against a nested Case query. */
    method CreateReleaseEvent(schema: Schema, caseNumber: Option<CaseRef> := None)
      returns (r: Result<string, PyError>)
      modifies this`queryObj, this`filterValue, this`query
      ensures Step(State(), query, r) ==
        CreateStep(schema, "ReleaseEvent", old(State()), old(query), NestedExtra(schema, "ChangeCase__c", caseNumber))
    {
      r := CreateWith(schema, "ReleaseEvent", NestedExtra(schema, "ChangeCase__c", caseNumber));
    }
  }

  /** `GUSObject(fields=None, filters=None, limit=None, sort_by=None, sort_seq=None)`:
      `fields()`, `filters()`, `limit()` and `sort()` in turn; the TypeError of `fields()`
      propagates out of the constructor. */
  method NewGUSObject(fields: FieldsArg := FieldOther, filters: Option<string> := None,
                      limit: Option<int> := None, sortBy: Option<string> := None,
                      sortSeq: Option<string> := None)
    returns (r: Result<GUSObject, PyError>)
    ensures r.Failure? <==> Initial(fields, filters, limit, sortBy, sortSeq).Failure?
    ensures r.Failure? ==> r.error == TypeError
    ensures r.Success? ==>
      && fresh(r.value) && r.value.query == None
      && r.value.State() == Initial(fields, filters, limit, sortBy, sortSeq).value
  {
    var o := new GUSObject.Blank();
    var ok := o.Fields(fields);
    if ok.Fail? {
      return Failure(ok.error);
    }
    o.Filters(filters);
    o.Limit(limit);
    o.Sort(sortBy, sortSeq);
    return Success(o);
  }
}

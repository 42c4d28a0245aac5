/**
 * The ORM front object (SalesforceORM.js): a registry of model descriptions
 * with unique names, the search statement builder, the mapping of a bulk
 * query response onto record instances, and the `search` and `query` entry
 * points flattened into one sequential step each. The transport's
 * `queryAll` is represented by the response it hands to its callback, and
 * `FormatQuery` by the identity.
 */
module Orm {
  import opened JsValues
  import opened Text
  import Connection
  import opened Records

  // The registry, as values.

  /** Some registered model is called `name` (compared with `===`). */
  predicate HasName(ms: seq<ModelDescription>, name: string) {
    exists i :: 0 <= i < |ms| && ms[i].name == name
  }

  /** No two registered models share a name. */
  predicate DistinctNames(ms: seq<ModelDescription>) {
    forall i, j :: 0 <= i < j < |ms| ==> ms[i].name != ms[j].name
  }

  /** `k` is the first position whose model is called `name`. */
  predicate IsFirstMatch(ms: seq<ModelDescription>, name: string, k: int) {
    0 <= k < |ms| && ms[k].name == name && forall j :: 0 <= j < k ==> ms[j].name != name
  }

  /** The model `_getModel` answers with; `None` stands for `null`. */
  function Find(ms: seq<ModelDescription>, name: string): (r: Option<ModelDescription>)
    ensures r.None? <==> !HasName(ms, name)
    ensures r.Some? ==> exists k :: IsFirstMatch(ms, name, k) && ms[k] == r.value
  {
    if |ms| == 0 then None
    else if ms[0].name == name then
      assert IsFirstMatch(ms, name, 0);
      Some(ms[0])
    else
      var r := Find(ms[1..], name);
      assert HasName(ms[1..], name) ==> HasName(ms, name) by {
        if HasName(ms[1..], name) {
          var i :| 0 <= i < |ms[1..]| && ms[1..][i].name == name;
          assert ms[i + 1].name == name;
        }
      }
      assert HasName(ms, name) ==> HasName(ms[1..], name) by {
        if HasName(ms, name) {
          var i :| 0 <= i < |ms| && ms[i].name == name;
          assert i > 0 && ms[1..][i - 1].name == name;
        }
      }
      if r.Some? then
        var k :| IsFirstMatch(ms[1..], name, k) && ms[1..][k] == r.value;
        assert IsFirstMatch(ms, name, k + 1);
        r
      else r
  }

  /** The first match is the one `Find` returns. */
  lemma {:induction false} FindFirstMatch(ms: seq<ModelDescription>, name: string, k: int)
    requires IsFirstMatch(ms, name, k)
    ensures Find(ms, name) == Some(ms[k])
  {
    if k > 0 {
      assert IsFirstMatch(ms[1..], name, k - 1);
      FindFirstMatch(ms[1..], name, k - 1);
    }
  }

  /** With distinct names, looking up a registered model's name finds
      exactly that model. */
  lemma FindRegistered(ms: seq<ModelDescription>, i: int)
    requires DistinctNames(ms) && 0 <= i < |ms|
    ensures Find(ms, ms[i].name) == Some(ms[i])
  {
    assert IsFirstMatch(ms, ms[i].name, i);
    FindFirstMatch(ms, ms[i].name, i);
  }

  /** The registry after `addModel(d)`: unchanged when the name is taken,
      `d` appended otherwise. */
  function Register(ms: seq<ModelDescription>, d: ModelDescription): seq<ModelDescription> {
    if HasName(ms, d.name) then ms else ms + [d]
  }

  /** Registering keeps the names distinct, grows the registry by at most
      one, and makes `d.name` resolve: to `d` when it was new, to the model
      already registered under it otherwise. */
  lemma RegisterProperties(ms: seq<ModelDescription>, d: ModelDescription)
    requires DistinctNames(ms)
    ensures DistinctNames(Register(ms, d))
    ensures |Register(ms, d)| == |ms| + (if HasName(ms, d.name) then 0 else 1)
    ensures Register(ms, d)[..|ms|] == ms
    ensures HasName(Register(ms, d), d.name)
    ensures !HasName(ms, d.name) ==> Find(Register(ms, d), d.name) == Some(d)
    ensures HasName(ms, d.name) ==> Find(Register(ms, d), d.name) == Find(ms, d.name)
  {
    var r := Register(ms, d);
    if !HasName(ms, d.name) {
      assert r[|ms|] == d;
      FindRegistered(r, |ms|);
    }
  }

  /** Other names resolve as before. */
  lemma RegisterKeepsOtherLookups(ms: seq<ModelDescription>, d: ModelDescription, name: string)
    requires name != d.name
    ensures HasName(Register(ms, d), name) <==> HasName(ms, name)
    ensures Find(Register(ms, d), name) == Find(ms, name)
  {
    var r := Register(ms, d);
    if !HasName(ms, d.name) {
      assert HasName(r, name) ==> HasName(ms, name) by {
        if HasName(r, name) {
          var i :| 0 <= i < |r| && r[i].name == name;
          assert i < |ms| && ms[i].name == name;
        }
      }
      assert HasName(ms, name) ==> HasName(r, name) by {
        if HasName(ms, name) {
          var i :| 0 <= i < |ms| && ms[i].name == name;
          assert r[i].name == name;
        }
      }
      if HasName(ms, name) {
        var f := Find(ms, name);
        var k :| IsFirstMatch(ms, name, k) && ms[k] == f.value;
        assert IsFirstMatch(r, name, k);
        FindFirstMatch(r, name, k);
      }
    }
  }

  // The search statement.

  /** `_getSearchQuery`: the model's fields and the extra fields are each
      joined by ", " and the two lists are separated by a single space. */
  function SearchQuery(d: ModelDescription, where: string, extra: seq<string>): string {
    "SELECT " + Join(d.fields, ", ") + " " + Join(extra, ", ") + " FROM " + d.name + " WHERE " + where
  }

  /** The words of a search statement: the model's field list, then the
      extra field list, then the model name and the filter in their slots. */
  lemma SearchQueryWords(d: ModelDescription, where: string, extra: seq<string>)
    ensures Words(SearchQuery(d, where, extra)) ==
      ["SELECT"] + ListWords(d.fields) + ListWords(extra) + ["FROM"] + Words(d.name) + ["WHERE"] + Words(where)
  {
    var j1 := Join(d.fields, ", ");
    var j2 := Join(extra, ", ");
    JoinWords(d.fields);
    JoinWords(extra);
    SelectWords(j1);
    var a := "SELECT " + j1;
    WordsSplice(a, j2);
    var b := a + " " + j2;
    var c := b + " FROM " + d.name;
    assert Words(c) == Words(b) + ["FROM"] + Words(d.name) by {
      InfixWords(b, " FROM ", ["FROM"], d.name);
    }
    assert Words(c + " WHERE " + where) == Words(c) + ["WHERE"] + Words(where) by {
      InfixWords(c, " WHERE ", ["WHERE"], where);
    }
  }

  /** Without extra fields the statement has two spaces before FROM: an
      empty word sits between the field list and FROM. */
  lemma SearchWithoutExtrasDoublesSpace(d: ModelDescription, where: string)
    ensures Words(SearchQuery(d, where, [])) ==
      ["SELECT"] + ListWords(d.fields) + ["", "FROM"] + Words(d.name) + ["WHERE"] + Words(where)
  {
    SearchQueryWords(d, where, []);
  }

  /** A model without fields but with extras starts its statement with two
      spaces: an empty word sits between SELECT and the extra fields. */
  lemma NoFieldsDoublesSpace(d: ModelDescription, where: string, extra: seq<string>)
    requires d.fields == [] && |extra| > 0
    requires forall i :: 0 <= i < |extra| ==> ' ' !in extra[i]
    ensures Words(SearchQuery(d, where, extra)) ==
      ["SELECT", ""] + Punctuated(extra) + ["FROM"] + Words(d.name) + ["WHERE"] + Words(where)
  {
    SearchQueryWords(d, where, extra);
    assert ListWords(d.fields) == [""];
    ListWordsOfIdentifiers(extra);
  }

  /** With identifier fields and extras, each list reads back with commas
      inside it, but the last model field is followed by the first extra
      field with no comma between them. */
  lemma NoCommaBeforeExtras(d: ModelDescription, where: string, extra: seq<string>)
    requires |d.fields| > 0 && |extra| > 0
    requires forall i :: 0 <= i < |d.fields| ==> ' ' !in d.fields[i]
    requires forall i :: 0 <= i < |extra| ==> ' ' !in extra[i]
    ensures Words(SearchQuery(d, where, extra)) ==
      ["SELECT"] + Punctuated(d.fields) + Punctuated(extra) + ["FROM"] + Words(d.name) + ["WHERE"] + Words(where)
    ensures Words(SearchQuery(d, where, extra))[|d.fields|] == d.fields[|d.fields| - 1]
  {
    SearchQueryWords(d, where, extra);
    ListWordsOfIdentifiers(d.fields);
    ListWordsOfIdentifiers(extra);
    LastFieldWord(Punctuated(d.fields), Punctuated(extra) + ["FROM"] + Words(d.name) + ["WHERE"] + Words(where));
  }

  lemma LastFieldWord(p: seq<string>, rest: seq<string>)
    requires |p| > 0
    ensures (["SELECT"] + p + rest)[|p|] == p[|p| - 1]
  {
  }

  // The response of a search, as values.

  /** How `_onSearch` settles: rejected, or resolved with one copied row per
      record (the property maps the instances receive). */
  datatype SearchVerdict = Reject | Rows(rows: seq<map<string, Value>>)

  /** The records of a response whose `result.done` is `true`, or `None`
      where reading `result`, `done` or `records` throws or `done` is not
      `true`. */
  function DoneRecords(response: Value): (r: Option<seq<Value>>)
    ensures response == Undefined || response == Null ==> r.None?
  {
    match Member(response, "result")
    case Throw(_) => None
    case Normal(result) => ResultRecords(result)
  }

  /** The records of an unwrapped `result`, read as `_onSearch` reads them
      after `result = result.result`. */
  function ResultRecords(result: Value): Option<seq<Value>> {
    match Member(result, "done")
    case Throw(_) => None
    case Normal(done) =>
      if done != Bool(true) then None
      else
        match Member(result, "records")
        case Throw(_) => None
        case Normal(records) => Some(ForInValues(records))
  }

  /** What `_onSearch(promise, modelName, error, response)` settles with:
      building an instance for an unknown model throws inside the `try`, so
      any record at all rejects the search then; no record resolves with an
      empty list whatever the model. */
  function ExpectedSearch(ms: seq<ModelDescription>, modelName: string, response: Value): SearchVerdict {
    match DoneRecords(response)
    case None => Reject
    case Some(records) =>
      if |records| > 0 && !HasName(ms, modelName) then Reject
      else Rows(seq(|records|, i requires 0 <= i < |records| => Copied(records[i])))
  }

  /** A response with a `result` whose `done` is anything but `true` rejects;
      this covers a `result` that is a number, string or array, whose `done`
      reads as `undefined`. */
  lemma NotDoneRejects(ms: seq<ModelDescription>, modelName: string, ps: seq<(string, Value)>)
    requires Lookup(ps, "result") != Undefined && Lookup(ps, "result") != Null
    requires Member(Lookup(ps, "result"), "done") != Normal(Bool(true))
    ensures ExpectedSearch(ms, modelName, Obj(ps)).Reject?
  {
  }

  /** A response without a `result` object (reading `done` off `undefined`
      throws) rejects, as does a missing response. */
  lemma MalformedRejects(ms: seq<ModelDescription>, modelName: string, ps: seq<(string, Value)>)
    requires Lookup(ps, "result") == Undefined || Lookup(ps, "result") == Null
    ensures ExpectedSearch(ms, modelName, Obj(ps)).Reject?
    ensures ExpectedSearch(ms, modelName, Undefined).Reject?
    ensures ExpectedSearch(ms, modelName, Null).Reject?
  {
  }

  /** A response whose `result.done` is `true` hands over the items of its
      `records` array. */
  lemma CompletedResponseRecords(ps: seq<(string, Value)>, results: seq<(string, Value)>, records: seq<Value>)
    requires Lookup(ps, "result") == Obj(results)
    requires Lookup(results, "done") == Bool(true)
    requires Lookup(results, "records") == Arr(records)
    ensures DoneRecords(Obj(ps)) == Some(records)
  {
    CompletedResultRecords(results, records);
    assert Member(Obj(ps), "result") == Normal(Obj(results));
  }

  lemma CompletedResultRecords(results: seq<(string, Value)>, records: seq<Value>)
    requires Lookup(results, "done") == Bool(true)
    requires Lookup(results, "records") == Arr(records)
    ensures ResultRecords(Obj(results)) == Some(records)
  {
    assert Member(Obj(results), "done") == Normal(Bool(true));
    assert Member(Obj(results), "records") == Normal(Arr(records));
    ForInValuesOfArray(records);
  }

  /** For a completed search over an array of row objects on a registered
      model, the verdict lists every row in order, each copied key for key
      (`attributes` included). */
  lemma DoneSearchCopiesRows(ms: seq<ModelDescription>, modelName: string, rows: seq<seq<(string, Value)>>,
                             ps: seq<(string, Value)>, results: seq<(string, Value)>)
    requires HasName(ms, modelName)
    requires Lookup(ps, "result") == Obj(results)
    requires Lookup(results, "done") == Bool(true)
    requires Lookup(results, "records") == Arr(ObjArray(rows))
    ensures ExpectedSearch(ms, modelName, Obj(ps)).Rows?
    ensures |ExpectedSearch(ms, modelName, Obj(ps)).rows| == |rows|
    ensures forall i :: 0 <= i < |rows| ==>
      ExpectedSearch(ms, modelName, Obj(ps)).rows[i].Keys == KeySet(rows[i])
    ensures forall i, k :: 0 <= i < |rows| && k in KeySet(rows[i]) ==>
      ExpectedSearch(ms, modelName, Obj(ps)).rows[i][k] == Lookup(rows[i], k)
  {
    var response := Obj(ps);
    CompletedResponseRecords(ps, results, ObjArray(rows));
    var v := ExpectedSearch(ms, modelName, response);
    forall i | 0 <= i < |rows|
      ensures v.rows[i].Keys == KeySet(rows[i])
      ensures forall k :: k in KeySet(rows[i]) ==> v.rows[i][k] == Lookup(rows[i], k)
    {
      assert v.rows[i] == Copied(Obj(rows[i]));
      CopiedObject(rows[i]);
    }
  }

  /** An unknown model with records rejects, but with none resolves empty. */
  lemma UnknownModelSearch(ms: seq<ModelDescription>, modelName: string, response: Value)
    requires !HasName(ms, modelName) && DoneRecords(response).Some?
    ensures ExpectedSearch(ms, modelName, response).Reject? <==> |DoneRecords(response).value| > 0
  {
  }

  /** How a `search` call ends: its promise never settles (a failed login, or
      an unknown model, whose `null` description throws inside the `then`
      callback), or it is rejected, or resolved with the instances. */
  datatype SearchOutcome = Pending | Rejected | Resolved(instances: seq<SalesforceObject>)

  /** How a `query` call ends: never settled, or resolved with the pair
      `{error, result}` the transport reported. There is no rejection. */
  datatype QueryOutcome = QueryPending | Answered(error: Value, result: Value)

  /** `o` is an instance of the model `name` with these fields, bound to
      `conn`, carrying the properties copied from `row`. */
  predicate InstanceOf(o: SalesforceObject, name: string, fields: seq<string>,
                       conn: Connection.SalesforceConnection, row: Value)
    reads o
  {
    o.objectName == name && o.objectFields == fields && o.connection == conn && o.props == Copied(row)
  }

  /** The ORM object. */
  class SalesforceOrm {
    const connection: Connection.SalesforceConnection
    var models: seq<ModelDescription>

    ghost predicate Valid()
      reads this
    {
      DistinctNames(models)
    }

    constructor ()
      ensures fresh(connection)
      ensures connection.State() == Connection.Initial
      ensures models == []
      ensures Valid()
    {
      connection := new Connection.SalesforceConnection();
      models := [];
    }

    /** `_modelExists`: scans the registry in order. */
    method ModelExists(name: string) returns (b: bool)
      ensures b == HasName(models, name)
    {
      var i := 0;
      while i < |models|
        invariant 0 <= i <= |models|
        invariant forall j :: 0 <= j < i ==> models[j].name != name
      {
        if models[i].name == name {
          return true;
        }
        i := i + 1;
      }
      return false;
    }

    /** `_getModel`: the first model with that name, or `null`. */
    method GetModel(name: string) returns (m: Option<ModelDescription>)
      ensures m == Find(models, name)
      ensures Valid() ==> forall i :: 0 <= i < |models| && models[i].name == name ==> m == Some(models[i])
    {
      forall i | Valid() && 0 <= i < |models| && models[i].name == name
        ensures Find(models, name) == Some(models[i])
      {
        FindRegistered(models, i);
      }
      var i := 0;
      while i < |models|
        invariant 0 <= i <= |models|
        invariant forall j :: 0 <= j < i ==> models[j].name != name
      {
        if models[i].name == name {
          FindFirstMatch(models, name, i);
          return Some(models[i]);
        }
        i := i + 1;
      }
      return None;
    }

    /** `addModel`: refuses a name that is already registered, appends
        otherwise, and keeps the names distinct. */
    method AddModel(d: ModelDescription) returns (added: bool)
      modifies this
      ensures added == !HasName(old(models), d.name)
      ensures models == Register(old(models), d)
      ensures old(Valid()) ==> Valid()
    {
      var taken := ModelExists(d.name);
      if taken {
        return false;
      }
      if Valid() {
        RegisterProperties(models, d);
      }
      models := models + [d];
      return true;
    }

    /** `instanceNewObject`: a fresh instance of the named model sharing the
        ORM's connection; an unknown name makes the constructor read
        `name` off `null` and throw. */
    method InstanceNewObject(name: string) returns (o: Completion<SalesforceObject>)
      ensures o.Throw? <==> !HasName(models, name)
      ensures o.Throw? ==> o.error == TypeError
      ensures o.Normal? ==> fresh(o.value) && o.value.connection == connection
      ensures o.Normal? ==> o.value.objectName == name && o.value.objectFields == Find(models, name).value.fields
      ensures o.Normal? ==> o.value.props == map[]
    {
      var d := GetModel(name);
      if d.None? {
        return Throw(TypeError);
      }
      var obj := new SalesforceObject(d.value, connection);
      return Normal(obj);
    }

    /** `instanceExistentObject`: a new instance with every enumerated key of
        `row` copied onto it, in `for..in` order. */
    method InstanceExistentObject(name: string, row: Value) returns (o: Completion<SalesforceObject>)
      ensures o.Throw? <==> !HasName(models, name)
      ensures o.Throw? ==> o.error == TypeError
      ensures o.Normal? ==> fresh(o.value)
      ensures o.Normal? ==> InstanceOf(o.value, name, Find(models, name).value.fields, connection, row)
    {
      o := InstanceNewObject(name);
      if o.Throw? {
        return;
      }
      var obj := o.value;
      var es := ForInEntries(row);
      var i := 0;
      while i < |es|
        invariant 0 <= i <= |es|
        invariant CopyEntries(obj.props, es[i..]) == Copied(row)
        invariant obj.objectName == name && obj.objectFields == Find(models, name).value.fields
        modifies obj
      {
        assert es[i..][1..] == es[i + 1..];
        obj.props := obj.props[es[i].0 := es[i].1];
        i := i + 1;
      }
    }

    /** `_onSearch`: unwraps the response, rejects unless `done` is `true`,
        and builds one instance per record, rejecting when that throws. */
    method OnSearch(modelName: string, response: Value) returns (outcome: SearchOutcome)
      ensures !outcome.Pending?
      ensures outcome.Rejected? <==> ExpectedSearch(models, modelName, response).Reject?
      ensures outcome.Resolved? ==>
        |outcome.instances| == |ExpectedSearch(models, modelName, response).rows|
      ensures outcome.Resolved? ==> forall i :: 0 <= i < |outcome.instances| ==>
        InstanceOf(outcome.instances[i], modelName, Find(models, modelName).value.fields, connection,
                   DoneRecords(response).value[i])
      ensures outcome.Resolved? ==> forall i :: 0 <= i < |outcome.instances| ==> fresh(outcome.instances[i])
      ensures outcome.Resolved? ==> forall i, j :: 0 <= i < j < |outcome.instances| ==>
        outcome.instances[i] != outcome.instances[j]
    {
      var records := DoneRecords(response);
      if records.None? {
        return Rejected;
      }
      var built, ready := InstanceRecords(modelName, records.value);
      if !built {
        return Rejected;
      }
      return Resolved(ready);
    }

    /** The loop of `_onSearch`: one instance per record, in order; `built`
        is false when an instance cannot be made (the `catch` of the
        caller). */
    method InstanceRecords(modelName: string, rs: seq<Value>) returns (built: bool, ready: seq<SalesforceObject>)
      ensures built <==> |rs| == 0 || HasName(models, modelName)
      ensures built ==> |ready| == |rs|
      ensures built ==> forall k :: 0 <= k < |rs| ==>
        InstanceOf(ready[k], modelName, Find(models, modelName).value.fields, connection, rs[k])
      ensures forall k :: 0 <= k < |ready| ==> fresh(ready[k])
      ensures forall j, k :: 0 <= j < k < |ready| ==> ready[j] != ready[k]
    {
      ghost var fields := if HasName(models, modelName) then Find(models, modelName).value.fields else [];
      ready := [];
      var i := 0;
      while i < |rs|
        invariant 0 <= i <= |rs|
        invariant |ready| == i
        invariant i > 0 ==> HasName(models, modelName)
        invariant forall k :: 0 <= k < i ==> InstanceOf(ready[k], modelName, fields, connection, rs[k])
        invariant forall k :: 0 <= k < i ==> fresh(ready[k])
        invariant forall j, k :: 0 <= j < k < i ==> ready[j] != ready[k]
      {
        var inst := InstanceExistentObject(modelName, rs[i]);
        if inst.Throw? {
          return false, ready;
        }
        ghost var before := ready;
        ready := ready + [inst.value];
        forall k | 0 <= k <= i
          ensures InstanceOf(ready[k], modelName, fields, connection, rs[k])
          ensures fresh(ready[k])
        {
          if k < i {
            assert ready[k] == before[k];
          }
        }
        forall j, k | 0 <= j < k <= i
          ensures ready[j] != ready[k]
        {
          if k < i {
            assert ready[j] == before[j] && ready[k] == before[k];
          } else {
            assert ready[j] == before[j] && ready[k] == inst.value;
          }
        }
        i := i + 1;
      }
      return true, ready;
    }

    /** `search(modelName, where, selectFields)` followed by the settling of
        its promise, at time `now`, the login (if one is made) ending as
        `login` and the transport answering with `response`. `sent` is the
        statement handed to `queryAll`; an undefined `selectFields` counts
        as no extra fields. */
    method Search(modelName: string, where: string, selectFields: Option<seq<string>>,
                  now: int, login: Connection.LoginOutcome, response: Value)
      returns (outcome: SearchOutcome, sent: Option<string>, loginCalls: nat)
      modifies connection
      ensures connection.State() == Connection.PrepareTransition(old(connection.State()), now, login).after
      ensures loginCalls == Connection.PrepareTransition(old(connection.State()), now, login).loginCalls
      ensures sent.Some? <==> (Connection.PrepareTransition(old(connection.State()), now, login).ready
                               && HasName(models, modelName))
      ensures sent.Some? ==> sent.value == SearchQuery(Find(models, modelName).value, where, selectFields.GetOr([]))
      ensures sent.None? <==> outcome.Pending?
      ensures sent.Some? ==> (outcome.Rejected? <==> ExpectedSearch(models, modelName, response).Reject?)
      ensures outcome.Resolved? ==>
        |outcome.instances| == |ExpectedSearch(models, modelName, response).rows|
      ensures outcome.Resolved? ==> forall i :: 0 <= i < |outcome.instances| ==>
        InstanceOf(outcome.instances[i], modelName, Find(models, modelName).value.fields, connection,
                   DoneRecords(response).value[i])
      ensures outcome.Resolved? ==> forall i :: 0 <= i < |outcome.instances| ==> fresh(outcome.instances[i])
      ensures outcome.Resolved? ==> forall i, j :: 0 <= i < j < |outcome.instances| ==>
        outcome.instances[i] != outcome.instances[j]
      ensures unchanged(this)
    {
      var description := GetModel(modelName);
      var ready;
      ready, loginCalls := connection.Prepare(now, login);
      if !ready || description.None? {
        return Pending, None, loginCalls;
      }
      var extra := if selectFields.None? then [] else selectFields.value;
      var statement := SearchQuery(description.value, where, extra);
      sent := Some(statement);
      outcome := OnSearch(description.value.name, response);
    }

    /** `query(q)` followed by the settling of its promise: once the
        connection is ready the statement goes to `queryAll` unchanged and
        whatever comes back resolves the promise. */
    method Query(q: string, now: int, login: Connection.LoginOutcome, error: Value, result: Value)
      returns (outcome: QueryOutcome, sent: Option<string>, loginCalls: nat)
      modifies connection
      ensures connection.State() == Connection.PrepareTransition(old(connection.State()), now, login).after
      ensures loginCalls == Connection.PrepareTransition(old(connection.State()), now, login).loginCalls
      ensures Connection.PrepareTransition(old(connection.State()), now, login).ready ==>
        outcome == Answered(error, result) && sent == Some(q)
      ensures !Connection.PrepareTransition(old(connection.State()), now, login).ready ==>
        outcome == QueryPending && sent == None
      ensures unchanged(this)
    {
      var ready;
      ready, loginCalls := connection.Prepare(now, login);
      if !ready {
        return QueryPending, None, loginCalls;
      }
      sent := Some(q);
      // `_onQuery`: whatever the transport reports resolves the promise.
      outcome := Answered(error, result);
    }
  }

  /** Registering the same name twice keeps the first description. */
  method RegisterTwice(d1: ModelDescription, d2: ModelDescription) returns (first: bool, second: bool, found: Option<ModelDescription>)
    requires d1.name == d2.name
    ensures first && !second
    ensures found == Some(d1)
  {
    var orm := new SalesforceOrm();
    first := orm.AddModel(d1);
    second := orm.AddModel(d2);
    found := orm.GetModel(d2.name);
  }

  /** On a new ORM whose first login succeeds, searching a registered model
      sends the statement with the model's fields and no extras. */
  method FirstSearch(d: ModelDescription, where: string, c: Connection.Client, t: int, response: Value)
    returns (sent: Option<string>, loginCalls: nat)
    ensures sent == Some(SearchQuery(d, where, []))
    ensures loginCalls == 1
  {
    var orm := new SalesforceOrm();
    var added := orm.AddModel(d);
    FindRegistered(orm.models, 0);
    var outcome;
    outcome, sent, loginCalls := orm.Search(d.name, where, None, t, Connection.LoggedIn(c, t), response);
  }
}

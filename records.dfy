/**
 * One Salesforce record (SalesforceObject.js): the model's name and field
 * list captured at construction, the shared connection, and whatever
 * properties have been copied onto the instance (`Id` among them). `get`
 * prepares the connection but its callback is never run, `update` and
 * `remove` are empty.
 */
module Records {
  import opened JsValues
  import opened Text
  import Connection

  /** A registered model: `{name, fields}`. */
  datatype ModelDescription = ModelDescription(name: string, fields: seq<string>)

  /** The standard select statement of one record, `id` being the text the
      template inserts for the record's `Id` (unquoted). */
  function SelectStatement(fields: seq<string>, name: string, id: string): string {
    "SELECT " + Join(fields, ", ") + " FROM " + name + " WHERE Id = " + id + " AND IsDeleted = FALSE"
  }

  lemma SelectWords(j: string)
    ensures Words("SELECT " + j) == ["SELECT"] + Words(j)
  {
    PlainWord("SELECT");
    WordsSplice("SELECT", j);
    assert "SELECT " + j == "SELECT" + " " + j;
  }

  /** The words of the id filter: `WHERE Id =`, the id text, and the clause
      that excludes deleted records. */
  lemma IdFilterWords(b: string, id: string)
    ensures Words(b + " WHERE Id = " + id + " AND IsDeleted = FALSE") ==
      Words(b) + ["WHERE", "Id", "="] + Words(id) + ["AND", "IsDeleted", "=", "FALSE"]
  {
    assert " WHERE Id = " == " " + Join(["WHERE", "Id", "="], " ") + " ";
    InfixWords(b, " WHERE Id = ", ["WHERE", "Id", "="], id);
    NotDeletedWords(b + " WHERE Id = " + id);
  }

  /** The closing clause contributes its four words. */
  lemma NotDeletedWords(c: string)
    ensures Words(c + " AND IsDeleted = FALSE") == Words(c) + ["AND", "IsDeleted", "=", "FALSE"]
  {
    assert " AND IsDeleted = FALSE" == " " + Join(["AND", "IsDeleted", "=", "FALSE"], " ");
    SuffixWords(c, " AND IsDeleted = FALSE", ["AND", "IsDeleted", "=", "FALSE"]);
  }

  /** The words of the select statement: the joined field list, the model
      name and the record id in their slots, and nothing else. */
  lemma SelectStatementWords(fields: seq<string>, name: string, id: string)
    ensures Words(SelectStatement(fields, name, id)) ==
      ["SELECT"] + ListWords(fields) + ["FROM"] + Words(name) + ["WHERE", "Id", "="] + Words(id)
      + ["AND", "IsDeleted", "=", "FALSE"]
  {
    var j := Join(fields, ", ");
    JoinWords(fields);
    SelectWords(j);
    var a := "SELECT " + j;
    assert " FROM " == " " + Join(["FROM"], " ") + " ";
    InfixWords(a, " FROM ", ["FROM"], name);
    IdFilterWords(a + " FROM " + name, id);
  }

  /** The object that represents one record. */
  class SalesforceObject {
    const connection: Connection.SalesforceConnection
    var objectName: string
    var objectFields: seq<string>
    /** The properties set on the instance beyond the three above. */
    var props: map<string, Value>

    constructor (d: ModelDescription, conn: Connection.SalesforceConnection)
      ensures connection == conn
      ensures objectName == d.name && objectFields == d.fields
      ensures props == map[]
    {
      connection := conn;
      objectName := d.name;
      objectFields := d.fields;
      props := map[];
    }

    /** What `${this.Id}` inserts: the stringified `Id`, or "undefined". */
    function IdText(): string
      reads this
    {
      if "Id" in props then TemplateText(props["Id"]) else TemplateText(Undefined)
    }

    /** `_getSelectQuery`: reads the object, changes nothing. */
    function GetSelectQuery(): (q: string)
      reads this
      ensures Words(q) ==
        ["SELECT"] + ListWords(objectFields) + ["FROM"] + Words(objectName) + ["WHERE", "Id", "="] + Words(IdText())
        + ["AND", "IsDeleted", "=", "FALSE"]
    {
      SelectStatementWords(objectFields, objectName, IdText());
      SelectStatement(objectFields, objectName, IdText())
    }

    /** `get` calls `prepare` with a callback that `prepare` ignores: the
        session is made fresh, no statement is built, nothing on the record
        changes, and the returned promise never settles. */
    method Get(now: int, login: Connection.LoginOutcome) returns (loginCalls: nat)
      modifies connection
      ensures connection.State() == Connection.PrepareTransition(old(connection.State()), now, login).after
      ensures loginCalls == Connection.PrepareTransition(old(connection.State()), now, login).loginCalls
      ensures unchanged(this)
    {
      var ready;
      ready, loginCalls := connection.Prepare(now, login);
    }

    /** `update` has an empty body. */
    method Update()
      ensures unchanged(this, connection)
    {
    }

    /** `remove` has an empty body. */
    method Remove()
      ensures unchanged(this, connection)
    {
    }
  }

  /** A string `Id` goes into the statement verbatim, without quotes. */
  lemma SelectQueryUsesIdVerbatim(o: SalesforceObject, id: string)
    requires "Id" in o.props && o.props["Id"] == Str(id)
    ensures o.GetSelectQuery() == SelectStatement(o.objectFields, o.objectName, id)
  {
  }

  /** A numeric `Id` is printed as its decimal numeral, with a leading `-`
      when negative, and so occupies exactly one word of the statement. */
  lemma NumericIdIsOneWord(o: SalesforceObject, n: int)
    requires "Id" in o.props && o.props["Id"] == Num(n)
    ensures Words(o.IdText()) == [if n < 0 then "-" + DecimalText(-n) else DecimalText(n)]
  {
    NumberTextHasNoSpace(n);
    PlainWord(TemplateText(Num(n)));
  }

  /** A record without an `Id` selects `Id = undefined`. */
  lemma SelectQueryWithoutId(o: SalesforceObject)
    requires "Id" !in o.props
    ensures o.GetSelectQuery() == SelectStatement(o.objectFields, o.objectName, "undefined")
  {
  }

  /** With identifier fields, a one-word name and a one-word id, every
      field but the last carries its comma and each slot is one word. */
  lemma PlainSelectStatement(fields: seq<string>, name: string, id: string)
    requires |fields| > 0 && forall i :: 0 <= i < |fields| ==> ' ' !in fields[i]
    requires ' ' !in name && ' ' !in id
    ensures Words(SelectStatement(fields, name, id))
      == ["SELECT"] + Punctuated(fields) + ["FROM", name, "WHERE", "Id", "=", id, "AND", "IsDeleted", "=", "FALSE"]
  {
    SelectStatementWords(fields, name, id);
    ListWordsOfIdentifiers(fields);
    PlainWord(name);
    PlainWord(id);
  }

  /** For identifiers and an id without spaces, a two-field statement reads
      back word by word: the first field carries the separating comma. */
  lemma TwoFieldSelectStatement(f1: string, f2: string, name: string, id: string)
    requires ' ' !in f1 && ' ' !in f2 && ' ' !in name && ' ' !in id
    ensures Words(SelectStatement([f1, f2], name, id))
      == ["SELECT", f1 + ",", f2, "FROM", name, "WHERE", "Id", "=", id, "AND", "IsDeleted", "=", "FALSE"]
  {
    PlainSelectStatement([f1, f2], name, id);
    assert Punctuated([f1, f2]) == [f1 + ",", f2];
  }
}

# salesforce_orm in Dafny

A model of the three classes of salesforce_orm, a small JavaScript wrapper
around the Salesforce SOAP API, with proofs about it.

- **`SalesforceORM`** (module `Orm`). It keeps a registry of model
  descriptions `{name, fields}` whose names are unique. It looks models up
  by first match and builds the SOQL search statement. It turns a bulk query
  response (`result.done`, `result.records`) into record instances, copying
  every key of each row onto a new instance. `search` and `query` are each
  flattened into one sequential step: prepare the connection, send the
  statement, settle with the transport's answer.
- **`SalesforceConnection`** (module `Connection`). The session freshness
  state machine over `soapClient` and `nextLoginStamp`. `prepare` resolves at
  once while the session is fresh. Otherwise it logs in, and a successful
  login stores the client and sets the deadline 100 minutes
  (`MINUTES_MULTIPLIER * 100` = 6,000,000 ms) after the login completed.
- **`SalesforceObject`** (module `Records`). A record instance holds its
  model's name and fields, the shared connection, and its copied
  properties. It has a select-statement builder. `get` prepares the
  connection and does nothing else, and `update` and `remove` are empty.

Two supporting modules:
- `JsValues` holds the slice of JavaScript semantics the code relies on:
  property reads that throw on `null`/`undefined`, `for..in` enumeration
  order, property-by-property copying, and template-literal stringification.
- `Text` holds `Array.prototype.join` and a tokenizer `Words` (`split(" ")`).
  The statement builders are specified through `Words`: each lemma states
  which words a generated statement consists of, independently of the
  template that builds it. This is how doubled spaces and missing commas
  are stated.

Entities whose fields the JavaScript updates in place
(`SalesforceConnection`, `SalesforceOrm`, `SalesforceObject`) are classes.
Each method is tied to a pure function: `PrepareTransition`,
`Register`, `Find`, `Copied`, `ExpectedSearch`. The properties are proved
about those functions.

The clock is a parameter (`now`, and the time `at` a login completed). The
transport's `Login()` is represented by its outcome (`LoginOutcome`).
`queryAll` is represented by the value its callback receives, and
`FormatQuery` is taken to be the identity. A `search` or `query` promise
that never settles is an explicit outcome (`Pending`, `QueryPending`), and so
is a `prepare` that never resolves (`ready == false`). The promise `get`
returns is never settled by the code in any case, so `Get` returns only the
number of login calls.

Three behaviours of the code deserve a note:
- **The search statement.** The model's fields and the extra fields are
  separated by a single space, with no comma. With no extra fields there
  are two spaces before `FROM`; with no model fields but some extras there
  are two spaces after `SELECT`. See `Orm.NoCommaBeforeExtras`,
  `Orm.SearchWithoutExtrasDoublesSpace` and `Orm.NoFieldsDoublesSpace`.
- **The `attributes` key.** Rows are copied key for key, `attributes`
  included.
- **`_connectionStatus`.** The method as written cannot return (see
  "Findings"). The model's `IsConnected` is the comparison the method's
  comment describes, and the code as written is modelled beside it
  (`StatusAsWritten`, `PrepareAsWritten`).

## Model

| member | source | states |
|---|---|---|
| Connection.SalesforceConnection.constructor | SalesforceConnection.js:30-31 | a new manager has no client and deadline 0 |
| Connection.IsConnected | SalesforceConnection.js:73-80 | the status the method's comment describes: a client is stored and the deadline lies strictly after `now` (its properties in the lemmas below) |
| Connection.PrepareTransition | SalesforceConnection.js:41-67 | one `prepare` together with its `_onPrepare` handler: idle when connected, otherwise one login that stores the client and deadline on success and keeps the state on failure (properties in the lemmas below) |
| Connection.StatusAsWritten | SalesforceConnection.js:75 | `_connectionStatus` as written: reading the unscoped `soapClient` throws a ReferenceError in every state |
| Connection.PrepareAsWritten | SalesforceConnection.js:41-56 | `prepare` as written: the status check's exception escapes before either branch runs |
| Connection.InitialIsStale | SalesforceConnection.js:30-31 | the initial state is stale at every time, so the first `prepare` logs in once |
| Connection.DeadlineReachedIsStale | SalesforceConnection.js:73-80 | a deadline equal to the current time counts as stale; one millisecond earlier it is fresh |
| Connection.ConnectedPrepareIsIdle | SalesforceConnection.js:49-51 | when connected, `prepare` makes no login call, keeps the state and resolves |
| Connection.StalePrepareLogsInOnce | SalesforceConnection.js:46-48 | when not connected, `prepare` makes exactly one login call and resolves exactly when the login succeeds |
| Connection.LoginRenewsSession | SalesforceConnection.js:63-67 | a login completing at `t` stores its client and sets the deadline to `t + 6000000` |
| Connection.FreshWindow | SalesforceConnection.js:65 | after a login at `t`, the session is connected at `later` exactly when `later < t + 6000000` |
| Connection.FailedLoginKeepsSession | SalesforceConnection.js:48 | a rejected login leaves both fields unchanged |
| Connection.SalesforceConnection.ConnectionStatus | SalesforceConnection.js:73-80 | the manager's status is `IsConnected` of its two fields |
| Connection.SalesforceConnection.OnPrepare | SalesforceConnection.js:63-67 | stores the client and sets the deadline 100 minutes after the completion time |
| Connection.SalesforceConnection.Prepare | SalesforceConnection.js:41-56 | the new state, the readiness and the number of login calls are exactly `PrepareTransition` of the old state |
| Connection.PrepareTwiceWithinWindow | SalesforceConnection.js:41-56 | two `prepare` calls on a new manager inside the renewal window log in once and both resolve |
| Connection.PrepareAfterDeadline | SalesforceConnection.js:63-67 | a `prepare` at or after the deadline logs in again and moves the deadline to 100 minutes after that login |
| Connection.FirstPrepareAsWrittenThrows | SalesforceConnection.js:73-80 | as written, the first `prepare` on a new manager throws a ReferenceError where the intended status would log in |
| Connection.StatusAsWrittenNeverAnswers | SalesforceConnection.js:75 | as written, `_connectionStatus` never returns the intended answer, in any state |
| Records.SalesforceObject.constructor | SalesforceObject.js:14-22 | the instance holds the given connection, the description's name and fields, and no properties |
| Records.SelectStatement | SalesforceObject.js:47 | the select template over fields, name and id text (its word shape in `SelectStatementWords`) |
| Records.SalesforceObject.GetSelectQuery | SalesforceObject.js:45-50 | the statement's words are SELECT, the comma-separated fields, FROM, the name, `WHERE Id =`, the id text, `AND IsDeleted = FALSE` |
| Records.SelectStatementWords | SalesforceObject.js:47 | word-by-word shape of the select template for any fields, name and id |
| Records.SelectQueryUsesIdVerbatim | SalesforceObject.js:47 | a string `Id` is inserted unquoted and unchanged |
| Records.NumericIdIsOneWord | SalesforceObject.js:47 | a numeric `Id` is printed as its decimal numeral and fills exactly one word of the statement |
| Records.SelectQueryWithoutId | SalesforceObject.js:47 | a record without `Id` selects `Id = undefined` |
| Records.PlainSelectStatement | SalesforceObject.js:45-50 | with identifier fields and a one-word name and id, each field but the last carries its comma and every slot is one word |
| Records.TwoFieldSelectStatement | SalesforceObject.js:45-50 | with two identifier fields, the statement reads `SELECT f1, f2 FROM name WHERE Id = id AND IsDeleted = FALSE` word for word |
| Records.SalesforceObject.Get | SalesforceObject.js:27-39 | the connection goes through one `prepare` step; the record itself is unchanged |
| Records.SalesforceObject.Update | SalesforceObject.js:55-57 | changes nothing |
| Records.SalesforceObject.Remove | SalesforceObject.js:62-64 | changes nothing |
| JsValues.Member | SalesforceORM.js:178-180 | a property read throws a TypeError exactly on `null` and `undefined`, and only an object yields a defined value |
| JsValues.ForInObjectEntries | SalesforceORM.js:236-237 | `for..in` over an object visits exactly the object's own keys, and the value read through each key is that key's first binding |
| JsValues.CopiedObject | SalesforceORM.js:236-238 | copying a row puts exactly its keys on the target, each with its value in the row |
| Orm.Find | SalesforceORM.js:248-260 | `null` exactly when no model has the name; otherwise a model at the first position with that name |
| Orm.FindFirstMatch | SalesforceORM.js:250-256 | the model at the first matching position is the one returned |
| Orm.FindRegistered | SalesforceORM.js:248-260 | with distinct names, looking up a registered model's name returns that model |
| Orm.Register | SalesforceORM.js:43-57 | the registry after `addModel`: unchanged for a taken name, the description appended otherwise (properties in `RegisterProperties`) |
| Orm.RegisterProperties | SalesforceORM.js:43-56 | registration keeps names distinct, leaves a taken name's registry alone, appends a new one at the end (length + 1) and makes it resolvable |
| Orm.RegisterKeepsOtherLookups | SalesforceORM.js:52-53 | registering does not change whether, or to what, any other name resolves |
| Orm.SalesforceOrm.constructor | SalesforceORM.js:30-33 | a fresh connection in its initial state and an empty, valid registry |
| Orm.SalesforceOrm.ModelExists | SalesforceORM.js:64-76 | true exactly when some registered model has the name |
| Orm.SalesforceOrm.GetModel | SalesforceORM.js:248-260 | returns `Find` of the registry: the first model with the name, or `null`; on a valid registry (distinct names), any registered model with that name is the one returned |
| Orm.SalesforceOrm.AddModel | SalesforceORM.js:43-57 | returns true exactly for a new name; the registry becomes `Register` of the old one; distinct names are preserved |
| Orm.RegisterTwice | SalesforceORM.js:43-57 | a second registration under the same name is refused and the first description stays |
| Orm.SearchQuery | SalesforceORM.js:210-214 | the search template over a description, the filter and the extra fields (its word shape in `SearchQueryWords`) |
| Orm.SearchQueryWords | SalesforceORM.js:210-214 | the statement's words are SELECT, the model's field list, the extra field list, FROM, the name, WHERE, the filter |
| Orm.SearchWithoutExtrasDoublesSpace | SalesforceORM.js:212 | with no extras, an empty word (two spaces) separates the field list from FROM |
| Orm.NoFieldsDoublesSpace | SalesforceORM.js:212 | with no model fields and identifier extras, an empty word (two spaces) follows SELECT, then the extras with their commas |
| Orm.NoCommaBeforeExtras | SalesforceORM.js:212 | with identifier fields and extras, the last model field stands without a comma before the first extra |
| Orm.DoneRecords | SalesforceORM.js:178-182 | a missing response yields no records |
| Orm.ExpectedSearch | SalesforceORM.js:175-201 | the reference outcome of `_onSearch`: reject, or one copied row per visited record (properties in `NotDoneRejects`, `MalformedRejects`, `DoneSearchCopiesRows`, `UnknownModelSearch`) |
| Orm.NotDoneRejects | SalesforceORM.js:178-182 | wherever `result` sits in the response and whatever its type, once it is defined any `done` other than `true` rejects |
| Orm.MalformedRejects | SalesforceORM.js:176-199 | a missing response, or one without a `result` object, rejects through the catch |
| Orm.ResultRecords | SalesforceORM.js:180-189 | the records of an unwrapped `result` once `done` is `true` (properties in `CompletedResultRecords`) |
| Orm.CompletedResultRecords | SalesforceORM.js:180-189 | a `result` object whose `done` is `true` hands over the items of its `records` array in order |
| Orm.CompletedResponseRecords | SalesforceORM.js:178-192 | any response whose `result` is such an object, at any position among its properties, hands over those items |
| Orm.DoneSearchCopiesRows | SalesforceORM.js:186-195 | on a registered model and any completed response, every row object yields one entry, in order, with exactly the row's keys and values (`attributes` included) |
| Orm.UnknownModelSearch | SalesforceORM.js:186-199 | for an unknown model a completed search rejects exactly when there is at least one record |
| Orm.SalesforceOrm.InstanceNewObject | SalesforceORM.js:222-225 | a TypeError exactly for an unknown name; otherwise a fresh instance with the model's name and fields and the shared connection |
| Orm.SalesforceOrm.InstanceExistentObject | SalesforceORM.js:233-241 | as above, with the instance's properties being the row copied key by key |
| Orm.SalesforceOrm.OnSearch | SalesforceORM.js:175-201 | never stays pending; rejects exactly when `ExpectedSearch` does; otherwise one instance per record, in order, of the searched model with its fields and the shared connection, carrying that record copied key by key; the instances are new objects, pairwise distinct |
| Orm.SalesforceOrm.InstanceRecords | SalesforceORM.js:186-192 | the loop over the records: one instance per record, in order, each a new object, distinct from the others, an instance of the model carrying that record copied; it completes exactly when there are no records or the model is registered |
| Orm.SalesforceOrm.Search | SalesforceORM.js:143-166 | one `prepare` step; a statement is sent exactly when the connection is ready and the model is known; it is `SearchQuery` with an undefined `selectFields` read as `[]`; otherwise the search stays pending; resolved instances are as for `OnSearch`, new and pairwise distinct |
| Orm.FirstSearch | SalesforceORM.js:158-166 | on a new ORM, the first search of a registered model logs in once and sends the statement with no extras |
| Orm.SalesforceOrm.Query | SalesforceORM.js:102-125 | once ready, the statement is sent unchanged and resolves with `{error, result}`; otherwise pending; never rejected |

## Left out

- The `soap_salesforce` transport: `Login`, `queryAll`, `FormatQuery` (taken as the identity) and `EscapeSOQL`. These are foreign calls; their results are inputs.
- `escape()`: a one-line forward to `EscapeSOQL`, which is not part of this model.
- Q deferreds and `_prepareConnection`: flattened into one sequential step per call. A promise that never settles is an explicit outcome. Unhandled rejections, such as a failed login or a `TypeError` inside a `then` callback, are modelled only as the settling that does not happen.
- `Date.now()`: a parameter. The login outcome carries the time its handler ran.
- Credentials (`username`, `password`, `token`, `wsdl`) and the `require` calls: they are stored or loaded and never inspected.
- Concurrency: calls are modelled one after another. Two `prepare` calls in flight at once can both log in; there is no de-duplication in the code either.
- Orm.SalesforceOrm.Search: `selectFields` is either undefined or an array of strings. A `null` or non-array argument would throw inside the callback and leave the search pending; that case is not modelled.
- Orm.SalesforceOrm.AddModel: descriptions are well-formed `{name, fields}` records. A `null` description, or one whose fields are not strings, is not modelled.
- Records.SalesforceObject: copied properties are kept in `props`, apart from `connection`, `objectName` and `objectFields`. In JavaScript a row key with one of those names (or a method's name) would overwrite that member.
- JsValues: numbers are integers, so floating point stringification is not modelled. Objects have only own enumerable properties; enumerable properties inherited through the prototype chain are not modelled. An object's property list is assumed to hold each key once, as a JavaScript object does; the datatype admits a repeated key, for which `for..in` enumeration as modelled would visit the key once per binding, and the response lemmas do not exclude such lists.
- Descriptions and field lists are values. In the code `addModel` stores the caller's own object (SalesforceORM.js:53) and every instance shares its `fields` array (SalesforceObject.js:21), so a caller that later mutates the description changes the registry and the instances; that aliasing is not modelled, and such a mutation could break the distinct names the registry otherwise keeps.
- The `error` argument that `queryAll` passes to `_onSearch` is ignored, as in the code.
- Stripping of `attributes`, create/update/delete, login de-duplication and quoting of `Id` are absent from the code and so from the model.

## Findings

| source | as written | input that shows it | evidently intended | confidence | as-written member | corrected member |
|---|---|---|---|---|---|---|
| SalesforceConnection.js:75 | `_connectionStatus` reads the bare identifiers `soapClient` and `nextLoginStamp` (not `this.`) which name no variable in scope, so the first read throws; `new Date.now()` after it would throw as well | the first `prepare()` on a new `SalesforceConnection` throws a ReferenceError before any login | `this.soapClient !== null && this.nextLoginStamp > Date.now()` | not executed | Connection.FirstPrepareAsWrittenThrows | Connection.FreshWindow |

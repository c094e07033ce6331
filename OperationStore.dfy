/**
 * `InMemoryOperationStore`: the queries and mutations the debug console shows, each an
 * ordered dictionary from operation identity to its document, variables and state, kept
 * as two parallel arrays (identifiers and values) per category.
 *
 * Operation identities (`ObjectIdentifier`), Swift `Error` values and GraphQL variable
 * maps are opaque here: an identity is an integer, an error or a variable map a reference
 * number that the JSON view passes through unchanged.
 */
module OperationStore {
  import opened Wrappers

  /** `ObjectIdentifier(operation)`. */
  type ObjectId = int

  /** An opaque Swift `Error`. */
  type ErrorRef = nat

  /** An opaque `GraphQLMap`. */
  type VariablesRef = nat

  datatype OperationType = Query | Mutation | Subscription

  /** What the store reads of a `GraphQLOperation`. */
  datatype Operation = Operation(
    id: ObjectId,
    operationType: OperationType,
    queryDocument: string,
    variables: Option<VariablesRef>)

  /** `OperationState`. */
  datatype OperationState =
    | Loading
    | Failure(networkError: ErrorRef)
    | Success(graphQLErrors: seq<ErrorRef>)

  /** `OperationStoreValue`, with its three derived properties. */
  datatype StoreValue = StoreValue(queryDocument: string, variables: Option<VariablesRef>, state: OperationState)
  {
    /** `isLoading`: neither of the other two derived properties is set. */
    predicate IsLoading()
      ensures IsLoading() <==> NetworkError().None? && GraphQLErrors().None?
    {
      state.Loading?
    }

    /** `networkError`: the error of a failed operation, nil otherwise. */
    function NetworkError(): (e: Option<ErrorRef>)
      ensures e.Some? <==> state.Failure?
      ensures e.Some? ==> state == Failure(e.value)
    {
      if state.Failure? then Some(state.networkError) else None
    }

    /** `graphQLErrors`: the errors of a succeeded operation, nil otherwise. */
    function GraphQLErrors(): (errs: Option<seq<ErrorRef>>)
      ensures errs.Some? <==> state.Success?
      ensures errs.Some? ==> state == Success(errs.value)
    {
      if state.Success? then Some(state.graphQLErrors) else None
    }
  }

  /** `OperationStoreValue(operation:)`: a new entry is loading. */
  function NewValue(op: Operation): (v: StoreValue)
    ensures v.IsLoading() && v.NetworkError().None? && v.GraphQLErrors().None?
    ensures v.queryDocument == op.queryDocument && v.variables == op.variables
  {
    StoreValue(op.queryDocument, op.variables, Loading)
  }

  /** Exactly one of the three derived properties is set. */
  lemma DerivedFieldsExclusive(v: StoreValue)
    ensures v.IsLoading() || v.NetworkError().Some? || v.GraphQLErrors().Some?
    ensures !(v.IsLoading() && v.NetworkError().Some?)
    ensures !(v.IsLoading() && v.GraphQLErrors().Some?)
    ensures !(v.NetworkError().Some? && v.GraphQLErrors().Some?)
  {
  }

  /** `lastIndex(of:)`: the greatest index holding `id`, if any. */
  function LastIndexOf(ids: seq<ObjectId>, id: ObjectId): (k: Option<nat>)
    ensures k.None? <==> id !in ids
    ensures k.Some? ==> k.value < |ids| && ids[k.value] == id
    ensures k.Some? ==> forall j :: k.value < j < |ids| ==> ids[j] != id
    decreases |ids|
  {
    if ids == [] then None
    else if ids[|ids| - 1] == id then Some(|ids| - 1)
    else LastIndexOf(ids[..|ids| - 1], id)
  }

  /** The value array after the entry whose identifier is the last occurrence of `id` gets
    * state `st`; unchanged when `id` does not occur. */
  function SetLastState(ids: seq<ObjectId>, values: seq<StoreValue>, id: ObjectId, st: OperationState): (r: seq<StoreValue>)
    requires |ids| == |values|
    ensures |r| == |values|
    ensures id !in ids ==> r == values
    ensures forall j :: 0 <= j < |values| ==>
      r[j] == if ids[j] == id && (forall j' :: j < j' < |ids| ==> ids[j'] != id)
              then values[j].(state := st) else values[j]
  {
    match LastIndexOf(ids, id)
    case None => values
    case Some(k) => values[k := values[k].(state := st)]
  }

  /** Every entry of `before` is still in `after`, at the same index, with the same document
    * and variables: the store never removes or reorders entries. */
  predicate KeepsEntries(before: seq<StoreValue>, after: seq<StoreValue>)
  {
    |before| <= |after| &&
    forall i :: 0 <= i < |before| ==>
      after[i].queryDocument == before[i].queryDocument && after[i].variables == before[i].variables
  }

  /** Setting a state keeps every entry in place. */
  lemma SetLastStateKeepsEntries(ids: seq<ObjectId>, values: seq<StoreValue>, id: ObjectId, st: OperationState)
    requires |ids| == |values|
    ensures KeepsEntries(values, SetLastState(ids, values, id, st))
    ensures |SetLastState(ids, values, id, st)| == |values|
  {
  }

  /** Right after an operation is added, the last occurrence of its identifier is the new
    * entry, so a later `setFailure` / `setSuccess` for it updates that entry. */
  lemma LastIndexOfAdded(ids: seq<ObjectId>, id: ObjectId)
    ensures LastIndexOf(ids + [id], id) == Some(|ids|)
  {
  }

  // ---------------------------------------------------------------------------------------
  // JSON view
  // ---------------------------------------------------------------------------------------

  /** The JSON values the view is built from; errors and variables pass through opaquely.
    * An object is a dictionary from key to value, without an order, like the Swift
    * dictionary literals it models. */
  datatype Json =
    | JNull
    | JBool(b: bool)
    | JString(s: string)
    | JArray(items: seq<Json>)
    | JObject(fields: map<string, Json>)
    | JError(error: ErrorRef)
    | JVariables(variables: VariablesRef)

  function VariablesJson(v: Option<VariablesRef>): Json
  {
    match v
    case None => JNull
    case Some(m) => JVariables(m)
  }

  function ErrorJson(e: Option<ErrorRef>): Json
  {
    match e
    case None => JNull
    case Some(err) => JError(err)
  }

  function ErrorsJson(errs: Option<seq<ErrorRef>>): Json
  {
    match errs
    case None => JNull
    case Some(es) => JArray(Map((err: ErrorRef) => JError(err), es))
  }

  /** One element of `"queries"`: the document, the variables (null when there are none),
    * a null `previousVariables`, and the two error fields. */
  function QueryJson(q: StoreValue): (j: Json)
    ensures j.JObject?
    ensures j.fields.Keys == {"document", "variables", "previousVariables", "networkError", "graphQLErrors"}
    ensures j.fields["document"] == JString(q.queryDocument)
    ensures j.fields["variables"] == JNull <==> q.variables.None?
    ensures q.variables.Some? ==> j.fields["variables"] == JVariables(q.variables.value)
    ensures j.fields["previousVariables"] == JNull
  {
    JObject(map[
      "document" := JString(q.queryDocument),
      "variables" := VariablesJson(q.variables),
      "previousVariables" := JNull,
      "networkError" := ErrorJson(q.NetworkError()),
      "graphQLErrors" := ErrorsJson(q.GraphQLErrors())])
  }

  /** One element of `"mutations"`: the document under `mutation`, the variables (null when
    * there are none), and the `loading` and `error` fields. */
  function MutationJson(m: StoreValue): (j: Json)
    ensures j.JObject?
    ensures j.fields.Keys == {"mutation", "variables", "loading", "error"}
    ensures j.fields["mutation"] == JString(m.queryDocument)
    ensures j.fields["variables"] == JNull <==> m.variables.None?
    ensures m.variables.Some? ==> j.fields["variables"] == JVariables(m.variables.value)
  {
    JObject(map[
      "mutation" := JString(m.queryDocument),
      "variables" := VariablesJson(m.variables),
      "loading" := JBool(m.IsLoading()),
      "error" := ErrorJson(m.NetworkError())])
  }

  /** `Array.map`: total, one output per input, in order. */
  function Map<A, B>(f: A -> B, s: seq<A>): (r: seq<B>)
    ensures |r| == |s|
    ensures forall i :: 0 <= i < |s| ==> r[i] == f(s[i])
    decreases |s|
  {
    if s == [] then [] else [f(s[0])] + Map(f, s[1..])
  }

  function StoreJson(queries: seq<StoreValue>, mutations: seq<StoreValue>): Json
  {
    JObject(map[
      "queries" := JArray(Map(QueryJson, queries)),
      "mutations" := JArray(Map(MutationJson, mutations))])
  }

  /** A query entry's `networkError` and `graphQLErrors` fields are non-null exactly when it
    * failed, resp. succeeded, and carry its errors. */
  lemma QueryJsonFields(q: StoreValue)
    ensures QueryJson(q).fields["networkError"] != JNull <==> q.state.Failure?
    ensures QueryJson(q).fields["graphQLErrors"] != JNull <==> q.state.Success?
    ensures q.state.Failure? ==> QueryJson(q).fields["networkError"] == JError(q.state.networkError)
    ensures q.state.Success? ==>
      var errs := QueryJson(q).fields["graphQLErrors"];
      errs.JArray? && |errs.items| == |q.state.graphQLErrors| &&
      forall i :: 0 <= i < |errs.items| ==> errs.items[i] == JError(q.state.graphQLErrors[i])
  {
  }

  /** A mutation entry's `loading` field is true exactly while loading, and its `error` field
    * is non-null exactly when it failed, and then carries the error. */
  lemma MutationJsonFields(m: StoreValue)
    ensures MutationJson(m).fields["loading"] == JBool(m.state.Loading?)
    ensures MutationJson(m).fields["error"] != JNull <==> m.state.Failure?
    ensures m.state.Failure? ==> MutationJson(m).fields["error"] == JError(m.state.networkError)
  {
  }

  /** Adding a value extends the JSON array by its element and keeps the earlier ones. */
  lemma MapAppend<A, B>(f: A -> B, s: seq<A>, x: A)
    ensures Map(f, s + [x]) == Map(f, s) + [f(x)]
  {
  }

  // ---------------------------------------------------------------------------------------
  // The store
  // ---------------------------------------------------------------------------------------

  class InMemoryOperationStore {
    var queryObjectIdentifiers: seq<ObjectId>
    var queries: seq<StoreValue>
    var mutationObjectIdentifiers: seq<ObjectId>
    var mutations: seq<StoreValue>

    /** The identifier and value arrays of each category stay parallel. */
    predicate Valid()
      reads this
    {
      |queryObjectIdentifiers| == |queries| && |mutationObjectIdentifiers| == |mutations|
    }

    constructor ()
      ensures Valid()
      ensures queryObjectIdentifiers == [] && queries == []
      ensures mutationObjectIdentifiers == [] && mutations == []
    {
      queryObjectIdentifiers, queries := [], [];
      mutationObjectIdentifiers, mutations := [], [];
    }

    /** `add(_:)`: appends the operation to its category; a subscription is not stored. */
    method Add(op: Operation)
      requires Valid()
      modifies this
      ensures Valid()
      ensures queryObjectIdentifiers == old(queryObjectIdentifiers) + if op.operationType == Query then [op.id] else []
      ensures queries == old(queries) + if op.operationType == Query then [NewValue(op)] else []
      ensures mutationObjectIdentifiers == old(mutationObjectIdentifiers) + if op.operationType == Mutation then [op.id] else []
      ensures mutations == old(mutations) + if op.operationType == Mutation then [NewValue(op)] else []
      ensures KeepsEntries(old(queries), queries) && KeepsEntries(old(mutations), mutations)
    {
      match op.operationType {
        case Query =>
          queryObjectIdentifiers := queryObjectIdentifiers + [op.id];
          queries := queries + [NewValue(op)];
        case Mutation =>
          mutationObjectIdentifiers := mutationObjectIdentifiers + [op.id];
          mutations := mutations + [NewValue(op)];
        case Subscription =>
      }
    }

    /** Sets the state of the last entry of the operation's category whose identifier is the
      * operation's. Nothing changes if there is none, or for a subscription. */
    method SetState(op: Operation, st: OperationState)
      requires Valid()
      modifies this`queries, this`mutations
      ensures Valid()
      ensures queries == if op.operationType == Query
                         then SetLastState(queryObjectIdentifiers, old(queries), op.id, st) else old(queries)
      ensures mutations == if op.operationType == Mutation
                           then SetLastState(mutationObjectIdentifiers, old(mutations), op.id, st) else old(mutations)
    {
      match op.operationType {
        case Query =>
          var index := LastIndexOf(queryObjectIdentifiers, op.id);
          if index.None? {
            return;
          }
          queries := queries[index.value := queries[index.value].(state := st)];
        case Mutation =>
          var index := LastIndexOf(mutationObjectIdentifiers, op.id);
          if index.None? {
            return;
          }
          mutations := mutations[index.value := mutations[index.value].(state := st)];
        case Subscription =>
      }
    }

    /** `setFailure(for:networkError:)`. */
    method SetFailure(op: Operation, networkError: ErrorRef)
      requires Valid()
      modifies this`queries, this`mutations
      ensures Valid()
      ensures queries == if op.operationType == Query
                         then SetLastState(queryObjectIdentifiers, old(queries), op.id, Failure(networkError))
                         else old(queries)
      ensures mutations == if op.operationType == Mutation
                           then SetLastState(mutationObjectIdentifiers, old(mutations), op.id, Failure(networkError))
                           else old(mutations)
    {
      SetState(op, Failure(networkError));
    }

    /** `setSuccess(for:graphQLErrors:)`. */
    method SetSuccess(op: Operation, graphQLErrors: seq<ErrorRef>)
      requires Valid()
      modifies this`queries, this`mutations
      ensures Valid()
      ensures queries == if op.operationType == Query
                         then SetLastState(queryObjectIdentifiers, old(queries), op.id, Success(graphQLErrors))
                         else old(queries)
      ensures mutations == if op.operationType == Mutation
                           then SetLastState(mutationObjectIdentifiers, old(mutations), op.id, Success(graphQLErrors))
                           else old(mutations)
    {
      SetState(op, Success(graphQLErrors));
    }

    /** `jsonValue`: one element per stored value, queries and mutations in insertion order. */
    function JsonValue(): (j: Json)
      reads this
      ensures j.JObject? && j.fields.Keys == {"queries", "mutations"}
      ensures j.fields["queries"].JArray? && |j.fields["queries"].items| == |queries|
      ensures forall i :: 0 <= i < |queries| ==> j.fields["queries"].items[i] == QueryJson(queries[i])
      ensures j.fields["mutations"].JArray? && |j.fields["mutations"].items| == |mutations|
      ensures forall i :: 0 <= i < |mutations| ==> j.fields["mutations"].items[i] == MutationJson(mutations[i])
    {
      StoreJson(queries, mutations)
    }
  }
}

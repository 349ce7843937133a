/** The insert action: one document from the request body goes to the
    store, and exactly one response is written. */
module InsertAction {
  import opened Js
  import opened Http
  import opened Settings

  /** What a store callback receives: a value, or an error with its message. */
  datatype Outcome<+T> = Done(value: T) | Failed(message: string)

  datatype DbHandle = DbHandle(id: nat)
  datatype CollectionHandle = CollectionHandle(id: nat)

  /** The document store as an oracle of outcomes: what `connect(uri)`,
      `db.collection(name)` and `collection.insert(doc)` report back. */
  datatype Store = Store(
    connect: string -> Outcome<DbHandle>,
    collection: (DbHandle, Option<string>) -> Outcome<CollectionHandle>,
    insert: (CollectionHandle, Json) -> Outcome<seq<Json>>)

  /** One call the handler makes on the store, with its argument. */
  datatype StoreCall = Connect(uri: string) | GetCollection(name: Option<string>) | Insert(doc: Json)

  /** What the handler does for one request: the status it sets (`None`:
      none), the JSON body it writes, and the store calls it makes, in order. */
  datatype Plan = Plan(status: Option<int>, reply: Json, calls: seq<StoreCall>)

  /** The body of every error response, `{message: 'Server error'}`. */
  function ServerError(): Json {
    Obj(map["message" := Str("Server error")])
  }

  /** The address connected to: the configured base URI, a slash and the
      `db` route parameter (``undefined`` when the route has none). */
  function ConnectionUri(baseUri: string, params: map<string, string>): string {
    baseUri + "/" + Text(Lookup(params, "db"))
  }

  /** The one document given to `insert`: the first element of an array
      body (``undefined`` for an empty array), otherwise the body itself. */
  function DocumentToInsert(body: Json): Json {
    if body.Arr? then At(body.items, 0) else body
  }

  /** Every store call a request can lead to, in the order the callbacks make them. */
  function Chain(request: Request, baseUri: string): seq<StoreCall> {
    [ Connect(ConnectionUri(baseUri, request.params)),
      GetCollection(Lookup(request.params, "collection")),
      Insert(DocumentToInsert(request.body)) ]
  }

  /** The behaviour of the insert action on `request`, for a store that
      answers as `store` does. */
  function PlanFor(request: Request, baseUri: string, store: Store): (p: Plan)
    // a status is set exactly when the body is truthy, and it is 201 or a 500 with the generic body
    ensures p.status.None? <==> !Truthy(request.body)
    ensures p.status.Some? ==> p.status.value == 201 || (p.status.value == 500 && p.reply == ServerError())
    // a falsy body answers [] and never touches the store
    ensures !Truthy(request.body) ==> p.reply == Arr([]) && p.calls == []
    // otherwise the store calls are a non-empty prefix of connect, collection, insert
    ensures Truthy(request.body) ==> 1 <= |p.calls| <= 3 && p.calls == Chain(request, baseUri)[..|p.calls|]
    // success is only reached through the whole chain
    ensures p.status == Some(201) ==> p.calls == Chain(request, baseUri)
  {
    if !Truthy(request.body) then Plan(None, Arr([]), [])
    else
      var uri := ConnectionUri(baseUri, request.params);
      match store.connect(uri)
      case Failed(_) => Plan(Some(500), ServerError(), [Connect(uri)])
      case Done(db) =>
        var name := Lookup(request.params, "collection");
        match store.collection(db, name)
        case Failed(_) => Plan(Some(500), ServerError(), [Connect(uri), GetCollection(name)])
        case Done(collection) =>
          var doc := DocumentToInsert(request.body);
          var calls := [Connect(uri), GetCollection(name), Insert(doc)];
          match store.insert(collection, doc)
          case Failed(_) => Plan(Some(500), ServerError(), calls)
          case Done(docs) => Plan(Some(201), At(docs, 0), calls)
  }

  /** The calls on the response object that carry out `p`. */
  function Ops(p: Plan): seq<ResponseOp> {
    (if p.status.Some? then [SetStatus(p.status.value)] else []) + [Write(JsonBody(p.reply))]
  }

  /** The route action: checks the body, then connects, gets the collection
      and inserts, stopping with a 500 at the first error. Returns the calls
      made on the store. */
  method Handle(request: Request, response: Response, tools: Tools, store: Store)
    returns (calls: seq<StoreCall>)
    modifies response
    ensures var p := PlanFor(request, tools.dbConfig.baseUri, store);
      response.State() == Applied(old(response.State()), Ops(p)) && calls == p.calls
    ensures |response.sent| == |old(response.sent)| + 1
  {
    calls := [];
    if !Truthy(request.body) {
      response.Json(Arr([]));
      return;
    }

    var uri := tools.dbConfig.baseUri + "/" + Text(Lookup(request.params, "db"));
    calls := calls + [Connect(uri)];
    var connected := store.connect(uri);
    if connected.Failed? {
      response.Status(500);
      response.Json(ServerError());
      return;
    }

    var name := Lookup(request.params, "collection");
    calls := calls + [GetCollection(name)];
    var found := store.collection(connected.value, name);
    if found.Failed? {
      response.Status(500);
      response.Json(ServerError());
      return;
    }

    // only one document is inserted per request
    var doc := if request.body.Arr? then At(request.body.items, 0) else request.body;
    calls := calls + [Insert(doc)];
    var inserted := store.insert(found.value, doc);
    if inserted.Failed? {
      response.Status(500);
      response.Json(ServerError());
      return;
    }

    response.Status(201);
    response.Json(At(inserted.value, 0));
  }

  /** Whatever the body and the store, the action writes exactly one payload. */
  lemma OneResponse(request: Request, baseUri: string, store: Store)
    ensures Writes(Ops(PlanFor(request, baseUri, store))) == 1
  {
    var p := PlanFor(request, baseUri, store);
    var last := [Write(JsonBody(p.reply))];
    assert last[1..] == [] && Writes(last) == 1;
    if p.status.Some? {
      assert Ops(p)[1..] == last;
    } else {
      assert Ops(p) == last;
    }
  }

  /** No body (or any falsy one): `json([])`, no status, no connection. */
  lemma AbsentBody(request: Request, baseUri: string, store: Store)
    requires !Truthy(request.body)
    ensures Ops(PlanFor(request, baseUri, store)) == [Write(JsonBody(Arr([])))]
    ensures PlanFor(request, baseUri, store).calls == []
  {
  }

  /** The connection is opened on the base URI followed by `'/'` and the `db` parameter. */
  lemma ConnectsToDatabase(request: Request, baseUri: string, store: Store, db: string)
    requires Truthy(request.body) && "db" in request.params && request.params["db"] == db
    ensures PlanFor(request, baseUri, store).calls[0] == Connect(baseUri + "/" + db)
  {
  }

  /** A connect error: 500 with the generic body; the collection is never requested. */
  lemma ConnectFailure(request: Request, baseUri: string, store: Store)
    requires Truthy(request.body)
    requires store.connect(ConnectionUri(baseUri, request.params)).Failed?
    ensures PlanFor(request, baseUri, store)
      == Plan(Some(500), ServerError(), [Connect(ConnectionUri(baseUri, request.params))])
  {
  }

  /** A collection error: 500 with the generic body; insert is never attempted. */
  lemma CollectionFailure(request: Request, baseUri: string, store: Store, db: DbHandle)
    requires Truthy(request.body)
    requires store.connect(ConnectionUri(baseUri, request.params)) == Done(db)
    requires store.collection(db, Lookup(request.params, "collection")).Failed?
    ensures PlanFor(request, baseUri, store) == Plan(Some(500), ServerError(), Chain(request, baseUri)[..2])
  {
  }

  /** An insert error: 500 with the generic body, after all three store calls. */
  lemma InsertFailure(request: Request, baseUri: string, store: Store, db: DbHandle, c: CollectionHandle)
    requires Truthy(request.body)
    requires store.connect(ConnectionUri(baseUri, request.params)) == Done(db)
    requires store.collection(db, Lookup(request.params, "collection")) == Done(c)
    requires store.insert(c, DocumentToInsert(request.body)).Failed?
    ensures PlanFor(request, baseUri, store) == Plan(Some(500), ServerError(), Chain(request, baseUri))
  {
  }

  /** Success: 201 with the first document the store reports back
      (``undefined`` when it reports none). */
  lemma Created(request: Request, baseUri: string, store: Store, db: DbHandle, c: CollectionHandle, docs: seq<Json>)
    requires Truthy(request.body)
    requires store.connect(ConnectionUri(baseUri, request.params)) == Done(db)
    requires store.collection(db, Lookup(request.params, "collection")) == Done(c)
    requires store.insert(c, DocumentToInsert(request.body)) == Done(docs)
    ensures PlanFor(request, baseUri, store) == Plan(Some(201), At(docs, 0), Chain(request, baseUri))
    ensures |docs| > 0 ==> PlanFor(request, baseUri, store).reply == docs[0]
    ensures |docs| == 0 ==> PlanFor(request, baseUri, store).reply == Undefined
  {
  }

  /** The store is asked to insert at most once, and only the chosen document:
      an object body goes through unchanged, caller-supplied `_id` included;
      of an array body only the first element goes. */
  lemma InsertsOneDocument(request: Request, baseUri: string, store: Store)
    ensures var calls := PlanFor(request, baseUri, store).calls;
      forall i :: 0 <= i < |calls| && calls[i].Insert? ==>
        i == 2 && calls[i].doc == DocumentToInsert(request.body)
    ensures request.body.Obj? ==> DocumentToInsert(request.body) == request.body
    ensures request.body.Arr? && |request.body.items| > 0 ==>
      DocumentToInsert(request.body) == request.body.items[0]
  {
  }

  /** An empty array is truthy: the store is contacted and, if reached,
      `insert` receives `undefined`. */
  lemma EmptyArrayBody(request: Request, baseUri: string, store: Store)
    requires request.body == Arr([])
    ensures PlanFor(request, baseUri, store).status.Some?
    ensures DocumentToInsert(request.body) == Undefined
  {
  }
}

/** The in-memory book collection behind `/books` and its four handlers.
    A book is whatever plain object the handlers stored: no field is checked.
    Fresh ids (`uuidv4()`) are parameters. */
module BookRoutes {
  import opened Optional
  import opened Json
  import opened Http
  import AuthMiddleware

  type Book = Object

  /** `book.id === id`: the `id` property is present and is that very string. */
  predicate HasId(book: Book, id: string) {
    Field(book, "id") == Some(Str(id))
  }

  /** The two records the collection starts with, under the ids generated
      when the data module loads. */
  function SeedBooks(id1: string, id2: string): seq<Book> {
    [ map["id" := Str(id1), "title" := Str("The Alchemist"), "author" := Str("Paulo Coelho"),
          "genre" := Str("Fiction"), "yearPublished" := Num(1988)],
      map["id" := Str(id2), "title" := Str("Clean Code"), "author" := Str("Robert C. Martin"),
          "genre" := Str("Programming"), "yearPublished" := Num(2008)] ]
  }

  /** `{ id: uuidv4(), ...req.body }`: every body field is kept, and the
      generated id survives only when the body has no `id` of its own. */
  function NewBook(freshId: string, body: Object): (b: Book)
    ensures b.Keys == body.Keys + {"id"}
    ensures forall k :: k in body ==> b[k] == body[k]
    ensures b["id"] == if "id" in body then body["id"] else Str(freshId)
  {
    Spread(map["id" := Str(freshId)], body)
  }

  /** `{ ...books[index], ...req.body }`: body fields win, all others keep
      their old values; a body `id` replaces the stored one. */
  function Merge(book: Book, body: Object): (b: Book)
    ensures b.Keys == book.Keys + body.Keys
    ensures forall k :: k in body ==> b[k] == body[k]
    ensures forall k :: k in book && k !in body ==> b[k] == book[k]
  {
    Spread(book, body)
  }

  /** `books.findIndex(book => book.id === id)`: the first matching index,
      or -1 when none matches. */
  function FindIndex(books: seq<Book>, id: string): (r: int)
    ensures -1 <= r < |books|
    ensures r == -1 <==> forall j :: 0 <= j < |books| ==> !HasId(books[j], id)
    ensures r >= 0 ==> HasId(books[r], id) && forall j :: 0 <= j < r ==> !HasId(books[j], id)
  {
    if books == [] then -1
    else if HasId(books[0], id) then 0
    else
      var k := FindIndex(books[1..], id);
      assert forall j :: 1 <= j < |books| ==> books[j] == books[1..][j - 1];
      if k == -1 then -1 else k + 1
  }

  /** `books.filter(book => book.id !== id)`. */
  function Without(books: seq<Book>, id: string): (r: seq<Book>)
    ensures |r| <= |books|
    ensures forall b :: b in r <==> b in books && !HasId(b, id)
  {
    if books == [] then []
    else
      var rest := Without(books[1..], id);
      assert forall b :: b in books <==> b == books[0] || b in books[1..];
      if HasId(books[0], id) then rest else [books[0]] + rest
  }

  /** Filtering distributes over concatenation, so the survivors keep their
      relative order. */
  lemma {:induction false} WithoutAppend(a: seq<Book>, b: seq<Book>, id: string)
    ensures Without(a + b, id) == Without(a, id) + Without(b, id)
  {
    if a == [] {
      assert a + b == b;
    } else {
      assert (a + b)[0] == a[0];
      assert (a + b)[1..] == a[1..] + b;
      WithoutAppend(a[1..], b, id);
    }
  }

  /** When nothing has the id, the filter gives the collection back. */
  lemma {:induction false} WithoutNothing(books: seq<Book>, id: string)
    requires forall j :: 0 <= j < |books| ==> !HasId(books[j], id)
    ensures Without(books, id) == books
  {
    if books != [] {
      WithoutNothing(books[1..], id);
      assert [books[0]] + books[1..] == books;
    }
  }

  /** Deleting twice is deleting once. */
  lemma WithoutIdempotent(books: seq<Book>, id: string)
    ensures Without(Without(books, id), id) == Without(books, id)
  {
    var once := Without(books, id);
    assert forall j :: 0 <= j < |once| ==> once[j] in once;
    WithoutNothing(once, id);
  }

  /** Creating a record whose generated id no stored record has, and then
      deleting that id, restores the collection exactly. */
  lemma CreateThenDelete(books: seq<Book>, freshId: string, body: Object)
    requires forall j :: 0 <= j < |books| ==> !HasId(books[j], freshId)
    requires "id" !in body
    ensures Without(books + [NewBook(freshId, body)], freshId) == books
  {
    WithoutAppend(books, [NewBook(freshId, body)], freshId);
    WithoutNothing(books, freshId);
    assert books + [] == books;
  }

  /** `res.json(books)`: the collection as a JSON array, in stored order. */
  function BooksJson(books: seq<Book>): Value {
    Arr(seq(|books|, i requires 0 <= i < |books| => Obj(books[i])))
  }

  /** The requests the router answers, by method and path. */
  datatype Route =
    | ListBooks                               // GET /books
    | CreateBook(body: Object)                // POST /books
    | UpdateBook(id: string, body: Object)    // PUT /books/:id
    | DeleteBook(id: string)                  // DELETE /books/:id

  /** The routes mounted behind the auth gate: list, update and delete;
      create is mounted without it. */
  predicate Guarded(route: Route): (r: bool)
    ensures r <==> route.ListBooks? || route.UpdateBook? || route.DeleteBook?
  {
    !route.CreateBook?
  }

  /** The module-level `books` array. */
  class BookStore {
    var books: seq<Book>

    /** The collection as loaded from the data module. */
    constructor (id1: string, id2: string)
      ensures books == SeedBooks(id1, id2)
    {
      books := SeedBooks(id1, id2);
    }

    /** GET /books: the whole collection, in stored order. */
    method List() returns (resp: Response)
      ensures resp == Response(200, JsonBody(BooksJson(books)))
      ensures |resp.body.value.items| == |books|
      ensures forall j :: 0 <= j < |books| ==> resp.body.value.items[j] == Obj(books[j])
    {
      resp := Response(200, JsonBody(BooksJson(books)));
    }

    /** POST /books: one new record at the end, every earlier one untouched. */
    method Create(freshId: string, body: Object) returns (resp: Response)
      modifies this
      ensures books == old(books) + [NewBook(freshId, body)]
      ensures |books| == |old(books)| + 1 && books[..|old(books)|] == old(books)
      ensures resp == Response(201, JsonBody(Obj(NewBook(freshId, body))))
    {
      var newBook := NewBook(freshId, body);
      books := books + [newBook];
      resp := Response(201, JsonBody(Obj(newBook)));
    }

    /** PUT /books/:id: merge the body into the first matching record and
      answer with it, or answer 404 and change nothing. */
    method Update(id: string, body: Object) returns (resp: Response)
      modifies this
      ensures var i := FindIndex(old(books), id);
        if i == -1 then (books == old(books) && resp == Response(404, NoBody))
        else (books == old(books)[i := Merge(old(books)[i], body)]
              && resp == Response(200, JsonBody(Obj(books[i]))))
      ensures |books| == |old(books)|
      ensures forall j :: 0 <= j < |books| && j != FindIndex(old(books), id) ==> books[j] == old(books)[j]
    {
      var index := FindIndex(books, id);
      if index != -1 {
        books := books[index := Merge(books[index], body)];
        resp := Response(200, JsonBody(Obj(books[index])));
      } else {
        resp := Response(404, NoBody);
      }
    }

    /** DELETE /books/:id: drop every record with that id; always 204. */
    method Delete(id: string) returns (resp: Response)
      modifies this
      ensures books == Without(old(books), id)
      ensures resp == Response(204, NoBody)
    {
      books := Without(books, id);
      resp := Response(204, NoBody);
    }

    /** The router: the guarded routes run the gate first and, when it
      refuses, answer with its response and leave the collection alone;
      create runs whatever the header says. */
    method Handle(route: Route, authHeader: Option<string>, verify: (string, string) -> AuthMiddleware.VerifyOutcome,
                  freshId: string, now: string) returns (resp: Response)
      modifies this
      ensures var gate := AuthMiddleware.Decide(authHeader, verify, now);
        Guarded(route) && gate.Reject? ==> books == old(books) && resp == gate.response
      ensures route.CreateBook? ==>
        && books == old(books) + [NewBook(freshId, route.body)]
        && resp == Response(201, JsonBody(Obj(NewBook(freshId, route.body))))
      ensures AuthMiddleware.Decide(authHeader, verify, now).Continue? ==>
        match route
        case ListBooks =>
          books == old(books) && resp == Response(200, JsonBody(BooksJson(books)))
        case UpdateBook(id, body) =>
          var i := FindIndex(old(books), id);
          if i == -1 then (books == old(books) && resp == Response(404, NoBody))
          else (books == old(books)[i := Merge(old(books)[i], body)] && resp == Response(200, JsonBody(Obj(books[i]))))
        case DeleteBook(id) =>
          books == Without(old(books), id) && resp == Response(204, NoBody)
        case CreateBook(_) => true
    {
      if route.CreateBook? {
        resp := Create(freshId, route.body);
        return;
      }
      var gate := AuthMiddleware.Decide(authHeader, verify, now);
      if gate.Reject? {
        resp := gate.response;
        return;
      }
      match route
      case ListBooks =>
        resp := List();
      case UpdateBook(id, body) =>
        resp := Update(id, body);
      case DeleteBook(id) =>
        resp := Delete(id);
    }
  }
}

/** The older fluent client (Clutch/FluentClient.cs): the same chain-building as net40,
    but a terminal `Get` yields the decoded entity or `default(T)`, and `Post` yields the
    response's success flag. */
module LegacyClient {
  import opened Fragments
  import opened Responses
  import Client

  /** `CurriedRequest`: the client's root URL and the chain `_path`, whose root node holds
      null. */
  class CurriedRequest {
    const rootUrl: string
    const path: Entity
    ghost var Repr: set<object>

    ghost predicate Valid()
      reads this, Repr
    {
      this in Repr && path in Repr && path.Repr <= Repr && this !in path.Repr &&
      path.Valid() && path.value.None?
    }

    constructor (rootUrl: string)
      ensures Valid() && fresh(Repr)
      ensures this.rootUrl == rootUrl && path.segs == [None]
    {
      this.rootUrl := rootUrl;
      path := new Entity(None);
      new;
      Repr := {this} + path.Repr;
    }

    /** `Find<T>(id)`: appends the collection name and the id, and returns this request. */
    method Find(typeName: string, id: Option<string>) returns (r: CurriedRequest)
      requires Valid()
      modifies Repr
      ensures r == this && Valid() && fresh(Repr - old(Repr))
      ensures path.segs == old(path.segs) + Client.FindSegments(typeName, id)
    {
      var plural := new Entity.Plural(typeName);
      var head := path.Chain(plural);
      head := head.ChainValue(id);
      Repr := Repr + path.Repr;
      r := this;
    }

    /** `Get<T>(id)`: appends the collection name and the id, renders the chain and sends a
        GET; the answer is the decoded body on success and `default(T)` (None) otherwise. */
    method Get<T, C>(typeName: string, id: Option<string>, send: string -> HttpResponse<C>,
                     read: C -> Option<T>)
      returns (call: Call<Option<T>>)
      requires Valid()
      modifies Repr
      ensures Valid() && fresh(Repr - old(Repr))
      ensures path.segs == old(path.segs) + Client.FindSegments(typeName, id)
      ensures call.PathError? <==> Render(path.segs).None?
      ensures call.Dispatched? ==>
        Render(path.segs) == Some(call.path) &&
        call.result == LegacyGetResult(send(call.path), read)
    {
      var plural := new Entity.Plural(typeName);
      var head := path.Chain(plural);
      head := head.ChainValue(id);
      Repr := Repr + path.Repr;
      match path.ToString()
      case None =>
        call := PathError;
      case Some(p) =>
        call := Dispatched(p, LegacyGetResult(send(p), read));
    }

    /** `Post<T>(model)`: appends only the collection name, renders the chain and POSTs the
        model; the answer is whether the status was a success. */
    method Post<M, C>(typeName: string, model: M, send: (string, M) -> HttpResponse<C>)
      returns (call: Call<bool>)
      requires Valid()
      modifies Repr
      ensures Valid() && fresh(Repr - old(Repr))
      ensures path.segs == old(path.segs) + [Some(PluralName(typeName))]
      ensures call.PathError? <==> Render(path.segs).None?
      ensures call.Dispatched? ==>
        Render(path.segs) == Some(call.path) &&
        call.result == LegacyPostResult(send(call.path, model))
    {
      var plural := new Entity.Plural(typeName);
      var _ := path.Chain(plural);
      Repr := Repr + path.Repr;
      match path.ToString()
      case None =>
        call := PathError;
      case Some(p) =>
        call := Dispatched(p, LegacyPostResult(send(p, model)));
    }
  }

  /** `FluentClient`: the entry point, which keeps only the root URL and builds a new
      `CurriedRequest` for every call. */
  class FluentClient {
    const rootUrl: string

    constructor (rootUrl: string)
      ensures this.rootUrl == rootUrl
    {
      this.rootUrl := rootUrl;
    }

    /** `Find<T>(id)`: a new request whose chain holds the null root, the collection name
        and the id. */
    method Find(typeName: string, id: Option<string>) returns (r: CurriedRequest)
      ensures fresh(r) && fresh(r.Repr) && r.Valid() && r.rootUrl == rootUrl
      ensures r.path.segs == [None, Some(PluralName(typeName)), id]
    {
      var req := new CurriedRequest(rootUrl);
      r := req.Find(typeName, id);
    }

    /** `Get<T>(id)`: the path is the collection name and the id; on a failure status the
        answer is `default(T)` (None), not an exception. A null id throws. */
    method Get<T, C>(typeName: string, id: Option<string>, send: string -> HttpResponse<C>,
                     read: C -> Option<T>)
      returns (call: Call<Option<T>>)
      ensures id.None? <==> call.PathError?
      ensures id.Some? ==> call.Dispatched? && call.path == PluralName(typeName) + "/" + id.value
      ensures call.Dispatched? && 200 <= send(call.path).StatusCode <= 299 ==>
        call.result == read(send(call.path).Content)
      ensures call.Dispatched? && !(200 <= send(call.path).StatusCode <= 299) ==>
        call.result == None
    {
      var req := new CurriedRequest(rootUrl);
      call := req.Get(typeName, id, send, read);
      assert req.path.segs == [None] + [Some(PluralName(typeName)), id];
      if id.Some? {
        Client.StepsRender([Client.Step(typeName, id.value)]);
        assert Client.StepSegments([Client.Step(typeName, id.value)]) == req.path.segs;
        assert Client.StepWords([Client.Step(typeName, id.value)]) == [PluralName(typeName), id.value];
      } else {
        NullTerminalFails(req.path.segs);
      }
    }

    /** `Post<T>(model)`: the path is the collection name alone; the answer is true exactly
        for a status in 200-299. */
    method Post<M, C>(typeName: string, model: M, send: (string, M) -> HttpResponse<C>)
      returns (call: Call<bool>)
      ensures call.Dispatched? && call.path == PluralName(typeName)
      ensures call.result <==> 200 <= send(PluralName(typeName), model).StatusCode <= 299
    {
      var req := new CurriedRequest(rootUrl);
      call := req.Post(typeName, model, send);
      assert req.path.segs == [None, Some(PluralName(typeName))];
    }
  }

  /** Two identical `Get` calls on one older client dispatch the same path, each answered
      on its own: `sendFirst` and `sendSecond` are the server's two replies. */
  method RepeatedGet<T, C>(client: FluentClient, typeName: string, id: string,
                           sendFirst: string -> HttpResponse<C>, sendSecond: string -> HttpResponse<C>,
                           read: C -> Option<T>)
    returns (first: Call<Option<T>>, second: Call<Option<T>>)
    ensures first.Dispatched? && second.Dispatched?
    ensures first.path == second.path == PluralName(typeName) + "/" + id
    ensures first.result == LegacyGetResult(sendFirst(first.path), read)
    ensures second.result == LegacyGetResult(sendSecond(second.path), read)
  {
    first := client.Get(typeName, Some(id), sendFirst, read);
    second := client.Get(typeName, Some(id), sendSecond, read);
  }
}

/** The net40 fluent client: `CurriedRequest` accumulates URL fragments in one chain whose
    root holds null, and `FluentClient<TError>` starts a fresh `CurriedRequest` for every
    call. Terminal calls render the chain and hand the path to the transport `send`, whose
    answer `BuildResponse` maps to an envelope. */
module Client {
  import opened Fragments
  import opened Responses

  /** The two fragments `Find` and `Get` append: the collection, then the id. */
  function FindSegments(typeName: string, id: Option<string>): seq<Option<string>>
  {
    [Some(PluralName(typeName)), id]
  }

  /** One `Find<T>(id)` (or the final `Get<T>(id)`) with a non-null id. */
  datatype Step = Step(typeName: string, id: string)

  /** The chain of a request after the given calls, root first. */
  function StepSegments(steps: seq<Step>): (r: seq<Option<string>>)
    ensures |r| == 1 + 2 * |steps| && r[0] == None
  {
    if steps == [] then [None]
    else
      var last := steps[|steps| - 1];
      StepSegments(steps[..|steps| - 1]) + FindSegments(last.typeName, Some(last.id))
  }

  /** The path the calls should produce: each collection name followed by its id, in call
      order. */
  function StepWords(steps: seq<Step>): (r: seq<string>)
    ensures |r| == 2 * |steps|
    ensures |steps| > 0 ==> r[0] == PluralName(steps[0].typeName)
  {
    if steps == [] then []
    else
      var last := steps[|steps| - 1];
      StepWords(steps[..|steps| - 1]) + [PluralName(last.typeName), last.id]
  }

  /** However many calls are chained, the rendered path is the collection names and ids
      joined by "/" in call order, with no leading separator from the null root. */
  lemma {:induction false} StepsRender(steps: seq<Step>)
    requires |steps| > 0
    ensures Render(StepSegments(steps)) == Some(Join(StepWords(steps)))
  {
    StepsPresent(steps);
    var s := StepSegments(steps);
    RenderIsJoinOfPresent(s);
  }

  lemma {:induction false} StepsPresent(steps: seq<Step>)
    ensures Present(StepSegments(steps)) == StepWords(steps)
  {
    if steps == [] {
      assert Present([None]) == [] by {
        assert StepSegments([])[1..] == [];
      }
    } else {
      var init := steps[..|steps| - 1];
      var last := steps[|steps| - 1];
      StepsPresent(init);
      PresentAppend(StepSegments(init), FindSegments(last.typeName, Some(last.id)));
      var f := FindSegments(last.typeName, Some(last.id));
      assert f[1..][1..] == [];
      assert Present(f) == [PluralName(last.typeName), last.id];
    }
  }

  /** The null root adds no separator: a request's path begins with its first collection
      name, so it starts with "/" only if that type name does. */
  lemma NoLeadingSeparator(steps: seq<Step>)
    requires |steps| > 0 && steps[0].typeName != "" && steps[0].typeName[0] != '/'
    ensures Render(StepSegments(steps)).Some?
    ensures |Render(StepSegments(steps)).value| > 0 && Render(StepSegments(steps)).value[0] != '/'
  {
    StepsRender(steps);
    StepsPresent(steps);
    RenderStartsWithFirstPresent(StepSegments(steps));
  }

  /** The path of `Find<A>(a).Get<B>(b)` is exactly "As/a/Bs/b". */
  lemma FindThenGetPath(outer: string, outerId: string, inner: string, innerId: string)
    ensures Render([None, Some(PluralName(outer)), Some(outerId), Some(PluralName(inner)), Some(innerId)])
         == Some(PluralName(outer) + "/" + outerId + "/" + PluralName(inner) + "/" + innerId)
  {
    var steps := [Step(outer, outerId), Step(inner, innerId)];
    StepsRender(steps);
    assert steps[..1] == [Step(outer, outerId)];
    assert StepSegments(steps) == [None, Some(PluralName(outer)), Some(outerId), Some(PluralName(inner)), Some(innerId)];
    assert StepWords(steps) == [PluralName(outer), outerId, PluralName(inner), innerId];
    var a, b, c := PluralName(outer), PluralName(inner), innerId;
    assert Join([b, c]) == b + "/" + c by {
      assert [b, c][1..] == [c];
    }
    assert Join([outerId, b, c]) == outerId + "/" + b + "/" + c by {
      assert [outerId, b, c][1..] == [b, c];
    }
    assert Join([a, outerId, b, c]) == a + "/" + outerId + "/" + b + "/" + c by {
      assert [a, outerId, b, c][1..] == [outerId, b, c];
    }
  }

  /** `CurriedRequest`: the client's root URL and the chain `_path`, whose root node holds
      null. */
  class CurriedRequest {
    const rootUrl: string
    const path: Entity
    ghost var Repr: set<object>

    ghost predicate Valid()
      reads this, Repr
    {
      this in Repr && path in Repr && path.Repr <= Repr && this !in path.Repr &&
      path.Valid() && path.value.None?
    }

    constructor (rootUrl: string)
      ensures Valid() && fresh(Repr)
      ensures this.rootUrl == rootUrl && path.segs == [None]
    {
      this.rootUrl := rootUrl;
      path := new Entity(None);
      new;
      Repr := {this} + path.Repr;
    }

    /** `Find<T>(id)`: appends the collection name and the id, and returns this request. */
    method Find(typeName: string, id: Option<string>) returns (r: CurriedRequest)
      requires Valid()
      modifies Repr
      ensures r == this && Valid() && fresh(Repr - old(Repr))
      ensures path.segs == old(path.segs) + FindSegments(typeName, id)
    {
      var plural := new Entity.Plural(typeName);
      var head := path.Chain(plural);
      head := head.ChainValue(id);
      Repr := Repr + path.Repr;
      r := this;
    }

    /** `Get<T>(id)`: appends the collection name and the id, renders the whole chain and
        sends a GET for that path. */
    method Get<T, E, C>(typeName: string, id: Option<string>, send: string -> HttpResponse<C>,
                        readEntity: C -> Option<T>, readError: C -> Option<E>)
      returns (call: Call<FluentResponse<T, E>>)
      requires Valid()
      modifies Repr
      ensures Valid() && fresh(Repr - old(Repr))
      ensures path.segs == old(path.segs) + FindSegments(typeName, id)
      ensures call.PathError? <==> Render(path.segs).None?
      ensures call.Dispatched? ==>
        Render(path.segs) == Some(call.path) &&
        call.result == BuildResponse(send(call.path), readEntity, readError)
    {
      var plural := new Entity.Plural(typeName);
      var head := path.Chain(plural);
      head := head.ChainValue(id);
      Repr := Repr + path.Repr;
      match path.ToString()
      case None =>
        call := PathError;
      case Some(p) =>
        call := Dispatched(p, BuildResponse(send(p), readEntity, readError));
    }

    /** `Post<T>(model)`: appends only the collection name, renders the chain and sends the
        model in a POST to that path. */
    method Post<T, E, C>(typeName: string, model: T, send: (string, T) -> HttpResponse<C>,
                         readEntity: C -> Option<T>, readError: C -> Option<E>)
      returns (call: Call<FluentResponse<T, E>>)
      requires Valid()
      modifies Repr
      ensures Valid() && fresh(Repr - old(Repr))
      ensures path.segs == old(path.segs) + [Some(PluralName(typeName))]
      ensures call.PathError? <==> Render(path.segs).None?
      ensures call.Dispatched? ==>
        Render(path.segs) == Some(call.path) &&
        call.result == BuildResponse(send(call.path, model), readEntity, readError)
    {
      var plural := new Entity.Plural(typeName);
      var _ := path.Chain(plural);
      Repr := Repr + path.Repr;
      match path.ToString()
      case None =>
        call := PathError;
      case Some(p) =>
        call := Dispatched(p, BuildResponse(send(p, model), readEntity, readError));
    }
  }

  /** `FluentClient<TError>`: the entry point. It keeps only the root URL; every call
      builds a new `CurriedRequest`, so nothing carries over from one call to the next. */
  class FluentClient {
    const rootUrl: string

    constructor (rootUrl: string)
      ensures this.rootUrl == rootUrl
    {
      this.rootUrl := rootUrl;
    }

    /** `Find<T>(id)`: a new request whose chain holds the null root, the collection name
        and the id. */
    method Find(typeName: string, id: Option<string>) returns (r: CurriedRequest)
      ensures fresh(r) && fresh(r.Repr) && r.Valid() && r.rootUrl == rootUrl
      ensures r.path.segs == [None, Some(PluralName(typeName)), id]
    {
      var req := new CurriedRequest(rootUrl);
      r := req.Find(typeName, id);
    }

    /** `Get<T>(id)`: the path is the collection name and the id, "Rooms/H1" for
        `Get<Room>("H1")`, whatever this client was used for before; a null id throws. */
    method Get<T, E, C>(typeName: string, id: Option<string>, send: string -> HttpResponse<C>,
                        readEntity: C -> Option<T>, readError: C -> Option<E>)
      returns (call: Call<FluentResponse<T, E>>)
      ensures id.None? <==> call.PathError?
      ensures id.Some? ==> call.Dispatched? && call.path == PluralName(typeName) + "/" + id.value
      ensures call.Dispatched? ==> call.result == BuildResponse(send(call.path), readEntity, readError)
    {
      var req := new CurriedRequest(rootUrl);
      call := req.Get(typeName, id, send, readEntity, readError);
      assert req.path.segs == [None] + [Some(PluralName(typeName)), id];
      if id.Some? {
        StepsRender([Step(typeName, id.value)]);
        assert StepSegments([Step(typeName, id.value)]) == req.path.segs;
        assert StepWords([Step(typeName, id.value)]) == [PluralName(typeName), id.value];
      } else {
        NullTerminalFails(req.path.segs);
      }
    }

    /** `Post<T>(model)`: the path is the collection name alone. */
    method Post<T, E, C>(typeName: string, model: T, send: (string, T) -> HttpResponse<C>,
                         readEntity: C -> Option<T>, readError: C -> Option<E>)
      returns (call: Call<FluentResponse<T, E>>)
      ensures call == Dispatched(PluralName(typeName),
                                 BuildResponse(send(PluralName(typeName), model), readEntity, readError))
    {
      var req := new CurriedRequest(rootUrl);
      call := req.Post(typeName, model, send, readEntity, readError);
      assert req.path.segs == [None, Some(PluralName(typeName))];
    }
  }

  /** `Find<A>(a).Get<B>(b)` on a client dispatches "As/a/Bs/b": the find extends the
      chain of the request it created, and the get continues that same chain. */
  method FindThenGet<T, E, C>(client: FluentClient, outer: string, outerId: string,
                              inner: string, innerId: string, send: string -> HttpResponse<C>,
                              readEntity: C -> Option<T>, readError: C -> Option<E>)
    returns (call: Call<FluentResponse<T, E>>)
    ensures call.Dispatched?
    ensures call.path == PluralName(outer) + "/" + outerId + "/" + PluralName(inner) + "/" + innerId
    ensures call.result == BuildResponse(send(call.path), readEntity, readError)
  {
    var req := client.Find(outer, Some(outerId));
    call := req.Get(inner, Some(innerId), send, readEntity, readError);
    FindThenGetPath(outer, outerId, inner, innerId);
    assert req.path.segs == [None, Some(PluralName(outer)), Some(outerId), Some(PluralName(inner)), Some(innerId)];
  }

  /** Two identical `Get` calls on one client dispatch the same path: the second does not
      see the first call's fragments. Each is answered on its own: `sendFirst` and
      `sendSecond` are the server's two replies. */
  method RepeatedGet<T, E, C>(client: FluentClient, typeName: string, id: string,
                              sendFirst: string -> HttpResponse<C>, sendSecond: string -> HttpResponse<C>,
                              readEntity: C -> Option<T>, readError: C -> Option<E>)
    returns (first: Call<FluentResponse<T, E>>, second: Call<FluentResponse<T, E>>)
    ensures first.Dispatched? && second.Dispatched?
    ensures first.path == second.path == PluralName(typeName) + "/" + id
    ensures first.result == BuildResponse(sendFirst(first.path), readEntity, readError)
    ensures second.result == BuildResponse(sendSecond(second.path), readEntity, readError)
  {
    first := client.Get(typeName, Some(id), sendFirst, readEntity, readError);
    second := client.Get(typeName, Some(id), sendSecond, readEntity, readError);
  }

  /** `client.Find<A1>(a1).Find<A2>(a2)...Get<B>(b)`: each `Find` extends the chain of the
      one request the first call created, so the path is every collection name and id in
      call order. */
  method NestedGet<T, E, C>(client: FluentClient, finds: seq<Step>, last: Step,
                            send: string -> HttpResponse<C>,
                            readEntity: C -> Option<T>, readError: C -> Option<E>)
    returns (call: Call<FluentResponse<T, E>>)
    ensures call.Dispatched?
    ensures call.path == Join(StepWords(finds + [last]))
    ensures call.result == BuildResponse(send(call.path), readEntity, readError)
  {
    var steps := finds + [last];
    StepsRender(steps);
    if finds == [] {
      call := client.Get(last.typeName, Some(last.id), send, readEntity, readError);
      assert [last][..0] == [];
      assert StepWords([last]) == [PluralName(last.typeName), last.id];
      assert Join(StepWords([last])) == PluralName(last.typeName) + "/" + last.id by {
        assert StepWords([last])[1..] == [last.id];
      }
    } else {
      var req := client.Find(finds[0].typeName, Some(finds[0].id));
      assert finds[..1] == [finds[0]];
      assert finds[..1][..0] == [];
      var i := 1;
      while i < |finds|
        invariant 1 <= i <= |finds|
        invariant req.Valid() && fresh(req.Repr)
        invariant req.path.segs == StepSegments(finds[..i])
      {
        assert finds[..i + 1][..i] == finds[..i];
        req := req.Find(finds[i].typeName, Some(finds[i].id));
        i := i + 1;
      }
      assert finds == finds[..i];
      call := req.Get(last.typeName, Some(last.id), send, readEntity, readError);
      assert steps[..|steps| - 1] == finds;
      assert req.path.segs == StepSegments(steps);
    }
  }

  /** By contrast, two `Get` calls on one `CurriedRequest` accumulate: the second renders
      the first call's fragments too. */
  method RepeatedGetOnOneRequest<T, E, C>(rootUrl: string, typeName: string, id: string,
                                          send: string -> HttpResponse<C>, readEntity: C -> Option<T>, readError: C -> Option<E>)
    returns (first: Call<FluentResponse<T, E>>, second: Call<FluentResponse<T, E>>)
    ensures first.Dispatched? && first.path == PluralName(typeName) + "/" + id
    ensures second.Dispatched? && second.path == first.path + "/" + PluralName(typeName) + "/" + id
  {
    var req := new CurriedRequest(rootUrl);
    first := req.Get(typeName, Some(id), send, readEntity, readError);
    second := req.Get(typeName, Some(id), send, readEntity, readError);
    FindThenGetPath(typeName, id, typeName, id);
    assert req.path.segs == [None, Some(PluralName(typeName)), Some(id), Some(PluralName(typeName)), Some(id)];
    StepsRender([Step(typeName, id)]);
    assert StepSegments([Step(typeName, id)]) == [None, Some(PluralName(typeName)), Some(id)];
    assert StepWords([Step(typeName, id)]) == [PluralName(typeName), id];
  }
}

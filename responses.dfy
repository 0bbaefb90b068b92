/** Mapping an HTTP outcome to what a terminal call returns, in both variants of the
    client: the net40 envelope `FluentResponse<T, TError>` built by `BuildResponse`, and
    the older client's bare value (or `default(T)`) from `GetAsync` and success flag from
    `PostAsJsonAsync`. Reading a body as JSON is opaque: it is given as a function of the
    content, whose None is a body that decodes to null. */
module Responses {
  import opened Fragments

  /** What the transport hands back: the status code and the unread content. */
  datatype HttpResponse<C> = HttpResponse(StatusCode: int, Content: C)

  /** The envelope of net45/Clutch/FluentResponse.cs; None is a property left at its
      default. */
  datatype FluentResponse<T, E> = FluentResponse(StatusCode: int, Error: Option<E>, Entity: Option<T>)

  /** The outcome of a terminal `Get`/`Post`: rendering the path threw before anything was
      sent, or the rendered path was dispatched and the response mapped to `result`. */
  datatype Call<R> = PathError | Dispatched(path: string, result: R)

  /** `HttpResponseMessage.IsSuccessStatusCode`: the status is in 200-299. */
  predicate IsSuccessStatusCode(status: int)
  {
    200 <= status <= 299
  }

  /** net40 `BuildResponse`: on success the content is read as the entity type, otherwise
      as the error type; the status code is copied either way. A reader yields None where
      the body decodes to null (a JSON `null`, an empty body), and that None is assigned
      as it is. */
  function BuildResponse<T, E, C>(response: HttpResponse<C>, readEntity: C -> Option<T>, readError: C -> Option<E>): (r: FluentResponse<T, E>)
    ensures r.StatusCode == response.StatusCode
    ensures 200 <= response.StatusCode <= 299 ==> r.Entity == readEntity(response.Content) && r.Error == None
    ensures !(200 <= response.StatusCode <= 299) ==> r.Error == readError(response.Content) && r.Entity == None
  {
    if IsSuccessStatusCode(response.StatusCode) then
      FluentResponse(response.StatusCode, None, readEntity(response.Content))
    else
      FluentResponse(response.StatusCode, readError(response.Content), None)
  }

  /** At most one of `Entity` and `Error` is set. */
  predicate NeverBoth<T, E>(r: FluentResponse<T, E>)
  {
    !(r.Entity.Some? && r.Error.Some?)
  }

  /** No envelope `BuildResponse` makes has both sides set; an entity is only ever set on a
      success status and an error only on a failure status. Both stay unset when the body
      read for the status decodes to null. */
  lemma BuildResponseNeverBoth<T, E, C>(response: HttpResponse<C>, readEntity: C -> Option<T>, readError: C -> Option<E>)
    ensures NeverBoth(BuildResponse(response, readEntity, readError))
    ensures BuildResponse(response, readEntity, readError).Entity.Some? ==> IsSuccessStatusCode(response.StatusCode)
    ensures BuildResponse(response, readEntity, readError).Error.Some? ==> !IsSuccessStatusCode(response.StatusCode)
    ensures BuildResponse(response, readEntity, readError).Entity.None? && BuildResponse(response, readEntity, readError).Error.None?
        <==> if IsSuccessStatusCode(response.StatusCode) then readEntity(response.Content).None? else readError(response.Content).None?
  {
  }

  /** A 401 answered with an error body: no entity, status 401, the decoded error. */
  lemma UnauthorisedEnvelope<T, E, C>(content: C, readEntity: C -> Option<T>, readError: C -> Option<E>, error: E)
    requires readError(content) == Some(error)
    ensures BuildResponse(HttpResponse(401, content), readEntity, readError)
         == FluentResponse(401, Some(error), None)
  {
  }

  /** Older `GetAsync`: the content read as `T` on success, `default(T)` (None) otherwise;
      a failure status does not throw. */
  function LegacyGetResult<T, C>(response: HttpResponse<C>, read: C -> Option<T>): (r: Option<T>)
    ensures 200 <= response.StatusCode <= 299 ==> r == read(response.Content)
    ensures !(200 <= response.StatusCode <= 299) ==> r == None
  {
    if IsSuccessStatusCode(response.StatusCode) then read(response.Content) else None
  }

  /** Older `PostAsJsonAsync`: the response's success flag. */
  function LegacyPostResult<C>(response: HttpResponse<C>): (ok: bool)
    ensures ok <==> 200 <= response.StatusCode <= 299
  {
    IsSuccessStatusCode(response.StatusCode)
  }

  /** The two variants agree: the older `Get` yields the net40 envelope's entity, and the
      older `Post` yields whether the status would make the net40 envelope an entity one. */
  lemma VariantsAgree<T, E, C>(response: HttpResponse<C>, read: C -> Option<T>, readError: C -> Option<E>)
    ensures LegacyGetResult(response, read) == BuildResponse(response, read, readError).Entity
    ensures LegacyPostResult(response) == BuildResponse(response, c => Some(()), readError).Entity.Some?
  {
  }
}

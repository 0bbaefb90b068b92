# Clutch path building and response mapping, in Dafny

Clutch is a convention-based REST client. From a root URL and typed calls such as
`Find<User>(1).Get<Room>("123")` it derives the request path `Users/1/Rooms/123`: the type's
name plus "s" for each collection, followed by the id. It then maps the HTTP outcome to a
typed result. This project models that logic for both variants in the repository.

The usage comment in both variants (net40/Clutch/FluentClient.cs:10-16,
Clutch/FluentClient.cs:13-19) shows the resource as `.../v1/users/1/rooms/123`, in lower
case. The code does not produce that path. `PluralEntity` uses the type's name as written
(net40/Clutch/FluentClient.cs:209), so it sends `Users/1/Rooms/123`, which reaches the
documented resource only on a server that matches paths case-insensitively. The model
follows the code.

- `fragments.dfy` (module `Fragments`) holds the private `Entity` URL-fragment chain, shared
  by both variants because its code is the same in both (net40/Clutch/FluentClient.cs:161-211
  and Clutch/FluentClient.cs:142-189). `Entity` is a class with a mutable `next` link. Each
  node carries the ghost list `segs` of optional values from itself to the tail, and a ghost
  footprint `Repr`. `Chain` is the recursive tail walk the source performs. `ToString` is the
  recursive rendering, and `Render` gives the same result over `segs`. The `Present`/`Join`
  pair is an independent reference for it: keep the non-null values, join them with "/".
  `PluralName` is the `PluralEntity<T>` naming rule.
- `responses.dfy` (module `Responses`) holds the response mapping. The envelope
  `FluentResponse<T, TError>` is a datatype. `BuildResponse` is the net40 mapping, and
  `LegacyGetResult`/`LegacyPostResult` are the mappings of the older client.
- `client.dfy` (module `Client`) holds the net40 `CurriedRequest` and `FluentClient<TError>`
  classes, plus the path equations for any number of chained calls.
- `legacy_client.dfy` (module `LegacyClient`) holds the same two classes for the older client
  in Clutch/FluentClient.cs, where `Get` yields a bare value and `Post` yields a flag.

Modelling choices:
- A type's name (`typeof(T).Name`) is a `typeName: string` parameter.
- An `object id` is an `Option<string>`. `None` is a null id, which `Chain` wraps in a
  null-valued node.
- The network is a function parameter `send`. It takes the rendered relative path (and, for
  a POST, the model) and gives an `HttpResponse(StatusCode, Content)`.
- Reading the content as JSON is given as functions `readEntity`/`readError` (older client:
  `read`) that return an `Option`. `None` is a body that decodes to null, such as a JSON
  `null` or, typically, an empty body.
- A terminal call's outcome is a `Call`. `PathError` is the NullReferenceException that
  `ToString` raises when the tail value is null, before anything is sent. Otherwise it is
  `Dispatched(path, result)`.
- A property of the envelope left at its default (`default(T)`, `default(TError)`) is `None`,
  and so is the older client's `default(T)`.

Further modelling choices that follow the code:
- The chain is mutated in place, by walking `_chainLink` to the tail
  (net40/Clutch/FluentClient.cs:186-200). It is not copied on each append.
- The net40 `Post` yields the full envelope (net40/Clutch/FluentClient.cs:150-155). The older
  `Post` yields only the success flag (Clutch/FluentClient.cs:65-72).
- On a failure status the body is always read as the error type and assigned as decoded
  (net40/Clutch/FluentClient.cs:96-105). `Error` is unset afterwards only when that body
  decodes to null.

## Model

| member | source | states |
|---|---|---|
| Fragments.PluralName | net40/Clutch/FluentClient.cs:206-211 | the collection name is exactly the type name followed by the postfix, "s" by default |
| Fragments.PluralNameExamples | Clutch/FluentClient.cs:184-189 | "Room" gives "Rooms" and "Person" gives "Persons": a fixed suffix with no irregular plurals |
| Fragments.Present | net40/Clutch/FluentClient.cs:178-181 | the values a rendering keeps are exactly the non-null ones, in order; a non-null tail or head value is kept as the last or first |
| Fragments.RenderIsJoinOfPresent | Clutch/FluentClient.cs:152-165 | rendering succeeds iff the tail value is non-null, and then equals the non-null values joined by "/" |
| Fragments.NullTerminalFails | net40/Clutch/FluentClient.cs:173-176 | a chain whose tail value is null cannot be rendered (a bare `new Entity()` included) |
| Fragments.RenderAppend | net40/Clutch/FluentClient.cs:171-200 | appending a value at the tail of a renderable chain adds "/" and that value to its path; appending null makes it unrenderable |
| Fragments.RenderStartsWithFirstPresent | net40/Clutch/FluentClient.cs:178-183 | a rendered path begins with the first non-null value, so a null head adds no separator |
| Fragments.Entity.constructor | net40/Clutch/FluentClient.cs:166-169 | a new node holds the given (possibly null) value and no link |
| Fragments.Entity.Plural | net40/Clutch/FluentClient.cs:208-210 | a plural node holds the type name plus postfix and no link |
| Fragments.Entity.ToString | net40/Clutch/FluentClient.cs:171-184 | the three cases (value alone at the tail, link alone under a null value, "value/link") compute `Render` of the node's value list, failing on a null tail |
| Fragments.Entity.Chain | net40/Clutch/FluentClient.cs:186-200 | walking to the tail and attaching an `Entity` there: the list becomes old list ++ the link's list, the footprint only grows, and the receiver is returned |
| Fragments.Entity.ChainValue | Clutch/FluentClient.cs:167-181 | chaining any other value (null included) wraps it in a new node at the tail: list becomes old ++ [value], receiver returned |
| Responses.BuildResponse | net40/Clutch/FluentClient.cs:80-105 | status is copied; a 2xx status assigns Entity the content as decoded to T and leaves Error unset, any other status assigns Error the content as decoded to TError and leaves Entity unset |
| Responses.BuildResponseNeverBoth | net45/Clutch/FluentResponse.cs:5-10 | no envelope has both Entity and Error set; Entity is set only on 2xx and Error only otherwise; both are unset exactly when the body read for that status decodes to null |
| Responses.UnauthorisedEnvelope | net45/Clutch.Tests/ClutchTests.cs:69-84 | a 401 whose body decodes to an error yields no entity, status 401 and that error |
| Responses.LegacyGetResult | Clutch/FluentClient.cs:74-86 | the older GET yields the decoded body on 2xx and `default(T)` otherwise, never an exception |
| Responses.LegacyPostResult | Clutch/FluentClient.cs:65-72 | the older POST yields true exactly for a status in 200-299 |
| Responses.VariantsAgree | Clutch/FluentClient.cs:65-86 | the older GET result equals the net40 envelope's Entity, and the older POST flag equals whether the status is one for which the net40 envelope sets Entity |
| Client.StepsRender | net40/Clutch/FluentClient.cs:136-148 | for any number of chained calls with ids, the rendered path is every collection name followed by its id, joined by "/" in call order |
| Client.NoLeadingSeparator | net40/Clutch/FluentClient.cs:130-134 | the null root node adds nothing: a request's path starts with its first collection name, never with "/" unless that name does |
| Client.FindThenGetPath | net40/Clutch/FluentClient.cs:10-16 | `Find<A>(a).Get<B>(b)` renders exactly "As/a/Bs/b", with the type names as written (so `Users/1/Rooms/123`, not the lowercase path of the usage comment) |
| Client.CurriedRequest.constructor | net40/Clutch/FluentClient.cs:130-134 | a new request's chain is a single null root |
| Client.CurriedRequest.Find | net40/Clutch/FluentClient.cs:136-141 | appends the plural name then the id to the chain and returns the same request |
| Client.CurriedRequest.Get | net40/Clutch/FluentClient.cs:143-148 | appends the plural name then the id, then either fails to render or sends the rendered path and returns `BuildResponse` of the reply |
| Client.CurriedRequest.Post | net40/Clutch/FluentClient.cs:150-155 | appends only the plural name, then either fails to render or posts the model to the rendered path and returns `BuildResponse` of the reply |
| Client.FluentClient.constructor | net40/Clutch/FluentClient.cs:29-32 | the client keeps the root URL and nothing else |
| Client.FluentClient.Find | net40/Clutch/FluentClient.cs:34-37 | returns a new request whose chain is null root, plural name, id |
| Client.FluentClient.Get | net40/Clutch/FluentClient.cs:39-42 | the path is "names/id" whatever the client did before; a null id fails before sending; the result is the mapped reply |
| Client.FluentClient.Post | net40/Clutch/FluentClient.cs:44-47 | posts to the plural name alone and returns the mapped reply |
| Client.FindThenGet | net45/Clutch.Tests/ClutchTests.cs:22-26 | a client's `Find` followed by `Get` on the returned request sends "As/a/Bs/b" |
| Client.RepeatedGet | net45/Clutch.Tests/ClutchTests.cs:55-67 | two identical `Get`s on one client both send the "names/id" path; each result is the mapping of its own reply |
| Client.NestedGet | net40/Clutch/FluentClient.cs:34-47 | any number of `Find` calls, starting from the client and continuing on the request it returns, followed by `Get`, sends every collection name and id joined by "/" in call order |
| Client.RepeatedGetOnOneRequest | net40/Clutch/FluentClient.cs:143-148 | two `Get`s on one `CurriedRequest` accumulate: the second path is the first plus "/names/id" |
| LegacyClient.CurriedRequest.constructor | Clutch/FluentClient.cs:109-113 | a new request's chain is a single null root |
| LegacyClient.CurriedRequest.Find | Clutch/FluentClient.cs:115-120 | appends the plural name then the id and returns the same request |
| LegacyClient.CurriedRequest.Get | Clutch/FluentClient.cs:122-127 | appends plural name and id, then fails to render or sends the path and returns the decoded body or `default(T)` |
| LegacyClient.CurriedRequest.Post | Clutch/FluentClient.cs:129-134 | appends only the plural name, then fails to render or posts and returns the success flag |
| LegacyClient.FluentClient.constructor | Clutch/FluentClient.cs:34-37 | the client keeps the root URL and nothing else |
| LegacyClient.FluentClient.Find | Clutch/FluentClient.cs:39-42 | returns a new request whose chain is null root, plural name, id |
| LegacyClient.FluentClient.Get | Clutch/FluentClient.cs:44-47 | the path is "names/id"; the answer is the decoded body on 2xx and `default(T)` otherwise; a null id fails before sending |
| LegacyClient.FluentClient.Post | Clutch/FluentClient.cs:49-52 | posts to the plural name alone and answers true exactly for a 2xx status |
| LegacyClient.RepeatedGet | Clutch/FluentClient.cs:39-52 | two identical `Get`s on one older client both send the "names/id" path; each answer comes from its own reply |

## Left out

- Transport: `HttpClientWrapper.BuildClient`/`GetClient` (an `HttpClient` with
  `Accept: application/json`) and the network calls themselves are represented only by the
  `send` parameter.
- Resolving the rendered relative path against the root URL (`BaseAddress`, section 5 of
  RFC 3986) happens inside `System.Uri`. The root URL is kept but never combined with the
  path.
- JSON: serialising the posted model and reading content (HttpContentExtensions.cs,
  HttpClientExtensions.cs) are opaque functions.
- `Task`, `ContinueWith`, `await` and `.Result` are not modelled. The net40 calls throw on a
  null tail value synchronously; the older `async` calls throw when awaited. Both are
  `PathError`.
- Ids are strings, and a non-string id's `ToString()` (for example `1` to "1") is assumed
  done by the caller.
- Fragments.Entity.Chain: requires the linked `Entity` to be disjoint from the receiver's
  chain. The source's callers only pass fresh nodes; chaining a node already in the chain
  would make a cycle in the source.
- Responses.BuildResponse: `None` stands for `default(T)`/`default(TError)` and for a null
  decode. For a value type that default is a zero value, not an absent one, and the model
  does not tell them apart.
- Responses.BuildResponseNeverBoth: does not promise that exactly one of Entity and Error is
  set. A body that decodes to null leaves both null (for example a 404 with an empty body).
- The interface and record declarations (net40/Clutch/IFluentRequest.cs,
  Clutch/IFluentRequest.cs, Clutch/FluentResponse.cs) declare nothing executable.
  Clutch/IFluentRequest.cs also disagrees with the interface inside
  Clutch/FluentClient.cs:23-28. The older client is modelled from its inline interface.
- Transport failures and decode failures are not modelled. In the code they surface as
  exceptions: `.Result` at net40/Clutch/FluentClient.cs:68 and 77 throws when the transport
  fails, and `t.Result` at lines 88 and 100 rethrows a JSON failure from `ReadAsAsync`. The
  older client's awaits at Clutch/FluentClient.cs:68, 77 and 81 throw the same way. The
  model's `send` and readers are total, so `Call` has no outcome for these exceptions.
- Cancellation is not modelled; the code has no cancellation signal.

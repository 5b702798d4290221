# Agent: a verified model of a fluent HTTP request builder

`Agent` (Agent/Agent.swift) is a small Swift class for issuing HTTP requests.
An agent holds an optional base URL, optional default headers and an
optional pending request. Chained calls build that request up in place:
`request(method:path:)` creates it, `set(header:value:)` adds a header field,
`data(data:mime:)` attaches a body with its Content-Type, and `send(data:)`
attaches a JSON-encoded body. Each call returns the same agent. `end`, `raw`
and `json` hand the pending request to URLSession. Each registers a closure
that turns what URLSession reports (data, response, error) into the three
arguments of the caller's `done` callback. Static and instance helpers per
HTTP verb (GET, POST, PUT, DELETE) are fixed chains of these calls.

The model has four modules:

- `Foundation` (foundation.dfy) holds the types and the foreign operations:
  `NSURL(string:)`, `appendingPathComponent`, and JSON encode and decode.
  They are total functions in a `Platform` record, so every result holds
  whatever they do. A `nil` or a thrown error is `None`.
- `Descriptor` (descriptor.dfy) holds the pending request as a value and
  what each builder call does to an agent's state (`Step`). `Run` is a
  chain of builder calls. Lemmas about chains say what survives re-targeting,
  what never changes, and which repeated calls are no-ops. A `None` result
  stands for the force-unwrap or `try!` that stops the program.
- `Completion` (completion.dfy) holds the three completion closures as
  functions, and lemmas relating them to each other.
- `HttpAgent` (agent.dfy) holds the `Agent` class. Its fields are `base`,
  `headers` and `request`. The builder methods have `modifies this` and
  state the agent's whole new state. Each is also tied to `Step`. Dispatch
  methods return the submitted `Task`: a snapshot of the pending request and
  the closure it was registered with. The verb helpers are the same chains of
  calls the source makes.

Every force-unwrap is a precondition:

- of `self.request!`: a pending request;
- of `NSURL(string:)!` and `appendingPathComponent(_:)!`: the URL resolves;
- of `try!` in `send(data:)`: the value encodes;
- of `as! HTTPURLResponse` in `end` and `json`: a response is present when
  there is no error.

Four behaviours of the code worth stating:

- `request(method:path:)` replaces the whole pending request. Header fields
  set earlier and any body are discarded, and only the stored defaults come
  back.
- On a transport error, all three closures pass the data through, drop the
  response and pass the error.
- `end` applies the JSON *encoder* to the body (`data(withJSONObject:)`),
  while `json` applies the decoder. `EndNeverDecodes` states the consequence.
- URL joining is whatever `appendingPathComponent` does. The code does no
  slash normalisation of its own.

## Model

| member | source | states |
|---|---|---|
| `Descriptor.WithHeader` | Agent/Agent.swift:205-208 | Writing a header field maps that name to the value and overwrites any earlier value. The method, URL, body and every other field are unchanged. |
| `Descriptor.WithBody` | Agent/Agent.swift:194-198 | Attaching a body sets Content-Type to the media type and the body to the data. The method, URL and every other field are unchanged. |
| `Descriptor.WithBodyIdempotent` | Agent/Agent.swift:194-198 | Attaching the same body and media type a second time changes nothing. |
| `Descriptor.Step` | Agent/Agent.swift:52-208 | A builder call stops the program exactly when its force-unwrap or `try!` fails: for `request`, when the URL does not resolve; for the others, when no request is pending, or for `send` when the value does not encode. Otherwise the base and defaults are unchanged, a request is pending, and the Content-Type invariant is kept. |
| `Descriptor.RunKeepsConfig` | Agent/Agent.swift:52-208 | No chain of builder calls changes the base URL or the stored default headers. |
| `Descriptor.RunKeepsBodyTyped` | Agent/Agent.swift:60-66 | No chain of builder calls leaves a body without a Content-Type field. |
| `Descriptor.RetargetDiscards` | Agent/Agent.swift:60-66 | After any chain ending in `request(method:path:)`, the pending request has the new verb and the resolved URL, exactly the default headers (or none), and no body. Earlier `set` fields and bodies are gone. |
| `Descriptor.RunNeedsPending` | Agent/Agent.swift:194-208 | With no pending request, a chain whose first call is not `request(method:path:)` stops the program. |
| `Descriptor.SendIsEncodedAttach` | Agent/Agent.swift:200-203 | `send(data:)` is `data(data:mime:)` applied to the encoded value with `application/json`. |
| `Descriptor.AttachTwiceIsOnce` | Agent/Agent.swift:194-198 | Two identical `data(data:mime:)` calls leave the same state as one. |
| `Descriptor.SendTwiceIsOnce` | Agent/Agent.swift:118-124 | Two identical `send(data:)` calls, as the POST and PUT helpers make, leave the same state as one. |
| `Descriptor.LastWriteWins` | Agent/Agent.swift:205-208 | Two writes to the same header name leave the state the second write alone leaves. |
| `Descriptor.DistinctFieldsCommute` | Agent/Agent.swift:205-208 | Writes to two different header names give the same state in either order. |
| `Completion.Deliver` | Agent/Agent.swift:210-259 | A task registered by `end` delivers what `EndReply` gives, one registered by `raw` what `RawReply` gives, and one registered by `json` what `JsonReply` gives. On error no response is delivered. |
| `Completion.FailureIsUniform` | Agent/Agent.swift:211-247 | On a transport error, `end` and `json` deliver the same arguments, and these are `raw`'s arguments with the data bridged to an object. |
| `Completion.JsonIsDecodedRaw` | Agent/Agent.swift:243-255 | On success, `json` delivers `raw`'s response and `raw`'s data decoded. |
| `Completion.EndIsEncodedRaw` | Agent/Agent.swift:217-222 | On success, `end` delivers `raw`'s response, and `raw`'s data passed through the JSON encoder and handed over as a `Data` object (absent when there is no data or the encoding fails). |
| `Completion.EndNeverDecodes` | Agent/Agent.swift:217-222 | `end` only ever delivers a `Data` object. Whenever the body decodes to an object graph, `end` and `json` deliver different arguments. |
| `HttpAgent.Agent.constructor` | Agent/Agent.swift:30-37 | The base is the parsed URL (absent if it does not parse), the defaults are as given, and nothing is pending. |
| `HttpAgent.Agent.ForMethod` | Agent/Agent.swift:39-46 | No base, the defaults as given, and a pending request for the verb at the parsed URL with the defaults and no body. |
| `HttpAgent.Agent.Request` | Agent/Agent.swift:52-68 | Returns the same agent. The URL is the base joined with the path when there is a base, and the parsed path otherwise. The verb is as given, the fields are exactly the defaults (empty without defaults), and there is no body. Base and defaults are unchanged. |
| `HttpAgent.Agent.Set` | Agent/Agent.swift:205-208 | Needs a pending request. Returns the same agent, with that request's field written as in `WithHeader` and nothing else changed. |
| `HttpAgent.Agent.Data` | Agent/Agent.swift:194-198 | Needs a pending request. Returns the same agent, with Content-Type and body set as in `WithBody` and nothing else changed. |
| `HttpAgent.Agent.Send` | Agent/Agent.swift:200-203 | Needs a pending request and an encodable value. Returns the same agent, with Content-Type `application/json` and the body the encoded value. |
| `HttpAgent.Agent.End` | Agent/Agent.swift:210-227 | Needs a pending request. Returns the same agent and submits a snapshot of the pending request with the `end` closure: for every transport result, the task delivers what `EndReply` gives. |
| `HttpAgent.Agent.Raw` | Agent/Agent.swift:229-240 | Needs a pending request. Returns the same agent and submits a snapshot of the pending request with the `raw` closure: for every transport result, the task delivers what `RawReply` gives. |
| `HttpAgent.Agent.Json` | Agent/Agent.swift:242-259 | Needs a pending request. Returns the same agent and submits a snapshot of the pending request with the `json` closure: for every transport result, the task delivers what `JsonReply` gives. |
| `HttpAgent.Agent.NewGet` | Agent/Agent.swift:74-80 | A new agent with no base, the given defaults and a pending GET at the parsed URL. |
| `HttpAgent.Agent.NewGetEnd` | Agent/Agent.swift:82-88 | The agent of `NewGet`, and that request submitted with the `end` closure. |
| `HttpAgent.Agent.Get` | Agent/Agent.swift:90-92 | This agent re-targeted with GET, then the request submitted with the `end` closure. |
| `HttpAgent.Agent.NewPost` | Agent/Agent.swift:98-104 | A new agent with no base, the given defaults and a pending POST at the parsed URL. |
| `HttpAgent.Agent.NewPostEnd` | Agent/Agent.swift:106-108 | A new POST agent without defaults, and its request submitted with the `end` closure. |
| `HttpAgent.Agent.NewPostSend` | Agent/Agent.swift:110-116 | A new POST agent whose request carries the encoded value as a JSON body. |
| `HttpAgent.Agent.NewPostSendEnd` | Agent/Agent.swift:118-124 | The value is sent twice, yet the request is the one `NewPostSend` builds. It is then submitted with the `end` closure. |
| `HttpAgent.Agent.Post` | Agent/Agent.swift:126-128 | This agent's state is the chain re-target-with-POST then send, and that request is submitted with the `end` closure. |
| `HttpAgent.Agent.NewPut` | Agent/Agent.swift:134-140 | A new agent with no base, the given defaults and a pending PUT at the parsed URL. |
| `HttpAgent.Agent.NewPutEnd` | Agent/Agent.swift:142-144 | A new PUT agent without defaults, and its request submitted with the `end` closure. |
| `HttpAgent.Agent.NewPutSend` | Agent/Agent.swift:146-152 | A new PUT agent whose request carries the encoded value as a JSON body. |
| `HttpAgent.Agent.NewPutSendEnd` | Agent/Agent.swift:154-160 | The value is sent twice, yet the request is the one `NewPutSend` builds. It is then submitted with the `end` closure. |
| `HttpAgent.Agent.Put` | Agent/Agent.swift:162-164 | This agent's state is the chain re-target-with-PUT then send, and that request is submitted with the `end` closure. |
| `HttpAgent.Agent.NewDelete` | Agent/Agent.swift:170-176 | A new agent with no base, the given defaults and a pending DELETE at the parsed URL. |
| `HttpAgent.Agent.NewDeleteEnd` | Agent/Agent.swift:178-184 | The agent of `NewDelete`, and that request submitted with the `end` closure. |
| `HttpAgent.Agent.Delete` | Agent/Agent.swift:186-188 | This agent re-targeted with DELETE, then the request submitted with the `end` closure. |

## Left out

- URLSession dispatch (`dataTask(with:completionHandler:)` and `resume()`, Agent/Agent.swift:224-225, 237-238, 256-257) is network I/O with asynchronous completion. A dispatch method returns the submitted `Task` instead. `Deliver` gives the arguments its closure hands to `done` for a given transport result. The `done` callback itself is not called.
- The unused `OperationQueue` field (Agent/Agent.swift:24) is not modelled.
- Thread delivery of callbacks and concurrent use of one agent are not modelled.
- `NSURL(string:)` and `appendingPathComponent(_:)` are Foundation behaviour. They are the `parseUrl` and `appendPath` parameters. No slash-joining rule is assumed.
- JSON encoding and decoding by `JSONSerialization` is a foreign codec. It is the `encode` and `decode` parameters, and a throw is `None`.
- `EndReply`: a failed encoding gives an absent payload, as `try?` is written. Foundation actually raises an Objective-C exception for a non-JSON top-level object such as `Data`, and `try?` does not catch it. That crash is not modelled, because the codec is abstract.
- Header names are exact-match map keys. Foundation's case-insensitive matching in `setValue(_:forHTTPHeaderField:)` is not modelled.
- Every response is treated as an HTTP response; the model has no non-HTTP `URLResponse`. `raw` therefore passes the response unchanged, where the source's `as? HTTPURLResponse` passes nil for a non-HTTP response. `end` and `json` require only that a response is present on success, where the source's `as! HTTPURLResponse` also stops the program on a non-HTTP response.
- The pending `NSMutableURLRequest` is a value that the agent's `request` field holds and reassigns. It never escapes the agent, and dispatch copies it, so its object identity is not modelled.
- The convenience initialisers `init(url:)` and `init(method:url:)`, and the verb helpers without `headers`, are the members above called with no headers (`None`).

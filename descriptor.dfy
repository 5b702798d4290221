/**
 * The request descriptor an Agent builds up, and the meaning of a chain of
 * builder calls on it. An agent's state is its base URL, its stored default
 * headers and the pending request; `Step` is one builder call, `Run` a chain
 * of them, and None stands for the force-unwrap (or `try!`) that stops the
 * program.
 */
module Descriptor {
  import opened Foundation

  /** The pending `NSMutableURLRequest`: HTTP method (verb), URL, header fields, body. */
  datatype UrlRequest = UrlRequest(verb: string, url: Url, fields: Headers, body: Option<Bytes>)

  /** What an agent holds: `base`, `headers` (the defaults) and `request`. */
  datatype Builder = Builder(base: Option<Url>, defaults: Option<Headers>, pending: Option<UrlRequest>)

  /** One call of the builder API. */
  datatype Call =
    | Retarget(verb: string, path: string)      // request(method:path:)
    | SetField(name: string, value: string)       // set(header:value:)
    | Attach(data: Option<Bytes>, mime: string)   // data(data:mime:)
    | SendJson(obj: AnyObject)                    // send(data:)

  /** The URL `request(method:path:)` targets; None where its force-unwrap stops the program. */
  function Target(env: Platform, base: Option<Url>, path: string): Option<Url>
  {
    if base.Some? then env.appendPath(base.value, path) else env.parseUrl(path)
  }

  /** The request `request(method:path:)` creates: no body, only the default headers. */
  function Opened(verb: string, url: Url, defaults: Option<Headers>): UrlRequest
  {
    UrlRequest(verb, url, if defaults.Some? then defaults.value else map[], None)
  }

  /** `setValue(_:forHTTPHeaderField:)`: one field written, everything else kept. */
  function WithHeader(r: UrlRequest, name: string, value: string): (r': UrlRequest)
    ensures r'.verb == r.verb && r'.url == r.url && r'.body == r.body
    ensures r'.fields.Keys == r.fields.Keys + {name}
    ensures name in r'.fields && r'.fields[name] == value
    ensures forall h | h in r.fields && h != name :: r'.fields[h] == r.fields[h]
  {
    r.(fields := r.fields[name := value])
  }

  /** `data(data:mime:)`: Content-Type set to `mime`, body set to `data`, nothing else changed. */
  function WithBody(r: UrlRequest, data: Option<Bytes>, mime: string): (r': UrlRequest)
    ensures r'.verb == r.verb && r'.url == r.url && r'.body == data
    ensures r'.fields.Keys == r.fields.Keys + {ContentType}
    ensures ContentType in r'.fields && r'.fields[ContentType] == mime
    ensures forall h | h in r.fields && h != ContentType :: r'.fields[h] == r.fields[h]
  {
    WithHeader(r, ContentType, mime).(body := data)
  }

  /** Setting the same body and media type again changes nothing. */
  lemma WithBodyIdempotent(r: UrlRequest, data: Option<Bytes>, mime: string)
    ensures WithBody(WithBody(r, data, mime), data, mime) == WithBody(r, data, mime)
  {
  }

  /** The invariant the builder keeps: a body never exists without a Content-Type field. */
  predicate BodyTyped(b: Builder)
  {
    b.pending.Some? && b.pending.value.body.Some? ==> ContentType in b.pending.value.fields
  }

  /** One builder call; None where the source stops on a force-unwrap or a failed `try!`. */
  function Step(env: Platform, b: Builder, c: Call): (r: Option<Builder>)
    ensures r.None? <==>
      if c.Retarget? then Target(env, b.base, c.path).None?
      else b.pending.None? || (c.SendJson? && env.encode(c.obj).None?)
    ensures r.Some? ==> r.value.base == b.base && r.value.defaults == b.defaults && r.value.pending.Some?
    ensures r.Some? && BodyTyped(b) ==> BodyTyped(r.value)
  {
    match c
    case Retarget(verb, path) =>
      var u := Target(env, b.base, path);
      if u.None? then None else Some(b.(pending := Some(Opened(verb, u.value, b.defaults))))
    case SetField(name, value) =>
      if b.pending.None? then None else Some(b.(pending := Some(WithHeader(b.pending.value, name, value))))
    case Attach(data, mime) =>
      if b.pending.None? then None else Some(b.(pending := Some(WithBody(b.pending.value, data, mime))))
    case SendJson(obj) =>
      var json := env.encode(obj);
      if b.pending.None? || json.None? then None
      else Some(b.(pending := Some(WithBody(b.pending.value, json, JsonMime))))
  }

  /** A chain of builder calls, left to right; None once any call stops the program. */
  function Run(env: Platform, b: Builder, calls: seq<Call>): Option<Builder>
    decreases |calls|
  {
    if calls == [] then Some(b)
    else
      match Step(env, b, calls[0])
      case None => None
      case Some(b') => Run(env, b', calls[1..])
  }

  /** No chain of builder calls changes the base URL or the stored default headers. */
  lemma {:induction false} RunKeepsConfig(env: Platform, b: Builder, calls: seq<Call>)
    requires Run(env, b, calls).Some?
    ensures Run(env, b, calls).value.base == b.base
    ensures Run(env, b, calls).value.defaults == b.defaults
    decreases |calls|
  {
    if calls != [] {
      RunKeepsConfig(env, Step(env, b, calls[0]).value, calls[1..]);
    }
  }

  /** No chain of builder calls produces a body without a Content-Type field. */
  lemma {:induction false} RunKeepsBodyTyped(env: Platform, b: Builder, calls: seq<Call>)
    requires BodyTyped(b) && Run(env, b, calls).Some?
    ensures BodyTyped(Run(env, b, calls).value)
    decreases |calls|
  {
    if calls != [] {
      RunKeepsBodyTyped(env, Step(env, b, calls[0]).value, calls[1..]);
    }
  }

  /** Running `calls` and then `c` is one more step after the chain. */
  lemma {:induction false} RunSnoc(env: Platform, b: Builder, calls: seq<Call>, c: Call)
    ensures Run(env, b, calls + [c]) ==
      if Run(env, b, calls).None? then None else Step(env, Run(env, b, calls).value, c)
    decreases |calls|
  {
    if calls == [] {
      assert [c][1..] == [];
    } else {
      assert (calls + [c])[0] == calls[0];
      assert (calls + [c])[1..] == calls[1..] + [c];
      if Step(env, b, calls[0]).Some? {
        RunSnoc(env, Step(env, b, calls[0]).value, calls[1..], c);
      }
    }
  }

  /**
   * Re-targeting discards everything earlier calls did to the request: after
   * any chain ending in `request(method:path:)`, the pending request has the
   * new method and URL, exactly the stored default headers and no body.
   */
  lemma RetargetDiscards(env: Platform, b: Builder, calls: seq<Call>, verb: string, path: string)
    requires Run(env, b, calls + [Retarget(verb, path)]).Some?
    ensures Target(env, b.base, path).Some?
    ensures Run(env, b, calls + [Retarget(verb, path)]).value.pending ==
      Some(UrlRequest(verb, Target(env, b.base, path).value,
        if b.defaults.Some? then b.defaults.value else map[], None))
  {
    RunSnoc(env, b, calls, Retarget(verb, path));
    RunKeepsConfig(env, b, calls);
  }

  /** Every call other than `request(method:path:)` stops the program when no request is pending. */
  lemma RunNeedsPending(env: Platform, b: Builder, calls: seq<Call>)
    requires b.pending.None? && calls != [] && !calls[0].Retarget?
    ensures Run(env, b, calls).None?
  {
  }

  /** `send(data:)` is `data(data:mime:)` on the encoded value with the JSON media type. */
  lemma SendIsEncodedAttach(env: Platform, b: Builder, obj: AnyObject)
    requires env.encode(obj).Some?
    ensures Step(env, b, SendJson(obj)) == Step(env, b, Attach(env.encode(obj), JsonMime))
  {
  }

  /** Applying `data(data:mime:)` twice with the same arguments is applying it once. */
  lemma AttachTwiceIsOnce(env: Platform, b: Builder, data: Option<Bytes>, mime: string)
    ensures Run(env, b, [Attach(data, mime), Attach(data, mime)]) == Run(env, b, [Attach(data, mime)])
  {
    if b.pending.Some? {
      WithBodyIdempotent(b.pending.value, data, mime);
    }
  }

  /** Calling `send(data:)` twice with the same value, as the POST and PUT helpers do, is calling it once. */
  lemma SendTwiceIsOnce(env: Platform, b: Builder, obj: AnyObject)
    ensures Run(env, b, [SendJson(obj), SendJson(obj)]) == Run(env, b, [SendJson(obj)])
  {
    if b.pending.Some? && env.encode(obj).Some? {
      WithBodyIdempotent(b.pending.value, env.encode(obj), JsonMime);
    }
  }

  /** Header fields: the last write to a name wins. */
  lemma LastWriteWins(env: Platform, b: Builder, name: string, v1: string, v2: string)
    ensures Run(env, b, [SetField(name, v1), SetField(name, v2)]) == Run(env, b, [SetField(name, v2)])
  {
    if b.pending.Some? {
      var r := b.pending.value;
      assert WithHeader(WithHeader(r, name, v1), name, v2) == WithHeader(r, name, v2);
    }
  }

  /** Header fields: writes to different names may be made in either order. */
  lemma DistinctFieldsCommute(env: Platform, b: Builder, n1: string, v1: string, n2: string, v2: string)
    requires n1 != n2
    ensures Run(env, b, [SetField(n1, v1), SetField(n2, v2)]) == Run(env, b, [SetField(n2, v2), SetField(n1, v1)])
  {
    if b.pending.Some? {
      var r := b.pending.value;
      assert WithHeader(WithHeader(r, n1, v1), n2, v2) == WithHeader(WithHeader(r, n2, v2), n1, v1);
    }
  }
}

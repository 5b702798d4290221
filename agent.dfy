/**
 * The `Agent` class: a mutable request builder. Every builder call updates
 * the agent in place and returns the same agent; every dispatch submits a
 * snapshot of the pending request and returns the same agent. The verb
 * helpers are fixed compositions of these calls.
 */
module HttpAgent {
  import opened Foundation
  import opened Descriptor
  import opened Completion

  class Agent {
    /** The Foundation behaviour this agent runs against (URL parsing and joining, the JSON codec). */
    const platform: Platform
    var base: Option<Url>
    var headers: Option<Headers>
    var request: Option<UrlRequest>

    /** The agent's state as a value. */
    function View(): Builder
      reads this
    {
      Builder(base, headers, request)
    }

    /** `init(url:headers:)`, and `init(url:)` with no headers: a base URL and defaults, nothing pending. */
    constructor (env: Platform, url: string, headers: Option<Headers>)
      ensures platform == env
      ensures base == env.parseUrl(url) && this.headers == headers && request == None
      ensures BodyTyped(View())
    {
      platform := env;
      base := env.parseUrl(url);
      this.headers := headers;
      request := None;
    }

    /**
     * `init(method:url:headers:)`, and `init(method:url:)` with no headers:
     * no base, so `url` must parse on its own.
     */
    constructor ForMethod(env: Platform, verb: string, url: string, headers: Option<Headers>)
      requires env.parseUrl(url).Some?
      ensures platform == env
      ensures base == None && this.headers == headers
      ensures request == Some(Opened(verb, env.parseUrl(url).value, headers))
      ensures BodyTyped(View())
    {
      platform := env;
      base := None;
      this.headers := headers;
      request := None;
      new;
      var _ := Request(verb, url);
    }

    /**
     * `request(method:path:)`: replaces the pending request with a new one
     * for `verb` at `path` (joined to the base when there is one), carrying
     * exactly the default headers and no body.
     */
    method Request(verb: string, path: string) returns (a: Agent)
      requires Target(platform, base, path).Some?
      modifies this
      ensures a == this
      ensures base == old(base) && headers == old(headers)
      ensures request.Some?
      ensures base.Some? ==> Some(request.value.url) == platform.appendPath(base.value, path)
      ensures base.None? ==> Some(request.value.url) == platform.parseUrl(path)
      ensures request.value.verb == verb && request.value.body == None
      ensures request.value.fields == if headers.Some? then headers.value else map[]
      ensures Some(View()) == Step(platform, old(View()), Retarget(verb, path))
    {
      var u: Url;
      if base.Some? {
        u := platform.appendPath(base.value, path).value;
      } else {
        u := platform.parseUrl(path).value;
      }
      request := Some(UrlRequest(verb, u, map[], None));
      if headers.Some? {
        request := Some(request.value.(fields := headers.value));
      }
      a := this;
    }

    /** `set(header:value:)`: one header field written on the pending request. */
    method Set(header: string, value: string) returns (a: Agent)
      requires request.Some?
      modifies this
      ensures a == this
      ensures base == old(base) && headers == old(headers)
      ensures request == Some(WithHeader(old(request).value, header, value))
      ensures Some(View()) == Step(platform, old(View()), SetField(header, value))
    {
      request := Some(request.value.(fields := request.value.fields[header := value]));
      a := this;
    }

    /** `data(data:mime:)`: Content-Type and body set on the pending request. */
    method Data(data: Option<Bytes>, mime: string) returns (a: Agent)
      requires request.Some?
      modifies this
      ensures a == this
      ensures base == old(base) && headers == old(headers)
      ensures request == Some(WithBody(old(request).value, data, mime))
      ensures BodyTyped(View())
      ensures Some(View()) == Step(platform, old(View()), Attach(data, mime))
    {
      var _ := Set(ContentType, mime);
      request := Some(request.value.(body := data));
      a := this;
    }

    /** `send(data:)`: the JSON encoding of `obj` as the body, typed `application/json`. */
    method Send(obj: AnyObject) returns (a: Agent)
      requires request.Some? && platform.encode(obj).Some?
      modifies this
      ensures a == this
      ensures base == old(base) && headers == old(headers)
      ensures request == Some(WithBody(old(request).value, platform.encode(obj), JsonMime))
      ensures request.value.fields[ContentType] == JsonMime
      ensures request.value.body == platform.encode(obj)
      ensures Some(View()) == Step(platform, old(View()), SendJson(obj))
    {
      var json := platform.encode(obj).value;
      a := Data(Some(json), JsonMime);
    }

    /** `end(done:)`: submits the pending request with the `end` closure. */
    method End() returns (a: Agent, task: Task)
      requires request.Some?
      ensures a == this
      ensures task.request == request.value && task.mode == EndMode
      ensures forall data: Option<Bytes>, response: Option<Response>, error: Option<Error>
        | error.None? ==> response.Some? ::
        Deliver(platform, task, data, response, error) == Objects(EndReply(platform, data, response, error))
    {
      task := Task(request.value, EndMode);
      a := this;
    }

    /** `raw(done:)`: submits the pending request with the `raw` closure. */
    method Raw() returns (a: Agent, task: Task)
      requires request.Some?
      ensures a == this
      ensures task.request == request.value && task.mode == RawMode
      ensures forall data: Option<Bytes>, response: Option<Response>, error: Option<Error> ::
        Deliver(platform, task, data, response, error) == Delivery.Raw(RawReply(data, response, error))
    {
      task := Task(request.value, RawMode);
      a := this;
    }

    /** `json(done:)`: submits the pending request with the `json` closure. */
    method Json() returns (a: Agent, task: Task)
      requires request.Some?
      ensures a == this
      ensures task.request == request.value && task.mode == JsonMode
      ensures forall data: Option<Bytes>, response: Option<Response>, error: Option<Error>
        | error.None? ==> response.Some? ::
        Deliver(platform, task, data, response, error) == Objects(JsonReply(platform, data, response, error))
    {
      task := Task(request.value, JsonMode);
      a := this;
    }

    // GET

    /** `Agent.get(url:)` and `Agent.get(url:headers:)`. */
    static method NewGet(env: Platform, url: string, headers: Option<Headers>) returns (a: Agent)
      requires env.parseUrl(url).Some?
      ensures fresh(a) && a.platform == env
      ensures a.View() == Builder(None, headers, Some(Opened("GET", env.parseUrl(url).value, headers)))
    {
      a := new Agent.ForMethod(env, "GET", url, headers);
    }

    /** `Agent.get(url:done:)` and `Agent.get(url:headers:done:)`. */
    static method NewGetEnd(env: Platform, url: string, headers: Option<Headers>) returns (a: Agent, task: Task)
      requires env.parseUrl(url).Some?
      ensures fresh(a) && a.platform == env
      ensures a.View() == Builder(None, headers, Some(Opened("GET", env.parseUrl(url).value, headers)))
      ensures task == Task(a.request.value, EndMode)
    {
      a := NewGet(env, url, headers);
      a, task := a.End();
    }

    /** Instance `get(url:done:)`: re-targets this agent with GET, then `end`. */
    method Get(url: string) returns (a: Agent, task: Task)
      requires Target(platform, base, url).Some?
      modifies this
      ensures a == this
      ensures Some(View()) == Step(platform, old(View()), Retarget("GET", url))
      ensures task == Task(request.value, EndMode)
    {
      a := Request("GET", url);
      a, task := a.End();
    }

    // POST

    /** `Agent.post(url:)` and `Agent.post(url:headers:)`. */
    static method NewPost(env: Platform, url: string, headers: Option<Headers>) returns (a: Agent)
      requires env.parseUrl(url).Some?
      ensures fresh(a) && a.platform == env
      ensures a.View() == Builder(None, headers, Some(Opened("POST", env.parseUrl(url).value, headers)))
    {
      a := new Agent.ForMethod(env, "POST", url, headers);
    }

    /** `Agent.post(url:done:)`. */
    static method NewPostEnd(env: Platform, url: string) returns (a: Agent, task: Task)
      requires env.parseUrl(url).Some?
      ensures fresh(a) && a.platform == env
      ensures a.View() == Builder(None, None, Some(Opened("POST", env.parseUrl(url).value, None)))
      ensures task == Task(a.request.value, EndMode)
    {
      a := NewPost(env, url, None);
      a, task := a.End();
    }

    /** `Agent.post(url:data:)` and `Agent.post(url:headers:data:)`. */
    static method NewPostSend(env: Platform, url: string, headers: Option<Headers>, data: AnyObject) returns (a: Agent)
      requires env.parseUrl(url).Some? && env.encode(data).Some?
      ensures fresh(a) && a.platform == env
      ensures a.View() == Builder(None, headers,
        Some(WithBody(Opened("POST", env.parseUrl(url).value, headers), env.encode(data), JsonMime)))
    {
      a := NewPost(env, url, headers);
      a := a.Send(data);
    }

    /**
     * `Agent.post(url:data:done:)` and `Agent.post(url:headers:data:done:)`:
     * these send the body twice; the request is the same as sending it once.
     */
    static method NewPostSendEnd(env: Platform, url: string, headers: Option<Headers>, data: AnyObject)
      returns (a: Agent, task: Task)
      requires env.parseUrl(url).Some? && env.encode(data).Some?
      ensures fresh(a) && a.platform == env
      ensures a.View() == Builder(None, headers,
        Some(WithBody(Opened("POST", env.parseUrl(url).value, headers), env.encode(data), JsonMime)))
      ensures task == Task(a.request.value, EndMode)
    {
      a := NewPostSend(env, url, headers, data);
      a := a.Send(data);
      WithBodyIdempotent(Opened("POST", env.parseUrl(url).value, headers), env.encode(data), JsonMime);
      a, task := a.End();
    }

    /** Instance `POST(url:data:done:)`: re-targets this agent with POST, sends `data`, then `end`. */
    method Post(url: string, data: AnyObject) returns (a: Agent, task: Task)
      requires Target(platform, base, url).Some? && platform.encode(data).Some?
      modifies this
      ensures a == this
      ensures request.Some?
      ensures Some(View()) == Run(platform, old(View()), [Retarget("POST", url), SendJson(data)])
      ensures task == Task(request.value, EndMode)
    {
      a := Request("POST", url);
      ghost var retargeted := View();
      a := a.Send(data);
      assert [Retarget("POST", url), SendJson(data)][1..] == [SendJson(data)];
      assert Run(platform, retargeted, [SendJson(data)]) == Some(View());
      a, task := a.End();
    }

    // PUT

    /** `Agent.put(url:)` and `Agent.put(url:headers:)`. */
    static method NewPut(env: Platform, url: string, headers: Option<Headers>) returns (a: Agent)
      requires env.parseUrl(url).Some?
      ensures fresh(a) && a.platform == env
      ensures a.View() == Builder(None, headers, Some(Opened("PUT", env.parseUrl(url).value, headers)))
    {
      a := new Agent.ForMethod(env, "PUT", url, headers);
    }

    /** `Agent.put(url:done:)`. */
    static method NewPutEnd(env: Platform, url: string) returns (a: Agent, task: Task)
      requires env.parseUrl(url).Some?
      ensures fresh(a) && a.platform == env
      ensures a.View() == Builder(None, None, Some(Opened("PUT", env.parseUrl(url).value, None)))
      ensures task == Task(a.request.value, EndMode)
    {
      a := NewPut(env, url, None);
      a, task := a.End();
    }

    /** `Agent.put(url:data:)` and `Agent.put(url:headers:data:)`. */
    static method NewPutSend(env: Platform, url: string, headers: Option<Headers>, data: AnyObject) returns (a: Agent)
      requires env.parseUrl(url).Some? && env.encode(data).Some?
      ensures fresh(a) && a.platform == env
      ensures a.View() == Builder(None, headers,
        Some(WithBody(Opened("PUT", env.parseUrl(url).value, headers), env.encode(data), JsonMime)))
    {
      a := NewPut(env, url, headers);
      a := a.Send(data);
    }

    /**
     * `Agent.put(url:data:done:)` and `Agent.put(url:headers:data:done:)`:
     * these send the body twice; the request is the same as sending it once.
     */
    static method NewPutSendEnd(env: Platform, url: string, headers: Option<Headers>, data: AnyObject)
      returns (a: Agent, task: Task)
      requires env.parseUrl(url).Some? && env.encode(data).Some?
      ensures fresh(a) && a.platform == env
      ensures a.View() == Builder(None, headers,
        Some(WithBody(Opened("PUT", env.parseUrl(url).value, headers), env.encode(data), JsonMime)))
      ensures task == Task(a.request.value, EndMode)
    {
      a := NewPutSend(env, url, headers, data);
      a := a.Send(data);
      WithBodyIdempotent(Opened("PUT", env.parseUrl(url).value, headers), env.encode(data), JsonMime);
      a, task := a.End();
    }

    /** Instance `PUT(url:data:done:)`: re-targets this agent with PUT, sends `data`, then `end`. */
    method Put(url: string, data: AnyObject) returns (a: Agent, task: Task)
      requires Target(platform, base, url).Some? && platform.encode(data).Some?
      modifies this
      ensures a == this
      ensures request.Some?
      ensures Some(View()) == Run(platform, old(View()), [Retarget("PUT", url), SendJson(data)])
      ensures task == Task(request.value, EndMode)
    {
      a := Request("PUT", url);
      ghost var retargeted := View();
      a := a.Send(data);
      assert [Retarget("PUT", url), SendJson(data)][1..] == [SendJson(data)];
      assert Run(platform, retargeted, [SendJson(data)]) == Some(View());
      a, task := a.End();
    }

    // DELETE

    /** `Agent.delete(url:)` and `Agent.delete(url:headers:)`. */
    static method NewDelete(env: Platform, url: string, headers: Option<Headers>) returns (a: Agent)
      requires env.parseUrl(url).Some?
      ensures fresh(a) && a.platform == env
      ensures a.View() == Builder(None, headers, Some(Opened("DELETE", env.parseUrl(url).value, headers)))
    {
      a := new Agent.ForMethod(env, "DELETE", url, headers);
    }

    /** `Agent.delete(url:done:)` and `Agent.delete(url:headers:done:)`. */
    static method NewDeleteEnd(env: Platform, url: string, headers: Option<Headers>) returns (a: Agent, task: Task)
      requires env.parseUrl(url).Some?
      ensures fresh(a) && a.platform == env
      ensures a.View() == Builder(None, headers, Some(Opened("DELETE", env.parseUrl(url).value, headers)))
      ensures task == Task(a.request.value, EndMode)
    {
      a := NewDelete(env, url, headers);
      a, task := a.End();
    }

    /** Instance `delete(url:done:)`: re-targets this agent with DELETE, then `end`. */
    method Delete(url: string) returns (a: Agent, task: Task)
      requires Target(platform, base, url).Some?
      modifies this
      ensures a == this
      ensures Some(View()) == Step(platform, old(View()), Retarget("DELETE", url))
      ensures task == Task(request.value, EndMode)
    {
      a := Request("DELETE", url);
      a, task := a.End();
    }
  }
}

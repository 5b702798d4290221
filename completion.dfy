/**
 * The completion closures registered by `end`, `raw` and `json`: each turns
 * what URLSession reports (data, response, error) into the three arguments
 * handed to the caller's `done`. A `Task` is the request descriptor handed to
 * URLSession together with the closure chosen for it.
 */
module Completion {
  import opened Foundation
  import opened Descriptor

  /** The arguments `done` receives: a payload, the response, the error. */
  datatype Reply<T> = Reply(value: Option<T>, response: Option<Response>, error: Option<Error>)

  /** Which completion closure a dispatch registered. */
  datatype Mode = EndMode | RawMode | JsonMode

  /** A submitted data task: the descriptor as it was at submission, and its closure. */
  datatype Task = Task(request: UrlRequest, mode: Mode)

  /** What a `done` callback receives, for either callback signature. */
  datatype Delivery = Objects(objects: Reply<AnyObject>) | Raw(raw: Reply<Bytes>)

  /** `Data?` passed where `AnyObject?` is expected. */
  function Bridge(data: Option<Bytes>): Option<AnyObject>
  {
    if data.None? then None else Some(DataObject(data.value))
  }

  /**
   * The closure of `end`. On success the force-cast of the response must
   * succeed, and the payload is the JSON *encoding* of the body bridged back
   * to an object.
   */
  function EndReply(env: Platform, data: Option<Bytes>, response: Option<Response>, error: Option<Error>)
    : Reply<AnyObject>
    requires error.None? ==> response.Some?
  {
    if error.Some? then Reply(Bridge(data), None, error)
    else
      var json := if data.Some? then env.encode(DataObject(data.value)) else None;
      Reply(Bridge(json), response, None)
  }

  /** The closure of `raw`: the body always passes through untouched. */
  function RawReply(data: Option<Bytes>, response: Option<Response>, error: Option<Error>): Reply<Bytes>
  {
    if error.Some? then Reply(data, None, error)
    else Reply(data, response, error)
  }

  /**
   * The closure of `json`. On success the force-cast of the response must
   * succeed, and the payload is the decoded body, or absent when there is no
   * body or decoding fails.
   */
  function JsonReply(env: Platform, data: Option<Bytes>, response: Option<Response>, error: Option<Error>)
    : Reply<AnyObject>
    requires error.None? ==> response.Some?
  {
    if error.Some? then Reply(Bridge(data), None, error)
    else
      var json := if data.Some? then env.decode(data.value) else None;
      Reply(json, response, None)
  }

  /** What the closure registered for `task` hands to `done` for one transport result. */
  function Deliver(env: Platform, task: Task, data: Option<Bytes>, response: Option<Response>, error: Option<Error>)
    : (d: Delivery)
    requires task.mode != RawMode && error.None? ==> response.Some?
    ensures task.mode == EndMode ==> d == Objects(EndReply(env, data, response, error))
    ensures task.mode == RawMode ==> d == Raw(RawReply(data, response, error))
    ensures task.mode == JsonMode ==> d == Objects(JsonReply(env, data, response, error))
    ensures error.Some? ==> (d.Raw? ==> d.raw.response == None) && (d.Objects? ==> d.objects.response == None)
  {
    match task.mode
    case EndMode => Objects(EndReply(env, data, response, error))
    case RawMode => Raw(RawReply(data, response, error))
    case JsonMode => Objects(JsonReply(env, data, response, error))
  }

  /**
   * A transport failure reaches every closure the same way: the body passed
   * through, no response, the error.
   */
  lemma FailureIsUniform(env: Platform, data: Option<Bytes>, response: Option<Response>, error: Option<Error>)
    requires error.Some?
    ensures EndReply(env, data, response, error) == JsonReply(env, data, response, error)
    ensures EndReply(env, data, response, error) == Reply(Bridge(RawReply(data, response, error).value), None, error)
    ensures RawReply(data, response, error) == Reply(data, None, error)
  {
  }

  /** On success, `json` hands over what `raw` hands over with the body decoded. */
  lemma JsonIsDecodedRaw(env: Platform, data: Option<Bytes>, response: Option<Response>)
    requires response.Some?
    ensures JsonReply(env, data, response, None).response == RawReply(data, response, None).response
    ensures JsonReply(env, data, response, None).value ==
      (var raw := RawReply(data, response, None).value; if raw.None? then None else env.decode(raw.value))
  {
  }

  /**
   * On success, `end` hands over what `raw` hands over with the body passed
   * through the JSON *encoder* and bridged back to a `Data` object.
   */
  lemma EndIsEncodedRaw(env: Platform, data: Option<Bytes>, response: Option<Response>)
    requires response.Some?
    ensures EndReply(env, data, response, None).response == RawReply(data, response, None).response
    ensures EndReply(env, data, response, None).value ==
      (var raw := RawReply(data, response, None).value;
       if raw.None? then None else Bridge(env.encode(DataObject(raw.value))))
  {
  }

  /**
   * `end` never hands over a decoded object graph: whatever it passes is a
   * `Data` value. So wherever the body decodes to an object graph, `end` and
   * `json` disagree.
   */
  lemma EndNeverDecodes(env: Platform, data: Option<Bytes>, response: Option<Response>, error: Option<Error>)
    requires error.None? ==> response.Some?
    ensures EndReply(env, data, response, error).value.Some? ==> EndReply(env, data, response, error).value.value.DataObject?
    ensures error.None? && data.Some? && env.decode(data.value).Some? && env.decode(data.value).value.Graph? ==>
      EndReply(env, data, response, error) != JsonReply(env, data, response, error)
  {
  }
}

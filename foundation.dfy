/**
 * The parts of Apple's Foundation framework that Agent relies on but that
 * this model does not define: URL parsing and joining, the JSON codec, and
 * the opaque values URLSession hands back. Each behaviour is a total
 * function held in a `Platform` record, so every statement proved about
 * an agent holds for whatever those functions do.
 */
module Foundation {

  datatype Option<+T> = None | Some(value: T)

  type byte = bv8

  /** The contents of a `Data` / `NSData` value. */
  type Bytes = seq<byte>

  /** Header fields: names are exact-match keys (see README, "Left out"). */
  type Headers = map<string, string>

  /** A parsed `NSURL`. */
  type Url(==)

  /** A `URLResponse` delivered by the transport, treated as opaque. */
  type Response(==)

  /** An `NSError` delivered by the transport. */
  type Error(==)

  /** A Foundation object graph other than `Data` (dictionary, array, string, number, null). */
  type ObjectGraph(==)

  /**
   * Swift's `AnyObject` as far as it flows through Agent: either a `Data`
   * value bridged to an object, or any other object graph.
   */
  datatype AnyObject = DataObject(bytes: Bytes) | Graph(graph: ObjectGraph)

  /**
   * The foreign operations, each returning None where Foundation returns nil
   * or throws.
   *   parseUrl    `NSURL(string:)`
   *   appendPath  `NSURL.appendingPathComponent(_:)`
   *   encode      `JSONSerialization.data(withJSONObject:)`
   *   decode      `JSONSerialization.jsonObject(with:)`
   */
  datatype Platform = Platform(
    parseUrl: string -> Option<Url>,
    appendPath: (Url, string) -> Option<Url>,
    encode: AnyObject -> Option<Bytes>,
    decode: Bytes -> Option<AnyObject>)

  const ContentType: string := "Content-Type"
  const JsonMime: string := "application/json"
}

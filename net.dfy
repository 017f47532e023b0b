/** What an HTTP GET through `reqwest` can come back with, as both
    downloaders see it. The network itself is not modelled: a response is a
    value handed to the operations. */
module Net {
  import opened Strings

  type Bytes = seq<bv8>

  /** `StatusCode::is_success`: the 2xx range. */
  predicate IsSuccess(status: int) {
    200 <= status < 300
  }

  /** `send()` failed, or a status line arrived together with a body (bytes
      or decoded text) that may or may not arrive in full. */
  datatype Response<B> = SendFailed | Received(status: int, body: Option<B>)

  /** The request produced a success status and a complete body. */
  predicate Delivered<B>(r: Response<B>) {
    r.Received? && IsSuccess(r.status) && r.body.Some?
  }

  /** The files on disk: contents by path. */
  type Files = map<string, Bytes>

  /** What one image download meets: the network's response, and whether
      `File::create` and `write_all` succeed on the disk. */
  datatype Attempt = Attempt(response: Response<Bytes>, createOk: bool, writeOk: bool)
}

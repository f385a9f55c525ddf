/** Values shared by every part of the model: optional values, JavaScript
    truthiness of an optional string, HTTP responses and database faults. */
module Common {

  datatype Option<+T> = None | Some(value: T)

  /** JavaScript truthiness of a value that is either a string or absent
      (`null`/`undefined`): absent and the empty string are falsy. */
  predicate Truthy(s: Option<string>) {
    s.Some? && s.value != ""
  }

  /** What a route handler sends back: a 200 JSON body carrying `value`, or a
      non-success status with its message. */
  datatype Response<+T> = Ok(value: T) | Fail(status: int, message: string)

  /** How the document store behaves during one request.
      `Unreachable`: connecting or the first query throws;
      `WriteRejected`: reads succeed but the write of this request throws. */
  datatype DbFault = Healthy | Unreachable | WriteRejected
}

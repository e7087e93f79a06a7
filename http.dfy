/** What the modelled code reads from express requests and responses. */
module Http {
  import opened JsObject

  /** Header names to values; Node hands them over lower-cased, but nothing here relies on it. */
  type Headers = Object<string>

  datatype Request = Request(httpMethod: string, url: string, headers: Headers, params: Object<string>)

  /** An express response; `res.status(code)` changes its status code in place. */
  class Response {
    var statusCode: int

    constructor (statusCode: int)
      ensures this.statusCode == statusCode
    {
      this.statusCode := statusCode;
    }

    /** `res.status(code)`, which answers the response itself so that calls can be chained. */
    method Status(code: int) returns (self: Response)
      modifies this
      ensures statusCode == code && self == this
    {
      statusCode := code;
      self := this;
    }
  }
}

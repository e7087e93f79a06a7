/**
 * The sample fixture served by the mock server: `GET /test` answers
 * `{ toto: true }`, and its status hook turns the status to 404 when the
 * route parameter `foo` is `'999'`.
 */
module Mocks {
  import opened Wrappers
  import opened JsObject
  import opened Json
  import opened Http

  /** The data half of a fixture; the status hook is the method `Status` below. */
  datatype Fixture = Fixture(path: string, httpMethod: string, template: Json)

  const TestFixture := Fixture("/test", "GET", JObject([Entry("toto", JBool(true))]))

  /** The fixture is bound to `GET /test` and its body has the single property `toto: true`. */
  lemma TestFixtureShape()
    ensures TestFixture.path == "/test" && TestFixture.httpMethod == "GET"
    ensures TestFixture.template.JObject?
    ensures Lookup(TestFixture.template.fields, "toto") == Some(JBool(true))
    ensures forall k :: k != "toto" ==> Lookup(TestFixture.template.fields, k) == None
  {
  }

  /** The `next` continuation express passes to the hook, reduced to how often it was called. */
  class Next {
    var calls: nat

    constructor ()
      ensures calls == 0
    {
      calls := 0;
    }

    method Call()
      modifies this
      ensures calls == old(calls) + 1
    {
      calls := calls + 1;
    }
  }

  const NotFound := 404

  /** The parameter value that selects the not-found answer. */
  predicate SelectsNotFound(req: Request) {
    Lookup(req.params, "foo") == Some("999")
  }

  /**
   * The status hook: 404 when `req.params.foo === '999'`, the status left as
   * it was otherwise; `next()` is called exactly once either way.
   */
  method Status(req: Request, res: Response, next: Next)
    modifies res, next
    ensures SelectsNotFound(req) ==> res.statusCode == NotFound
    ensures !SelectsNotFound(req) ==> res.statusCode == old(res.statusCode)
    ensures next.calls == old(next.calls) + 1
  {
    if Lookup(req.params, "foo") == Some("999") {
      var _ := res.Status(NotFound);
    }
    next.Call();
  }

  /**
   * Serving the fixture: the hook runs, then the template is the body,
   * whatever status the hook chose.
   */
  method Serve(req: Request, res: Response) returns (body: Json)
    modifies res
    ensures body == TestFixture.template
    ensures res.statusCode == if SelectsNotFound(req) then NotFound else old(res.statusCode)
  {
    var next := new Next();
    Status(req, res, next);
    body := TestFixture.template;
  }
}

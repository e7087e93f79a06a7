/**
 * The pure helpers of the interception server: case-insensitive header
 * lookup, the brotli filter applied to outgoing requests, the proxy target,
 * and the two decorators wrapped around every proxied response.
 */
module Proxy {
  import opened Wrappers
  import opened JsObject
  import opened Json
  import opened Http
  import Seqs

  // ---------------------------------------------------------------------------
  // getHeader

  /** `i` is the first header whose name equals `name` ignoring case. */
  predicate FirstMatch(hs: Headers, name: string, i: int) {
    && 0 <= i < |hs|
    && Lower(hs[i].key) == Lower(name)
    && forall j :: 0 <= j < i ==> Lower(hs[j].key) != Lower(name)
  }

  /**
   * `getHeader(headers = {}, name)`: the value of the first header whose name
   * matches case-insensitively, or `null` (None) when none matches, when that
   * header's name is empty, or when its value is empty (both falsy).
   */
  function GetHeader(headers: Option<Headers>, name: string): (r: Option<string>)
    ensures headers.None? ==> r.None?
    ensures r.Some? ==> r.value != "" && exists i :: FirstMatch(headers.value, name, i) && headers.value[i].key != "" && headers.value[i].val == r.value
    ensures r.None? && headers.Some? ==>
      || (forall j :: 0 <= j < |headers.value| ==> Lower(headers.value[j].key) != Lower(name))
      || (exists i :: FirstMatch(headers.value, name, i) && (headers.value[i].key == "" || headers.value[i].val == ""))
  {
    var hs := if headers.Some? then headers.value else [];
    var wanted := Lower(name);
    match Find(hs, (h: string) => Lower(h) == wanted)
    case None => None
    case Some(i) =>
      assert FirstMatch(hs, name, i);
      if hs[i].key != "" && hs[i].val != "" then Some(hs[i].val) else None
  }

  /** Header names are compared without regard to case. */
  lemma GetHeaderIgnoresCase(headers: Option<Headers>, name: string, name': string)
    requires Lower(name) == Lower(name')
    ensures GetHeader(headers, name) == GetHeader(headers, name')
  {
  }

  /** `x || ''` for the result of `getHeader`. */
  function OrEmpty(v: Option<string>): string {
    if v.Some? then v.value else ""
  }

  // ---------------------------------------------------------------------------
  // removeBrotliFromOpts

  const AcceptEncoding := "accept-encoding"
  const Brotli := "br"

  /**
   * `s.split(/, ?/)`: the pieces between separators, a separator being a comma
   * and at most one space after it.
   */
  function SplitEncodings(s: string): (ts: seq<string>)
    ensures |ts| >= 1
    ensures forall i :: 0 <= i < |ts| ==> ',' !in ts[i]
    decreases |s|
  {
    if |s| == 0 then [""]
    else if s[0] == ',' then [""] + SplitEncodings(if |s| > 1 && s[1] == ' ' then s[2..] else s[1..])
    else
      var ts := SplitEncodings(s[1..]);
      [[s[0]] + ts[0]] + ts[1..]
  }

  /** `ts.join(', ')`. */
  function JoinEncodings(ts: seq<string>): string {
    if |ts| == 0 then ""
    else if |ts| == 1 then ts[0]
    else ts[0] + ", " + JoinEncodings(ts[1..])
  }

  /** A token without commas splits off whole in front of a `", "` separator. */
  lemma {:induction false} SplitFront(t: string, rest: string)
    requires ',' !in t
    ensures SplitEncodings(t + ", " + rest) == [t] + SplitEncodings(rest)
    decreases |t|
  {
    if |t| == 0 {
      assert t + ", " + rest == ", " + rest;
      assert (", " + rest)[2..] == rest;
    } else {
      assert (t + ", " + rest)[1..] == t[1..] + ", " + rest;
      SplitFront(t[1..], rest);
      assert [t[0]] + t[1..] == t;
    }
  }

  /** A token without commas splits off whole in front of a bare `","` separator. */
  lemma {:induction false} SplitFrontBare(t: string, rest: string)
    requires ',' !in t
    requires |rest| == 0 || rest[0] != ' '
    ensures SplitEncodings(t + "," + rest) == [t] + SplitEncodings(rest)
    decreases |t|
  {
    if |t| == 0 {
      assert t + "," + rest == "," + rest;
      assert ("," + rest)[1..] == rest;
    } else {
      assert (t + "," + rest)[1..] == t[1..] + "," + rest;
      SplitFrontBare(t[1..], rest);
      assert [t[0]] + t[1..] == t;
    }
  }

  /** A token without commas is a single piece. */
  lemma {:induction false} SplitSingle(t: string)
    requires ',' !in t
    ensures SplitEncodings(t) == [t]
    decreases |t|
  {
    if |t| > 0 {
      SplitSingle(t[1..]);
      assert [t[0]] + t[1..] == t;
    }
  }

  /** Splitting undoes joining, for non-empty lists of comma-free tokens. */
  lemma {:induction false} SplitJoin(ts: seq<string>)
    requires |ts| >= 1
    requires forall i :: 0 <= i < |ts| ==> ',' !in ts[i]
    ensures SplitEncodings(JoinEncodings(ts)) == ts
    decreases |ts|
  {
    if |ts| == 1 {
      SplitSingle(ts[0]);
    } else {
      SplitJoin(ts[1..]);
      SplitFront(ts[0], JoinEncodings(ts[1..]));
    }
  }

  predicate NotBrotli(t: string) { t != Brotli }

  /** Every comma in `s` is followed by a space. */
  predicate CommasSpaced(s: string) {
    forall i :: 0 <= i < |s| && s[i] == ',' ==> i + 1 < |s| && s[i + 1] == ' '
  }

  /** In a `", "`-join of comma-free tokens every comma is followed by a space. */
  lemma {:induction false} JoinSpacesCommas(ts: seq<string>)
    requires forall i :: 0 <= i < |ts| ==> ',' !in ts[i]
    ensures CommasSpaced(JoinEncodings(ts))
    decreases |ts|
  {
    if |ts| > 1 {
      JoinSpacesCommas(ts[1..]);
      var s := JoinEncodings(ts);
      var rest := JoinEncodings(ts[1..]);
      assert CommasSpaced(rest);
      assert s == ts[0] + ", " + rest;
      forall i | 0 <= i < |s| && s[i] == ',' ensures i + 1 < |s| && s[i + 1] == ' ' {
        var n := |ts[0]|;
        assert s[..n] == ts[0];
        if i == n {
          assert s[i + 1] == ' ';
        } else if i > n + 1 {
          var k := i - n - 2;
          assert s[i] == rest[k];
          assert 0 <= k < |rest| && rest[k] == ',';
          assert k + 1 < |rest| && rest[k + 1] == ' ';
          assert s[i + 1] == rest[k + 1];
        }
      }
    }
  }

  /**
   * The new `accept-encoding` value: the tokens of `v` other than exactly
   * `br`, in their original order, joined by `", "`.
   */
  function StripBrotli(v: string): (r: string)
    ensures Brotli !in SplitEncodings(r)
    ensures Seqs.Filter(SplitEncodings(v), NotBrotli) == [] ==> r == ""
    ensures Seqs.Filter(SplitEncodings(v), NotBrotli) != [] ==> SplitEncodings(r) == Seqs.Filter(SplitEncodings(v), NotBrotli)
    ensures CommasSpaced(r)
  {
    var kept := Seqs.Filter(SplitEncodings(v), NotBrotli);
    var r := JoinEncodings(kept);
    JoinSpacesCommas(kept);
    if |kept| > 0 then SplitJoin(kept); r else r
  }

  /** Stripping brotli twice gives what stripping it once gives. */
  lemma StripBrotliIdempotent(v: string)
    ensures StripBrotli(StripBrotli(v)) == StripBrotli(v)
  {
    var kept := Seqs.Filter(SplitEncodings(v), NotBrotli);
    var once := StripBrotli(v);
    if |kept| == 0 {
      assert once == "";
      assert SplitEncodings("") == [""];
      assert Seqs.Filter([""], NotBrotli) == [""];
    } else {
      Seqs.FilterIdempotent(SplitEncodings(v), NotBrotli);
    }
  }

  /** `gzip, br` loses `br` and keeps `gzip`. */
  lemma StripBrotliDropsBr()
    ensures StripBrotli("gzip, br") == "gzip"
  {
    var ts := ["gzip", "br"];
    assert JoinEncodings(ts) == "gzip" + ", " + JoinEncodings(ts[1..]);
    assert ts[1..] == ["br"];
    assert JoinEncodings(ts) == "gzip, br";
    SplitJoin(ts);
    assert ts[1..][1..] == [];
    assert Seqs.Filter(ts, NotBrotli) == ["gzip"];
  }

  /** The space after the comma is optional: `gzip,br` loses `br` as well. */
  lemma StripBrotliDropsBareBr()
    ensures StripBrotli("gzip,br") == "gzip"
  {
    SplitFrontBare("gzip", "br");
    assert "gzip" + "," + "br" == "gzip,br";
    SplitSingle("br");
    var ts := ["gzip", "br"];
    assert SplitEncodings("gzip,br") == ts;
    assert ts[1..][1..] == [];
    assert Seqs.Filter(ts, NotBrotli) == ["gzip"];
  }

  /** A token that merely starts with `br`, such as `br;q=1`, is kept. */
  lemma StripBrotliKeepsParameterisedBr()
    ensures StripBrotli("br;q=1, gzip") == "br;q=1, gzip"
  {
    var ts := ["br;q=1", "gzip"];
    assert ts[1..] == ["gzip"];
    assert JoinEncodings(ts) == "br;q=1, gzip";
    SplitJoin(ts);
    Seqs.FilterKeepsAll(ts, NotBrotli);
  }

  /** The headers `removeBrotliFromOpts` leaves behind. */
  function RewriteAcceptEncoding(hs: Headers): (r: Headers)
    ensures Lookup(r, AcceptEncoding) == Some(StripBrotli(OrEmpty(GetHeader(Some(hs), AcceptEncoding))))
    ensures forall k :: k != AcceptEncoding ==> Lookup(r, k) == Lookup(hs, k)
    ensures UniqueKeys(hs) ==> UniqueKeys(r)
  {
    Assign(hs, AcceptEncoding, StripBrotli(OrEmpty(GetHeader(Some(hs), AcceptEncoding))))
  }

  /** `getHeader` answers from the first case-insensitive match. */
  lemma GetHeaderAt(hs: Headers, name: string, i: nat)
    requires FirstMatch(hs, name, i)
    ensures GetHeader(Some(hs), name) == if hs[i].key == "" || hs[i].val == "" then None else Some(hs[i].val)
  {
  }

  lemma StripBrotliEmpty()
    ensures StripBrotli("") == ""
  {
  }

  /** After one rewrite, `getHeader` reads back the value that rewrite settled on, up to stripping. */
  lemma {:induction false} RewriteReadBack(hs: Headers)
    requires UniqueKeys(hs)
    ensures StripBrotli(OrEmpty(GetHeader(Some(RewriteAcceptEncoding(hs)), AcceptEncoding)))
         == StripBrotli(OrEmpty(GetHeader(Some(hs), AcceptEncoding)))
  {
    var h1 := RewriteAcceptEncoding(hs);
    var v0 := OrEmpty(GetHeader(Some(hs), AcceptEncoding));
    var v1 := StripBrotli(v0);
    var wanted := Lower(AcceptEncoding);
    var f := Find(hs, (h: string) => Lower(h) == wanted);
    StripBrotliEmpty();
    if f.Some? {
      var i := f.value;
      assert FirstMatch(hs, AcceptEncoding, i);
      assert FirstMatch(h1, AcceptEncoding, i);
      GetHeaderAt(h1, AcceptEncoding, i);
      GetHeaderAt(hs, AcceptEncoding, i);
      if hs[i].key == AcceptEncoding {
        LookupAt(h1, i);
        StripBrotliIdempotent(v0);
      } else {
        assert h1[i] == hs[i];
      }
    } else {
      assert Lookup(hs, AcceptEncoding).None?;
      assert |h1| == |hs| + 1 && h1[|hs|].key == AcceptEncoding by {
        assert forall j :: 0 <= j < |hs| ==> h1[j].key == hs[j].key;
        LookupAt(h1, |hs|);
      }
      assert FirstMatch(h1, AcceptEncoding, |hs|);
      GetHeaderAt(h1, AcceptEncoding, |hs|);
      LookupAt(h1, |hs|);
    }
  }

  /**
   * Rewriting twice leaves the headers as rewriting once did, whether the
   * value came from `accept-encoding` itself, from a differently-cased
   * spelling that precedes it, or from nowhere.
   */
  lemma RewriteAcceptEncodingIdempotent(hs: Headers)
    requires UniqueKeys(hs)
    ensures RewriteAcceptEncoding(RewriteAcceptEncoding(hs)) == RewriteAcceptEncoding(hs)
  {
    var h1 := RewriteAcceptEncoding(hs);
    RewriteReadBack(hs);
    AssignExisting(h1, AcceptEncoding, StripBrotli(OrEmpty(GetHeader(Some(hs), AcceptEncoding))));
  }

  /** Assigning a property the value it already has changes nothing. */
  lemma AssignExisting<V>(o: Object<V>, k: string, v: V)
    requires Lookup(o, k) == Some(v)
    ensures Assign(o, k, v) == o
  {
  }

  /** The `proxyReqOpts` object express-http-proxy hands to the decorator. */
  class RequestOptions {
    var headers: Option<Headers>

    constructor (headers: Option<Headers>)
      ensures this.headers == headers
    {
      this.headers := headers;
    }
  }

  /**
   * `removeBrotliFromOpts`: rewrites `accept-encoding` in place and returns
   * the same options object; with no options or no headers object the
   * assignment throws a TypeError.
   */
  method RemoveBrotliFromOpts(opts: RequestOptions?) returns (r: Result<RequestOptions, JsError>)
    modifies opts
    ensures opts == null ==> r == Failure(TypeError)
    ensures opts != null && old(opts.headers).None? ==> r == Failure(TypeError) && opts.headers == old(opts.headers)
    ensures opts != null && old(opts.headers).Some? ==>
      && r == Success(opts)
      && opts.headers == Some(RewriteAcceptEncoding(old(opts.headers).value))
  {
    if opts == null {
      return Failure(TypeError);
    }
    var accepted := SplitEncodings(OrEmpty(GetHeader(opts.headers, AcceptEncoding)));
    if opts.headers.None? {
      return Failure(TypeError);
    }
    opts.headers := Some(Assign(opts.headers.value, AcceptEncoding, JoinEncodings(Seqs.Filter(accepted, NotBrotli))));
    return Success(opts);
  }

  // ---------------------------------------------------------------------------
  // The proxy target

  /** A port as configuration may carry it: a number or a string. */
  datatype PortValue = Num(n: int) | Str(s: string)

  /** JavaScript truthiness of a port: `0` and `''` are falsy. */
  predicate Truthy(port: PortValue) {
    match port
    case Num(n) => n != 0
    case Str(s) => s != ""
  }

  /** `${port}` inside a template literal. */
  function PortText(port: PortValue): string {
    match port
    case Num(n) => IntToString(n)
    case Str(s) => s
  }

  /** `${host}${port ? `:${port}` : ''}`: the upstream express-http-proxy forwards to. */
  function Target(host: string, port: PortValue): (r: string)
    ensures |r| >= |host| && r[..|host|] == host
    ensures r == host <==> !Truthy(port)
    ensures Truthy(port) ==> r[|host|] == ':' && r[|host| + 1..] == PortText(port)
    ensures Truthy(port) && port.Num? ==> ParseInt(r[|host| + 1..]) == Some(port.n)
  {
    if Truthy(port) then
      var r := host + ":" + PortText(port);
      assert r[|host| + 1..] == PortText(port);
      if port.Num? then ParseIntToString(port.n); r else r
    else host
  }

  function DigitChar(d: nat): (c: char)
    requires d < 10
    ensures '0' <= c <= '9'
  {
    ('0' as int + d) as char
  }

  predicate IsDigits(s: string) {
    forall i :: 0 <= i < |s| ==> '0' <= s[i] <= '9'
  }

  /** Decimal notation of a natural number, as `Number.prototype.toString` writes it. */
  function NatToString(n: nat): (s: string)
    ensures |s| >= 1 && IsDigits(s)
    ensures |s| > 1 ==> s[0] != '0'
    decreases n
  {
    if n < 10 then [DigitChar(n)] else NatToString(n / 10) + [DigitChar(n % 10)]
  }

  function IntToString(n: int): string {
    if n < 0 then "-" + NatToString(-n) else NatToString(n)
  }

  /** Reads decimal digits back; `ParseNatToString` proves `NatToString` inverts it. */
  function ParseNat(s: string): nat
    requires IsDigits(s)
  {
    if |s| == 0 then 0 else ParseNat(s[..|s| - 1]) * 10 + (s[|s| - 1] as int - '0' as int)
  }

  function ParseInt(s: string): Option<int> {
    if |s| > 1 && s[0] == '-' && IsDigits(s[1..]) then Some(-(ParseNat(s[1..]) as int))
    else if |s| > 0 && IsDigits(s) then Some(ParseNat(s))
    else None
  }

  lemma {:induction false} ParseNatToString(n: nat)
    ensures ParseNat(NatToString(n)) == n
    decreases n
  {
    if n >= 10 {
      ParseNatToString(n / 10);
      var s := NatToString(n);
      assert s[..|s| - 1] == NatToString(n / 10);
    }
  }

  lemma ParseIntToString(n: int)
    ensures ParseInt(IntToString(n)) == Some(n)
  {
    if n < 0 {
      ParseNatToString(-n);
      assert IntToString(n)[1..] == NatToString(-n);
    } else {
      ParseNatToString(n);
    }
  }

  // ---------------------------------------------------------------------------
  // userResDecorator and userResHeaderDecorator

  newtype byte = x: int | 0 <= x < 256

  /** What the decorator hands back to express-http-proxy: new text, or the upstream bytes as they came. */
  datatype Body = Text(text: string) | Raw(bytes: seq<byte>)

  /** The value given to the interceptor: the parsed JSON, or else the text itself. */
  function InterceptorInput(text: string, parse: string -> Option<Json>): Json {
    match parse(text)
    case Some(j) => j
    case None => JString(text)
  }

  /**
   * `userResDecorator`: decode the upstream bytes, parse them if they are
   * JSON, run the interceptor and serialize its answer; should the
   * interceptor or the serializer throw, send the upstream bytes unchanged.
   * `utf8`, `parse` and `stringify` stand for `Buffer.toString('utf8')`,
   * `JSON.parse` and `JSON.stringify`; `interceptor` already has the request
   * and response it is called with.
   */
  function UserResDecorator(
    proxyResData: seq<byte>,
    utf8: seq<byte> -> string,
    parse: string -> Option<Json>,
    stringify: Json -> Result<string, JsError>,
    interceptor: Json -> Result<Json, JsError>): (r: Body)
    ensures r.Raw? ==> r.bytes == proxyResData
    ensures var out := interceptor(InterceptorInput(utf8(proxyResData), parse));
      r.Raw? <==> out.Failure? || stringify(out.value).Failure?
    ensures var out := interceptor(InterceptorInput(utf8(proxyResData), parse));
      r.Text? ==> out.Success? && stringify(out.value) == Success(r.text)
  {
    var data := InterceptorInput(utf8(proxyResData), parse);
    match interceptor(data)
    case Failure(_) => Raw(proxyResData)
    case Success(modified) =>
      match stringify(modified)
      case Failure(_) => Raw(proxyResData)
      case Success(text) => Text(text)
  }

  /** `JSON.parse` reads back whatever `JSON.stringify` wrote. */
  ghost predicate ParseInvertsStringify(parse: string -> Option<Json>, stringify: Json -> Result<string, JsError>) {
    forall v :: stringify(v).Success? ==> parse(stringify(v).value) == Some(v)
  }

  /** When text goes out, the client parses it back to exactly what the interceptor returned. */
  lemma DecoratorDeliversInterceptorValue(
    proxyResData: seq<byte>,
    utf8: seq<byte> -> string,
    parse: string -> Option<Json>,
    stringify: Json -> Result<string, JsError>,
    interceptor: Json -> Result<Json, JsError>)
    requires ParseInvertsStringify(parse, stringify)
    ensures var r := UserResDecorator(proxyResData, utf8, parse, stringify, interceptor);
      r.Text? ==> parse(r.text) == Some(interceptor(InterceptorInput(utf8(proxyResData), parse)).value)
  {
  }

  /**
   * With an interceptor that hands the body back (as the main process's
   * handlers do) a JSON body reaches the client as the same JSON value, while
   * a body that is not JSON reaches it as a JSON string literal of its text.
   */
  lemma DecoratorWithIdentityInterceptor(
    proxyResData: seq<byte>,
    utf8: seq<byte> -> string,
    parse: string -> Option<Json>,
    stringify: Json -> Result<string, JsError>,
    interceptor: Json -> Result<Json, JsError>)
    requires ParseInvertsStringify(parse, stringify)
    requires forall v :: interceptor(v) == Success(v)
    ensures var text := utf8(proxyResData);
      var r := UserResDecorator(proxyResData, utf8, parse, stringify, interceptor);
      && (r.Raw? <==> stringify(InterceptorInput(text, parse)).Failure?)
      && (r.Text? && parse(text).Some? ==> parse(r.text) == parse(text))
      && (r.Text? && parse(text).None? ==> parse(r.text) == Some(JString(text)))
  {
  }

  /** `userResHeaderDecorator`: the upstream headers minus `host` (`headers || {}` first). */
  function UserResHeaderDecorator(headers: Option<Headers>): (r: Headers)
    ensures Lookup(r, "host") == None
    ensures forall k :: k != "host" && headers.Some? ==> Lookup(r, k) == Lookup(headers.value, k)
    ensures headers.None? ==> r == []
    ensures forall i :: 0 <= i < |r| ==> headers.Some? && r[i] in headers.value
    ensures headers.Some? && UniqueKeys(headers.value) ==> UniqueKeys(r)
  {
    var hs := if headers.Some? then headers.value else [];
    var r := Omit(hs, "host");
    assert forall k :: Lookup(r, k) == if k == "host" then None else Lookup(hs, k) by {
      forall k ensures Lookup(r, k) == if k == "host" then None else Lookup(hs, k) {
        OmitLookup(hs, "host", k);
      }
    }
    if UniqueKeys(hs) then OmitUnique(hs, "host"); r else r
  }

  // ---------------------------------------------------------------------------
  // defaultCallback

  const Modified := "modified"

  /**
   * `defaultCallback`: `body.modified = true` inside a try. On a JSON object
   * this sets the property in place; on an array it adds a property that
   * serialization never shows; on any other value the assignment throws (or
   * is ignored) and the body goes back as it came.
   */
  function DefaultCallback(body: Json): (r: Json)
    ensures body.JObject? ==> r.JObject? && Lookup(r.fields, Modified) == Some(JBool(true))
    ensures body.JObject? ==> forall k :: k != Modified ==> Lookup(r.fields, k) == Lookup(body.fields, k)
    ensures body.JObject? && UniqueKeys(body.fields) ==> UniqueKeys(r.fields)
    ensures !body.JObject? ==> r == body
  {
    match body
    case JObject(fields) => JObject(Assign(fields, Modified, JBool(true)))
    case _ => body
  }
}

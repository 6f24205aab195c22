/**
 * The Payrexx gateway client: the request data built from an allow-list of
 * input keys, the query string it is signed over, the `ApiSignature`
 * header, webhook signature checking, and the normalisation of every
 * failure into one fixed message per call.
 */
module Payrexx {
  import opened Wrappers
  import opened JsValues
  import Qs

  const BaseUrl := "https://api.payrexx.com/v1.0/Gateway/"
  const FormContentType := "application/x-www-form-urlencoded"
  const CreateFailed := "Failed to create Payrexx gateway"
  const RetrieveFailed := "Failed to retrieve Payrexx gateway"

  /** Library code the client calls into and this model does not open up. */
  datatype Library = Library(
    // crypto-js HmacSHA256(message, key): HMAC (RFC 2104) over SHA-256
    hmacSha256: (string, string) -> seq<bv8>,
    // crypto-js enc.Base64.stringify: the base 64 encoding of section 4 of RFC 4648
    base64: seq<bv8> -> string,
    // qs: the RFC 1738 segments of one top-level key and its value
    encodeEntry: Qs.EntryEncoder)

  /** A client instance; both fields are set by the constructor and never change. */
  datatype Client = Client(instance: string, apiSecret: string)

  /** `new PayrexxAPI(instance, apiSecret, environment)`: the environment is not kept. */
  function NewClient(instance: string, apiSecret: string, environment: string): (c: Client)
    ensures c.instance == instance && c.apiSecret == apiSecret
  {
    Client(instance, apiSecret)
  }

  /** Whatever environment is named, the client, and so every request it makes, is the same. */
  lemma EnvironmentHasNoEffect(instance: string, apiSecret: string, e1: string, e2: string)
    ensures NewClient(instance, apiSecret, e1) == NewClient(instance, apiSecret, e2)
  {
  }

  datatype Verb = GET | POST

  datatype HttpRequest = HttpRequest(
    verb: Verb,
    url: string,
    params: seq<Entry>,
    body: string,
    headers: seq<(string, string)>)

  /** What the transport gives back: a response with its status, or none at all. */
  datatype HttpOutcome = Response(status: int, data: Value) | NoResponse

  /** The network, as a function of the request sent. */
  type Transport = HttpRequest -> HttpOutcome

  /** One call: the request put on the wire and what the caller gets back. */
  datatype Exchange = Exchange(request: HttpRequest, result: Result<Value, string>)

  /** The value of the first header called `name`. */
  function Header(req: HttpRequest, name: string): Option<string> {
    HeaderIn(req.headers, name)
  }

  function HeaderIn(hs: seq<(string, string)>, name: string): Option<string> {
    if hs == [] then None
    else if hs[0].0 == name then Some(hs[0].1)
    else HeaderIn(hs[1..], name)
  }

  /**
   * axios resolves with the response body on a 2xx status and throws on any
   * other status or on no response; the client rethrows every failure with
   * one fixed message.
   */
  function Normalize(outcome: HttpOutcome, failure: string): (r: Result<Value, string>)
    ensures r.Ok? <==> outcome.Response? && 200 <= outcome.status < 300
    ensures r.Ok? ==> r.value == outcome.data
    ensures r.Err? ==> r.error == failure
  {
    if outcome.Response? && 200 <= outcome.status < 300 then Ok(outcome.data) else Err(failure)
  }

  /** Base64 of the HMAC-SHA256 of `queryString` under the client's secret. */
  function GenerateSignature(lib: Library, c: Client, queryString: string): string {
    lib.base64(lib.hmacSha256(queryString, c.apiSecret))
  }

  /** The signature is a function of the secret and the signed string alone. */
  lemma SignatureDeterministic(lib: Library, c1: Client, c2: Client, q: string)
    requires c1.apiSecret == c2.apiSecret
    ensures GenerateSignature(lib, c1, q) == GenerateSignature(lib, c2, q)
  {
  }

  /** Compares `signature` with the signature recomputed over `body`. */
  function VerifyWebhookSignature(lib: Library, c: Client, body: string, signature: string): bool {
    GenerateSignature(lib, c, body) == signature
  }

  /** Verification accepts the body's own signature and rejects every other string. */
  lemma VerifyAfterSign(lib: Library, c: Client, body: string, other: string)
    requires other != GenerateSignature(lib, c, body)
    ensures VerifyWebhookSignature(lib, c, body, GenerateSignature(lib, c, body))
    ensures !VerifyWebhookSignature(lib, c, body, other)
  {
  }

  /** The string both requests sign: the request data, key-sorted and form-encoded. */
  function QueryString(lib: Library, data: seq<Entry>): string {
    Qs.Stringify(lib.encodeEntry, data)
  }

  /** Input keys copied into the request data whether or not they are set. */
  const CopiedKeys: set<string> := {"amount", "currency", "successRedirectUrl", "failedRedirectUrl", "cancelRedirectUrl"}

  /** Optional input keys forwarded only when their value is truthy. */
  const TruthyKeys: set<string> := {"sku", "referenceId", "purpose", "psp"}

  /** Optional input keys forwarded whenever their value is not `undefined`. */
  const DefinedKeys: set<string> := {"preAuthorization", "reservation", "vatRate"}

  /** Every key with a fixed name that the request data can hold. */
  const FixedKeys: set<string> := {"instance"} + CopiedKeys + TruthyKeys + DefinedKeys

  /** The request key that carries the custom field `name`. */
  function FieldKey(name: string): string {
    "fields[" + name + "]"
  }

  /** `gatewayData.fields` as `Object.keys` sees it: the properties of an object, none otherwise. */
  function Fields(input: seq<Entry>): seq<Entry> {
    match Get(input, "fields")
    case Obj(es) => es
    case _ => []
  }

  /** The keys with fixed names that reach the request data for this input. */
  predicate FixedKeyForwarded(input: seq<Entry>, k: string) {
    || k == "instance"
    || k in CopiedKeys
    || (k in TruthyKeys && Truthy(Get(input, k)))
    || (k in DefinedKeys && Get(input, k) != Undefined)
  }

  /** The value a forwarded fixed key carries: the client's instance, or the input's own value. */
  function FixedValue(c: Client, input: seq<Entry>, k: string): Value {
    if k == "instance" then Str(c.instance) else Get(input, k)
  }

  /** `k` is the key of a custom field whose value is truthy. */
  ghost predicate FieldForwarded(input: seq<Entry>, k: string) {
    exists name :: k == FieldKey(name) && Truthy(Get(Fields(input), name))
  }

  /**
   * `data` is what `createGateway` builds from `input`: `instance` from the
   * client, the copied and optional keys under their own names, each truthy
   * custom field under `fields[name]`, and nothing else.
   */
  ghost predicate IsGatewayData(c: Client, input: seq<Entry>, data: seq<Entry>) {
    && DistinctKeys(data)
    && (forall k :: HasKey(data, k) <==> FixedKeyForwarded(input, k) || FieldForwarded(input, k))
    && (forall k :: FixedKeyForwarded(input, k) ==> Get(data, k) == FixedValue(c, input, k))
    && (forall name :: Truthy(Get(Fields(input), name)) ==> Get(data, FieldKey(name)) == Get(Fields(input), name))
  }

  /** A custom-field key never collides with a fixed key. */
  lemma FieldKeyNotFixed(name: string)
    ensures FieldKey(name) !in FixedKeys
  {
    var k := FieldKey(name);
    assert k[0] == 'f' && k[1] == 'i';
  }

  /** Different custom fields get different keys. */
  lemma FieldKeyInjective(a: string, b: string)
    requires FieldKey(a) == FieldKey(b)
    ensures a == b
  {
    assert a == FieldKey(a)[7..|FieldKey(a)| - 1];
    assert b == FieldKey(b)[7..|FieldKey(b)| - 1];
  }

  /** The forwarded keys among `K`, with the values they carry. */
  ghost function FixedMap(c: Client, input: seq<Entry>, K: set<string>): map<string, Value> {
    map k | k in K && FixedKeyForwarded(input, k) :: FixedValue(c, input, k)
  }

  lemma PutStep(c: Client, input: seq<Entry>, K: set<string>, k: string)
    requires k != "instance" && FixedKeyForwarded(input, k)
    ensures FixedMap(c, input, K)[k := Get(input, k)] == FixedMap(c, input, K + {k})
  {
  }

  lemma SpreadStep(c: Client, input: seq<Entry>, K: set<string>, k: string, truthy: bool)
    requires k !in K && k != "instance"
    requires Spreads(Get(input, k), truthy) == FixedKeyForwarded(input, k)
    ensures (if Spreads(Get(input, k), truthy) then FixedMap(c, input, K)[k := Get(input, k)] else FixedMap(c, input, K))
         == FixedMap(c, input, K + {k})
  {
  }

  lemma LiteralKeys()
    ensures {"instance"} + {"amount"} + {"currency"} + {"successRedirectUrl"} + {"failedRedirectUrl"} + {"cancelRedirectUrl"}
         == {"instance"} + CopiedKeys
  {
  }

  lemma TruthyKeysAdded(K5: set<string>)
    ensures K5 + {"sku"} + {"referenceId"} + {"purpose"} + {"psp"} == K5 + TruthyKeys
  {
  }

  lemma DefinedKeysAdded(K9: set<string>)
    requires K9 == {"instance"} + CopiedKeys + TruthyKeys
    ensures K9 + {"preAuthorization"} + {"reservation"} + {"vatRate"} == FixedKeys
  {
  }

  /** The keys every request carries: `instance` and the copied keys, in literal order. */
  function Literal(c: Client, input: seq<Entry>): (o: seq<Entry>)
    ensures DistinctKeys(o)
    ensures Props(o) == FixedMap(c, input, {"instance"} + CopiedKeys)
  {
    var o0 := [Entry("instance", Str(c.instance))];
    assert Props(o0) == FixedMap(c, input, {"instance"}) by {
      assert o0[1..] == [];
    }
    var o1 := Put(o0, "amount", Get(input, "amount"));
    PutStep(c, input, {"instance"}, "amount");
    var o2 := Put(o1, "currency", Get(input, "currency"));
    PutStep(c, input, {"instance"} + {"amount"}, "currency");
    var o3 := Put(o2, "successRedirectUrl", Get(input, "successRedirectUrl"));
    PutStep(c, input, {"instance"} + {"amount"} + {"currency"}, "successRedirectUrl");
    var o4 := Put(o3, "failedRedirectUrl", Get(input, "failedRedirectUrl"));
    PutStep(c, input, {"instance"} + {"amount"} + {"currency"} + {"successRedirectUrl"}, "failedRedirectUrl");
    var o5 := Put(o4, "cancelRedirectUrl", Get(input, "cancelRedirectUrl"));
    PutStep(c, input, {"instance"} + {"amount"} + {"currency"} + {"successRedirectUrl"} + {"failedRedirectUrl"}, "cancelRedirectUrl");
    LiteralKeys();
    o5
  }

  /** The optional keys forwarded when truthy, each spread in only when it is. */
  function TruthySpreads(c: Client, input: seq<Entry>, o: seq<Entry>): (r: seq<Entry>)
    requires DistinctKeys(o) && Props(o) == FixedMap(c, input, {"instance"} + CopiedKeys)
    ensures DistinctKeys(r)
    ensures Props(r) == FixedMap(c, input, {"instance"} + CopiedKeys + TruthyKeys)
  {
    var K5 := {"instance"} + CopiedKeys;
    var o6 := Spread(o, input, "sku", true);
    SpreadStep(c, input, K5, "sku", true);
    var o7 := Spread(o6, input, "referenceId", true);
    SpreadStep(c, input, K5 + {"sku"}, "referenceId", true);
    var o8 := Spread(o7, input, "purpose", true);
    SpreadStep(c, input, K5 + {"sku"} + {"referenceId"}, "purpose", true);
    var o9 := Spread(o8, input, "psp", true);
    SpreadStep(c, input, K5 + {"sku"} + {"referenceId"} + {"purpose"}, "psp", true);
    TruthyKeysAdded(K5);
    o9
  }

  /** The optional keys forwarded when defined, each spread in only when it is. */
  function DefinedSpreads(c: Client, input: seq<Entry>, o: seq<Entry>): (r: seq<Entry>)
    requires DistinctKeys(o) && Props(o) == FixedMap(c, input, {"instance"} + CopiedKeys + TruthyKeys)
    ensures DistinctKeys(r)
    ensures Props(r) == FixedMap(c, input, FixedKeys)
  {
    var K9 := {"instance"} + CopiedKeys + TruthyKeys;
    var o10 := Spread(o, input, "preAuthorization", false);
    SpreadStep(c, input, K9, "preAuthorization", false);
    var o11 := Spread(o10, input, "reservation", false);
    SpreadStep(c, input, K9 + {"preAuthorization"}, "reservation", false);
    var o12 := Spread(o11, input, "vatRate", false);
    SpreadStep(c, input, K9 + {"preAuthorization"} + {"reservation"}, "vatRate", false);
    DefinedKeysAdded(K9);
    o12
  }

  /** The map of all fixed keys holds exactly the forwarded ones, with their values. */
  lemma FixedMapAll(c: Client, input: seq<Entry>, o: seq<Entry>)
    requires Props(o) == FixedMap(c, input, FixedKeys)
    ensures forall k :: HasKey(o, k) <==> FixedKeyForwarded(input, k)
    ensures forall k :: HasKey(o, k) ==> Get(o, k) == FixedValue(c, input, k)
  {
  }

  /** The object literal of `createGateway`, before custom fields are added. */
  function GatewayBase(c: Client, input: seq<Entry>): (base: seq<Entry>)
    ensures DistinctKeys(base)
    ensures Props(base) == FixedMap(c, input, FixedKeys)
  {
    DefinedSpreads(c, input, TruthySpreads(c, input, Literal(c, input)))
  }

  /**
   * `...(input.k && {k: input.k})` when `truthy`, and
   * `...(input.k !== undefined && {k: input.k})` otherwise.
   */
  function Spread(o: seq<Entry>, input: seq<Entry>, k: string, truthy: bool): (r: seq<Entry>)
    ensures Props(r) == if Spreads(Get(input, k), truthy) then Props(o)[k := Get(input, k)] else Props(o)
    ensures DistinctKeys(o) ==> DistinctKeys(r)
  {
    if Spreads(Get(input, k), truthy) then Put(o, k, Get(input, k)) else o
  }

  /** Whether a conditional spread adds its key. */
  predicate Spreads(v: Value, truthy: bool) {
    if truthy then Truthy(v) else v != Undefined
  }

  /** The custom fields among `names` that the loop adds, keyed as in the request data. */
  function FieldMap(fs: seq<Entry>, names: seq<string>): map<string, Value> {
    if names == [] then map[]
    else
      var name := names[|names| - 1];
      var m := FieldMap(fs, names[..|names| - 1]);
      if Truthy(Get(fs, name)) then m[FieldKey(name) := Get(fs, name)] else m
  }

  /** The key of field `name` is present exactly when `name` was visited and is truthy. */
  lemma {:induction false} FieldMapHas(fs: seq<Entry>, names: seq<string>, name: string)
    ensures FieldKey(name) in FieldMap(fs, names) <==> name in names && Truthy(Get(fs, name))
    ensures FieldKey(name) in FieldMap(fs, names) ==> FieldMap(fs, names)[FieldKey(name)] == Get(fs, name)
  {
    if names != [] {
      var last := names[|names| - 1];
      FieldMapHas(fs, names[..|names| - 1], name);
      assert names == names[..|names| - 1] + [last];
      if FieldKey(last) == FieldKey(name) {
        FieldKeyInjective(last, name);
      }
    }
  }

  /** Every key of the field map is the key of some custom field. */
  lemma {:induction false} FieldMapOnlyFields(fs: seq<Entry>, names: seq<string>, k: string) returns (name: string)
    requires k in FieldMap(fs, names)
    ensures k == FieldKey(name)
  {
    var last := names[|names| - 1];
    if k == FieldKey(last) && Truthy(Get(fs, last)) {
      name := last;
    } else {
      name := FieldMapOnlyFields(fs, names[..|names| - 1], k);
    }
  }

  /** Adding a key to the right operand of a merge adds it to the merge. */
  lemma MergeUpdate(a: map<string, Value>, m: map<string, Value>, k: string, v: Value)
    ensures (a + m)[k := v] == a + m[k := v]
  {
  }

  /** One turn of the field loop extends the merged map by the field it visits. */
  lemma FieldStep(base: map<string, Value>, fs: seq<Entry>, names: seq<string>, i: nat,
                  before: map<string, Value>, after: map<string, Value>)
    requires i < |names|
    requires before == base + FieldMap(fs, names[..i])
    requires after == if Truthy(Get(fs, names[i])) then before[FieldKey(names[i]) := Get(fs, names[i])] else before
    ensures after == base + FieldMap(fs, names[..i + 1])
  {
    assert names[..i + 1][..i] == names[..i];
    if Truthy(Get(fs, names[i])) {
      MergeUpdate(base, FieldMap(fs, names[..i]), FieldKey(names[i]), Get(fs, names[i]));
    }
  }

  /** Truthy fields are properties, so `Object.keys` visits them. */
  lemma TruthyFieldListed(fs: seq<Entry>, name: string)
    requires Truthy(Get(fs, name))
    ensures name in Keys(fs)
  {
    KeysListed(fs, name);
  }

  /** The object literal merged with the fields the loop adds is the request data. */
  lemma GatewayDataFromParts(c: Client, input: seq<Entry>, base: seq<Entry>, data: seq<Entry>)
    requires DistinctKeys(data)
    requires Props(base) == FixedMap(c, input, FixedKeys)
    requires Props(data) == Props(base) + FieldMap(Fields(input), Keys(Fields(input)))
    ensures IsGatewayData(c, input, data)
  {
    FixedMapAll(c, input, base);
    var fs := Fields(input);
    var fields := FieldMap(fs, Keys(fs));
    forall k ensures HasKey(data, k) <==> FixedKeyForwarded(input, k) || FieldForwarded(input, k) {
      if k in fields {
        var name := FieldMapOnlyFields(fs, Keys(fs), k);
        FieldMapHas(fs, Keys(fs), name);
      }
      if FieldForwarded(input, k) {
        var name :| k == FieldKey(name) && Truthy(Get(fs, name));
        TruthyFieldListed(fs, name);
        FieldMapHas(fs, Keys(fs), name);
      }
    }
    forall k | FixedKeyForwarded(input, k) ensures Get(data, k) == FixedValue(c, input, k) {
      if k in fields {
        var name := FieldMapOnlyFields(fs, Keys(fs), k);
        FieldKeyNotFixed(name);
      }
    }
    forall name | Truthy(Get(fs, name)) ensures Get(data, FieldKey(name)) == Get(fs, name) {
      TruthyFieldListed(fs, name);
      FieldMapHas(fs, Keys(fs), name);
    }
  }

  /** Merging with no fields changes nothing. */
  lemma MergeEmpty(a: map<string, Value>)
    ensures a + map[] == a
  {
  }

  /**
   * The loop of `createGateway` over `Object.keys(gatewayData.fields)`: each
   * truthy field is assigned under its bracketed key.
   */
  method AddFields(base: seq<Entry>, fs: seq<Entry>) returns (data: seq<Entry>)
    requires DistinctKeys(base)
    ensures DistinctKeys(data)
    ensures Props(data) == Props(base) + FieldMap(fs, Keys(fs))
  {
    data := base;
    var names := Keys(fs);
    var i := 0;
    assert names[..0] == [];
    MergeEmpty(Props(base));
    while i < |names|
      invariant 0 <= i <= |names|
      invariant DistinctKeys(data)
      invariant Props(data) == Props(base) + FieldMap(fs, names[..i])
    {
      var name := names[i];
      var value := Get(fs, name);
      ghost var before := data;
      if Truthy(value) {
        data := Put(data, FieldKey(name), value);
      }
      FieldStep(Props(base), fs, names, i, Props(before), Props(data));
      i := i + 1;
    }
    assert names[..i] == names;
  }

  /**
   * The request data of `createGateway`: the object literal, then the
   * custom fields when `gatewayData.fields` is truthy.
   */
  method GatewayData(c: Client, input: seq<Entry>) returns (data: seq<Entry>)
    ensures IsGatewayData(c, input, data)
  {
    var base := GatewayBase(c, input);
    var fs := Fields(input);
    if Truthy(Get(input, "fields")) {
      data := AddFields(base, fs);
    } else {
      data := base;
      MergeEmpty(Props(base));
    }
    GatewayDataFromParts(c, input, base, data);
  }

  /** Any two results of building the request data for one input sign the same string. */
  lemma SignedStringDetermined(lib: Library, c: Client, input: seq<Entry>, d1: seq<Entry>, d2: seq<Entry>)
    requires IsGatewayData(c, input, d1) && IsGatewayData(c, input, d2)
    ensures QueryString(lib, d1) == QueryString(lib, d2)
  {
    forall k ensures (k in Props(d1) <==> k in Props(d2)) && (k in Props(d1) ==> Props(d1)[k] == Props(d2)[k]) {
      if HasKey(d1, k) && !FixedKeyForwarded(input, k) {
        var name :| k == FieldKey(name) && Truthy(Get(Fields(input), name));
      }
    }
    assert Props(d1) == Props(d2);
    SamePropertiesSameEntries(d1, d2);
    Qs.StringifyCanonical(lib.encodeEntry, d1, d2);
  }

  /**
   * `createGateway`: builds the request data, signs its query string and
   * posts exactly that string with the signature in the `ApiSignature`
   * header; any failure becomes `CreateFailed`.
   */
  method CreateGateway(lib: Library, c: Client, input: seq<Entry>, send: Transport) returns (data: seq<Entry>, x: Exchange)
    ensures IsGatewayData(c, input, data)
    ensures x.request.verb == POST && x.request.url == BaseUrl
    ensures x.request.body == QueryString(lib, data)
    ensures Header(x.request, "Content-Type") == Some(FormContentType)
    ensures Header(x.request, "ApiSignature") == Some(GenerateSignature(lib, c, x.request.body))
    ensures x.result == Normalize(send(x.request), CreateFailed)
    ensures VerifyWebhookSignature(lib, c, x.request.body, Header(x.request, "ApiSignature").value)
  {
    data := GatewayData(c, input);
    var queryString := QueryString(lib, data);
    var signature := GenerateSignature(lib, c, queryString);
    var request := HttpRequest(POST, BaseUrl, [], queryString,
                               [("Content-Type", FormContentType), ("ApiSignature", signature)]);
    assert request.headers[1..] == [("ApiSignature", signature)];
    assert HeaderIn(request.headers[1..], "ApiSignature") == Some(signature);
    x := Exchange(request, Normalize(send(request), CreateFailed));
  }

  /**
   * `getGateway(gatewayId)`: signs the query string of a payload holding
   * only `instance` and sends that payload as the query parameters; any
   * failure becomes `RetrieveFailed`.
   */
  function GetGateway(lib: Library, c: Client, gatewayId: string, send: Transport): (x: Exchange)
    ensures x.request.verb == GET && x.request.url == BaseUrl + gatewayId
    ensures x.request.params == [Entry("instance", Str(c.instance))]
    ensures Header(x.request, "ApiSignature") == Some(GenerateSignature(lib, c, QueryString(lib, x.request.params)))
    ensures x.result == Normalize(send(x.request), RetrieveFailed)
    ensures VerifyWebhookSignature(lib, c, QueryString(lib, x.request.params), Header(x.request, "ApiSignature").value)
  {
    var data := [Entry("instance", Str(c.instance))];
    var signature := GenerateSignature(lib, c, QueryString(lib, data));
    var request := HttpRequest(GET, BaseUrl + gatewayId, data, "", [("ApiSignature", signature)]);
    Exchange(request, Normalize(send(request), RetrieveFailed))
  }
}

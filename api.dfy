/**
 * The pure parts of the BigBuy client (bigbuy/api.py): choosing the base
 * URL, shaping what `request_api` forwards to the HTTP session, wrapping
 * order bodies in their `{"order": ...}` envelope, and building the JSON
 * payloads of the stock and tracking requests. The HTTP session itself is
 * not modelled; a request is described by the values handed to it.
 */
module BigBuy {
  import opened Wrappers
  import opened JsonValue

  const SandboxUrl := "https://api.sandbox.bigbuy.eu/rest"
  const ProductionUrl := "https://api.bigbuy.eu/rest"

  /** The mode a client is constructed with when none is given. */
  const DefaultMode := "sandbox"

  /** The base URL the client is constructed with for a given mode. */
  function BaseUrl(mode: string := DefaultMode): (url: string)
    ensures url == SandboxUrl <==> mode == "sandbox"
    ensures url == ProductionUrl <==> mode != "sandbox"
  {
    if mode == "sandbox" then SandboxUrl else ProductionUrl
  }

  /** A client constructed without a mode talks to the sandbox. */
  lemma BaseUrlDefault()
    ensures BaseUrl() == SandboxUrl
  {
  }

  /** The path forwarded for an API path: a leading '/', the path, then ".json". */
  function ApiPath(path: string): (r: string)
    ensures |r| == |path| + 6 && r[0] == '/'
    ensures r[1..|path| + 1] == path && r[|path| + 1..] == ".json"
  {
    "/" + path + ".json"
  }

  /** Recovers the API path from a forwarded path. */
  function StripApiPath(forwarded: string): Option<string> {
    if |forwarded| >= 6 && forwarded[0] == '/' && forwarded[|forwarded| - 5..] == ".json"
    then Some(forwarded[1..|forwarded| - 5])
    else None
  }

  lemma ApiPathRoundTrip(path: string)
    ensures StripApiPath(ApiPath(path)) == Some(path)
  {
  }

  /** Different API paths are forwarded as different paths. */
  lemma ApiPathInjective(p: string, q: string)
    requires ApiPath(p) == ApiPath(q)
    ensures p == q
  {
  }

  lemma ApiPathExample()
    ensures ApiPath("foo") == "/foo.json"
  {
  }

  /**
   * The session raises on error responses unless the caller passed exactly
   * the value `False`; the test is by identity. `None`, the default, is `JNull`.
   */
  function ThrowFlag(throw: Json): (r: bool)
    ensures throw == JNull ==> r
    ensures throw == JBool(true) ==> r
    ensures !r <==> throw == JBool(false)
  {
    throw != JBool(false)
  }

  /** Only the literal `False` turns raising off: other falsy values keep it on. */
  lemma ThrowFlagIdentity()
    ensures ThrowFlag(JInt(0)) && ThrowFlag(JStr("")) && ThrowFlag(JArray([]))
  {
  }

  /**
   * What `request_api` hands on to the HTTP session: the method, the shaped
   * path and throw flag, and the caller's other positional and keyword
   * arguments (a `json=` body, `params=`), which are passed through.
   */
  datatype Forwarded = Forwarded(
    httpMethod: string, path: string, args: seq<Json>, throw: bool, kwargs: map<string, Json>)

  function RequestApi(httpMethod: string, path: string, args: seq<Json>,
                      throw: Json := JNull, kwargs: map<string, Json> := map[]): (r: Forwarded)
    ensures r.httpMethod == httpMethod
    ensures StripApiPath(r.path) == Some(path)
    ensures r.args == args && r.kwargs == kwargs
    ensures r.throw <==> throw != JBool(false)
  {
    ApiPathRoundTrip(path);
    Forwarded(httpMethod, ApiPath(path), args, ThrowFlag(throw), kwargs)
  }

  /** Leaving `throw` out keeps raising on. */
  lemma RequestApiThrowDefault(httpMethod: string, path: string)
    ensures RequestApi(httpMethod, path, []).throw
  {
  }

  // ---------------------------------------------------------------------
  // Order envelopes

  /**
   * An order body is sent as `{"order": order}` unless it already carries
   * the key "order", in which case it is sent as it is.
   */
  function WrapOrder(order: map<string, Json>): (r: map<string, Json>)
    ensures "order" in r
    ensures "order" in order ==> r == order
    ensures "order" !in order ==> r.Keys == {"order"} && r["order"] == JObject(order)
  {
    if "order" in order then order else map["order" := JObject(order)]
  }

  lemma WrapOrderIdempotent(order: map<string, Json>)
    ensures WrapOrder(WrapOrder(order)) == WrapOrder(order)
  {
  }

  /** The three endpoints that take an order body. */
  datatype OrderEndpoint = ShippingOrders | CheckOrder | CreateOrder {
    function Path(): string {
      match this
      case ShippingOrders => "shipping/orders"
      case CheckOrder => "order/check"
      case CreateOrder => "order/create"
    }
  }

  /**
   * A POST handed to the session: its API path, its JSON body, and whether
   * the caller gets the decoded JSON body (true) or the raw response (false).
   */
  datatype Post = Post(path: string, body: Json, decodeJson: bool)

  function OrderPost(endpoint: OrderEndpoint, order: map<string, Json>): (r: Post)
    ensures r.path == endpoint.Path()
    ensures r.body.JObject? && "order" in r.body.fields
    ensures "order" in order ==> r.body == JObject(order)
    ensures "order" !in order ==> r.body.fields == map["order" := JObject(order)]
    ensures r.decodeJson <==> endpoint != CreateOrder
  {
    Post(endpoint.Path(), JObject(WrapOrder(order)), endpoint != CreateOrder)
  }

  // ---------------------------------------------------------------------
  // Payloads

  /** The one-field object mapping `field` to `value`. */
  function Record(field: string, value: Json): Json {
    JObject(map[field := value])
  }

  /** One single-field record per value, in the order of the values. */
  function Records(field: string, values: seq<Json>): (r: seq<Json>)
    ensures |r| == |values|
    ensures forall i :: 0 <= i < |values| ==> r[i] == Record(field, values[i])
  {
    if values == [] then [] else [Record(field, values[0])] + Records(field, values[1..])
  }

  /** Reads back the values from a list of one-field records. */
  function ParseRecords(field: string, items: seq<Json>): Option<seq<Json>> {
    if items == [] then Some([])
    else
      var first :- SoleField(items[0], field);
      var rest :- ParseRecords(field, items[1..]);
      Some([first] + rest)
  }

  /** The value of `j` when `j` is an object whose only key is `key`. */
  function SoleField(j: Json, key: string): Option<Json> {
    if j.JObject? && j.fields.Keys == {key} then Some(j.fields[key]) else None
  }

  lemma {:induction false} RecordsRoundTrip(field: string, values: seq<Json>)
    ensures ParseRecords(field, Records(field, values)) == Some(values)
  {
    if values != [] {
      var r := Records(field, values);
      assert r[0] == Record(field, values[0]);
      assert r[1..] == Records(field, values[1..]);
      RecordsRoundTrip(field, values[1..]);
      assert [values[0]] + values[1..] == values;
    }
  }

  /** Each sku as a JSON string. */
  function SkuValues(skus: seq<string>): (r: seq<Json>)
    ensures |r| == |skus|
    ensures forall i :: 0 <= i < |skus| ==> r[i] == JStr(skus[i])
  {
    if skus == [] then [] else [JStr(skus[0])] + SkuValues(skus[1..])
  }

  function Strings(values: seq<Json>): Option<seq<string>> {
    if values == [] then Some([])
    else if values[0].JStr? then
      var rest :- Strings(values[1..]);
      Some([values[0].s] + rest)
    else None
  }

  lemma {:induction false} SkuValuesRoundTrip(skus: seq<string>)
    ensures Strings(SkuValues(skus)) == Some(skus)
  {
    if skus != [] {
      SkuValuesRoundTrip(skus[1..]);
      assert [skus[0]] + skus[1..] == skus;
    }
  }

  /**
   * The stock request body: an object with the single key
   * "product_stock_request", holding an object with the single key
   * "products", holding one `"sku"` record per sku, in order.
   */
  function StockPayload(skus: seq<string>): (r: Json)
    ensures r.JObject? && r.fields.Keys == {"product_stock_request"}
    ensures var request := r.fields["product_stock_request"];
      request.JObject? && request.fields.Keys == {"products"} && request.fields["products"].JArray?
    ensures var products := r.fields["product_stock_request"].fields["products"].items;
      |products| == |skus| && forall i :: 0 <= i < |skus| ==> products[i] == Record("sku", JStr(skus[i]))
  {
    Record("product_stock_request", Record("products", JArray(Records("sku", SkuValues(skus)))))
  }

  function ParseStockPayload(payload: Json): Option<seq<string>> {
    var request :- SoleField(payload, "product_stock_request");
    var products :- SoleField(request, "products");
    if products.JArray? then
      var values :- ParseRecords("sku", products.items);
      Strings(values)
    else None
  }

  /** The stock payload lists exactly the given skus, in order. */
  lemma StockPayloadRoundTrip(skus: seq<string>)
    ensures ParseStockPayload(StockPayload(skus)) == Some(skus)
  {
    RecordsRoundTrip("sku", SkuValues(skus));
    SkuValuesRoundTrip(skus);
  }

  function StockPost(skus: seq<string>): (r: Post)
    ensures r.path == "catalog/productsstockbyreference" && r.decodeJson
    ensures ParseStockPayload(r.body) == Some(skus)
  {
    StockPayloadRoundTrip(skus);
    Post("catalog/productsstockbyreference", StockPayload(skus), true)
  }

  /** An order id as the caller gives it: a Python int or str. */
  type OrderId = j: Json | j.JInt? || j.JStr? witness JInt(0)

  /**
   * The tracking request body: an object with the single key "track",
   * holding an object with the single key "orders", holding one `"id"`
   * record per order id, in order, each id as the caller gave it.
   */
  function TrackingPayload(orderIds: seq<OrderId>): (r: Json)
    ensures r.JObject? && r.fields.Keys == {"track"}
    ensures var track := r.fields["track"];
      track.JObject? && track.fields.Keys == {"orders"} && track.fields["orders"].JArray?
    ensures var orders := r.fields["track"].fields["orders"].items;
      |orders| == |orderIds| && forall i :: 0 <= i < |orderIds| ==> orders[i] == Record("id", orderIds[i])
  {
    Record("track", Record("orders", JArray(Records("id", orderIds))))
  }

  function ParseTrackingPayload(payload: Json): Option<seq<Json>> {
    var track :- SoleField(payload, "track");
    var orders :- SoleField(track, "orders");
    if orders.JArray? then ParseRecords("id", orders.items) else None
  }

  /** The tracking payload lists exactly the given order ids, in order. */
  lemma TrackingPayloadRoundTrip(orderIds: seq<OrderId>)
    ensures ParseTrackingPayload(TrackingPayload(orderIds)) == Some(orderIds)
  {
    RecordsRoundTrip("id", orderIds);
  }
}

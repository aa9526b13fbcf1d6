# PyBigBuy client core, modelled in Dafny

PyBigBuy is a Python client for the BigBuy REST API. Its `BigBuy` class
(bigbuy/api.py) is mostly one-line endpoint wrappers in front of an HTTP
session. This project models the parts of that class that compute something
themselves:

- choosing the base URL from the mode (`"sandbox"`, the default, or anything else);
- what `request_api` forwards to the session: the path with a leading '/' and
  a trailing ".json", the `throw` flag (on unless exactly `False` was passed),
  and the caller's other arguments unchanged;
- the `{"order": ...}` envelope that `get_shipping_order`, `check_order` and
  `create_order` put around an order body that lacks the key `"order"`;
- the JSON payloads of `get_products_stock_by_reference` (one `{"sku": s}` per
  sku) and `get_tracking_orders` (one `{"id": i}` per order id);
- the result alignment of `get_tracking_orders`: with `match_ids` set (the default), a loop
  fills a dictionary keyed by `str(tracking["id"])`, and every requested order
  id is then looked up in it, giving the tracking or `None`.

Modules: `Wrappers` (Option), `Decimal` (Python's `str()` of an int, with a
decoder as its inverse), `JsonValue` (JSON values and `str()` of a scalar),
`BigBuy` (the pure functions above) and `Tracking` (`get_tracking_orders`, a
method whose loop builds the dictionary as a `map`).

The HTTP session is foreign code. A request is modelled by the values handed
to it (`BigBuy.Post`, `BigBuy.Forwarded`). The decoded JSON answer of the
tracking request is a parameter of `Tracking.GetTrackingOrders`.

Each computed value is checked against something defined apart from it.
Payloads have decoders, and the lemmas prove that decoding a payload gives
back the list it was built from. The forwarded path and `str()` of an int
have inverses. The tracking loop is proved equal to an independent definition ("the last tracking in the response whose id has the
same string form"), and that definition's contract states the matching
properties.

## Model

| member | source | states |
|---|---|---|
| `BigBuy.BaseUrl` | bigbuy/api.py:25-28 | the sandbox URL exactly when the mode is "sandbox"; the production URL for every other mode |
| `BigBuy.BaseUrlDefault` | bigbuy/api.py:19 | a client constructed without a mode uses the sandbox URL |
| `BigBuy.ApiPath` | bigbuy/api.py:48 | the forwarded path is '/', then the path, then ".json" |
| `BigBuy.ApiPathRoundTrip` | bigbuy/api.py:47-48 | the forwarded path gives back `path` when its leading '/' and trailing ".json" are stripped |
| `BigBuy.ApiPathInjective` | bigbuy/api.py:48 | two different API paths are never forwarded as the same path |
| `BigBuy.ApiPathExample` | bigbuy/api.py:48 | "foo" is forwarded as "/foo.json" |
| `BigBuy.ThrowFlag` | bigbuy/api.py:49-50 | `None` and `True` give true; the result is false exactly when the caller passed `False` |
| `BigBuy.ThrowFlagIdentity` | bigbuy/api.py:50 | other falsy values (0, "", []) still give true, because the test is by identity with `False` |
| `BigBuy.RequestApi` | bigbuy/api.py:42-51 | the method and the other positional and keyword arguments are passed on unchanged, the forwarded path decodes back to the given path, and throw is off only for `False` |
| `BigBuy.RequestApiThrowDefault` | bigbuy/api.py:42 | leaving `throw` out keeps raising on |
| `BigBuy.WrapOrder` | bigbuy/api.py:382-383 | the result always has the key "order"; an order that has it is unchanged; any other order becomes the one-key object `{"order": order}` |
| `BigBuy.WrapOrderIdempotent` | bigbuy/api.py:442-443 | wrapping twice gives the same body as wrapping once |
| `BigBuy.OrderPost` | bigbuy/api.py:382-488 | each of the three order endpoints posts the wrapped order to its own path; only `create_order` returns the raw response instead of the decoded JSON |
| `BigBuy.Records` | bigbuy/api.py:254 | one `{field: v}` record per value, at the same position as its value |
| `BigBuy.RecordsRoundTrip` | bigbuy/api.py:536 | decoding a list of records gives back exactly the values, in order |
| `BigBuy.StockPayload` | bigbuy/api.py:252-256 | the body nests "product_stock_request" and "products" as single keys around a list with one `"sku"` record per sku, at the sku's position |
| `BigBuy.StockPayloadRoundTrip` | bigbuy/api.py:252-256 | the stock payload decodes back to exactly the given skus, in order |
| `BigBuy.StockPost` | bigbuy/api.py:246-257 | the stock request posts to "catalog/productsstockbyreference", returns decoded JSON, and its body lists exactly the given skus |
| `BigBuy.TrackingPayload` | bigbuy/api.py:534-538 | the body nests "track" and "orders" as single keys around a list with one `"id"` record per order id, at the id's position, the id as given |
| `BigBuy.TrackingPayloadRoundTrip` | bigbuy/api.py:534-538 | the tracking payload decodes back to exactly the given order ids, in order |
| `Decimal.NatToString` | bigbuy/api.py:547 | the decimal text of a natural number is non-empty, all digits, and starts with '0' only for zero |
| `Decimal.IntToString` | bigbuy/api.py:549 | `str()` of an int is non-empty and starts with '-' exactly for negative numbers |
| `Decimal.IntToStringRoundTrip` | bigbuy/api.py:549 | reading the decimal text of an int back gives that int |
| `Decimal.IntToStringInjective` | bigbuy/api.py:547 | two different int ids never get the same dictionary key |
| `JsonValue.StrForm` | bigbuy/api.py:547 | `str()` of a string is the string itself; `str()` of an int reads back as that int |
| `Tracking.TrackingsOf` | bigbuy/api.py:540-546 | a list response is iterated element by element; an empty object or empty string gives no trackings |
| `Tracking.LastIndexWithId` | bigbuy/api.py:545-547 | when found, the position holds a tracking with that id and no later tracking has it; when not found, no tracking has it |
| `Tracking.LastTrackingWithId` | bigbuy/api.py:545-549 | an entry exists exactly when some returned tracking has that id; it then has that id, is one of the returned trackings, and no later tracking has the same id |
| `Tracking.IndexById` | bigbuy/api.py:545-547 | the dictionary's keys are exactly the `str()` forms of the returned ids, and each key holds a tracking with that id |
| `Tracking.IndexByIdIsLastWrite` | bigbuy/api.py:545-547 | looking a key up in the dictionary the loop builds gives the last tracking with that id, or `None` |
| `Tracking.GetTrackingOrders` | bigbuy/api.py:523-549 | the request posts to "tracking/orders" and its payload lists exactly the order ids; without `match_ids` the response is returned as it came, whatever it is; with it (the default) there is one entry per order id, and entry i is the last returned tracking whose `str(id)` equals `str(order_ids[i])`, or `None` |
| `Tracking.IntAndStringIdsMatch` | bigbuy/api.py:547-549 | the int order id 5 finds a tracking whose id is the string "5" |
| `Tracking.EmptyResponseMatchesNothing` | bigbuy/api.py:545-549 | an empty object or empty string as the response leaves every entry `None` |
| `Tracking.DuplicateIdLastWins` | bigbuy/api.py:546-547 | of two trackings with the same id, the second one is reported |

## Left out

- The HTTP session (`APISession`, `requests`): sending, `.json()` decoding, joining the base URL and the path, the user agent and `none_on_404`. It is foreign code; requests are modelled as the values handed to it.
- The Authorization header set in `__init__` and `__repr__`: they only format the app key into text.
- The catalog, shipping, order and tracking endpoint wrappers other than the ones above: each only formats a URL template and calls the session.
- `raise_for_response` and the exception types: they live in bigbuy/exceptions.py, which is not part of this model. The response classifier, the flattening of nested validation errors and the rate-limit reset time are therefore not modelled.
- Retrying on rate limits: `BigBuy.__init__` takes no retry flag, and any retry would happen inside the session library, which is not part of this model.
- JSON numbers with a fraction: `JsonValue.Json` has integers only.
- Iterables that can be consumed only once: the order ids are a sequence. The source iterates them twice, so a generator would produce an empty result list.
- Dictionary key order: JSON objects are Dafny maps. The ordering of keys plays no part in the operations modelled.
- Tracking.GetTrackingOrders: with `match_ids` set, it requires a response the loop gets through: a JSON list of trackings, or an empty object or empty string (these give all-`None` entries). The response is only cast to a list (bigbuy/api.py:540). Any other response makes the source raise, and is excluded: `null`, a number or a bool, a non-empty object (its string keys cannot be indexed by "id"), a non-empty string, or a list holding something other than an object with an "id".
- Tracking.GetTrackingOrders: it also requires every "id" to be `None`, a bool, an int or a string. The source would also form `str()` of a list, object or float id; such ids are excluded and not modelled.
- BigBuy.RequestApi: the passed-through arguments are JSON values here. Other Python objects the session accepts (files, timeouts) are not modelled; they are passed on unchanged in the same way.

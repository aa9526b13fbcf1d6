/**
 * `get_tracking_orders` (bigbuy/api.py): post the order ids, then, when
 * `match_ids` is set, line the returned trackings up with the requested
 * ids. Ids are compared by their `str()` form, so the int 5 and the string
 * "5" name the same order, and when several trackings share an id the one
 * that comes last in the response wins.
 */
module Tracking {
  import opened Wrappers
  import opened JsonValue
  import opened BigBuy

  /** A tracking the matching loop can read: a JSON object with a scalar "id". */
  predicate HasId(t: Json) {
    t.JObject? && "id" in t.fields && IsScalar(t.fields["id"])
  }

  predicate AllHaveIds(trackings: seq<Json>) {
    forall i :: 0 <= i < |trackings| ==> HasId(trackings[i])
  }

  /**
   * The responses the matching loop gets through. The response is only cast
   * to a list, never checked: a list of trackings with ids is iterated
   * element by element, and an empty object or an empty string gives
   * nothing to iterate. Any other response makes the loop raise.
   */
  predicate Iterable(response: Json) {
    || (response.JArray? && AllHaveIds(response.items))
    || response == JObject(map[])
    || response == JStr("")
  }

  /** The trackings the loop visits for an iterable response. */
  function TrackingsOf(response: Json): (trackings: seq<Json>)
    requires Iterable(response)
    ensures AllHaveIds(trackings)
    ensures response.JArray? ==> trackings == response.items
    ensures !response.JArray? ==> trackings == []
  {
    if response.JArray? then response.items else []
  }

  /** The dictionary key of a tracking: the `str()` form of its "id". */
  function IdKey(t: Json): string
    requires HasId(t)
  {
    StrForm(t.fields["id"])
  }

  /** Dictionary lookup that gives `None` for a missing key. */
  function Lookup(d: map<string, Json>, key: string): Option<Json> {
    if key in d then Some(d[key]) else None
  }

  /** Reference definition: the position of the last tracking whose id has string form `key`. */
  function LastIndexWithId(trackings: seq<Json>, key: string): (r: Option<nat>)
    requires AllHaveIds(trackings)
    ensures r.Some? ==> r.value < |trackings| && IdKey(trackings[r.value]) == key
    ensures r.Some? ==> forall j :: r.value < j < |trackings| ==> IdKey(trackings[j]) != key
    ensures r.None? ==> forall j :: 0 <= j < |trackings| ==> IdKey(trackings[j]) != key
  {
    if trackings == [] then None
    else if IdKey(trackings[|trackings| - 1]) == key then Some(|trackings| - 1)
    else LastIndexWithId(trackings[..|trackings| - 1], key)
  }

  /** The tracking reported for `key`: the last one carrying that id, if any. */
  function LastTrackingWithId(trackings: seq<Json>, key: string): (r: Option<Json>)
    requires AllHaveIds(trackings)
    ensures r.Some? <==> exists j :: 0 <= j < |trackings| && IdKey(trackings[j]) == key
    ensures r.Some? ==> HasId(r.value) && IdKey(r.value) == key
    ensures r.Some? ==> exists j :: 0 <= j < |trackings| && trackings[j] == r.value
                                   && forall j' :: j < j' < |trackings| ==> IdKey(trackings[j']) != key
  {
    match LastIndexWithId(trackings, key)
    case None => None
    case Some(j) => Some(trackings[j])
  }

  /** The dictionary the loop builds: each tracking stored under `str(id)`, later ones overwriting. */
  function IndexById(trackings: seq<Json>): (d: map<string, Json>)
    requires AllHaveIds(trackings)
    ensures d.Keys == set j | 0 <= j < |trackings| :: IdKey(trackings[j])
    ensures forall k :: k in d ==> HasId(d[k]) && IdKey(d[k]) == k
  {
    if trackings == [] then map[]
    else
      var last := trackings[|trackings| - 1];
      IndexById(trackings[..|trackings| - 1])[IdKey(last) := last]
  }

  /** Looking a key up in the built dictionary gives the last tracking with that id. */
  lemma {:induction false} IndexByIdIsLastWrite(trackings: seq<Json>, key: string)
    requires AllHaveIds(trackings)
    ensures Lookup(IndexById(trackings), key) == LastTrackingWithId(trackings, key)
  {
    if trackings != [] {
      IndexByIdIsLastWrite(trackings[..|trackings| - 1], key);
    }
  }

  /** What `get_tracking_orders` returns. */
  datatype TrackingResult =
    | Unmatched(response: Json)               // `match_ids` false: the decoded response as it came
    | Matched(entries: seq<Option<Json>>)     // one entry per requested order id

  /** Trackings are matched to the requested ids unless the caller says otherwise. */
  const DefaultMatchIds := true

  /**
   * `request` is the POST handed to the session; `response` is the JSON the
   * session decoded from its answer. With `match_ids` set, the matching loop
   * must get through the response without raising.
   */
  method GetTrackingOrders(orderIds: seq<OrderId>, response: Json, matchIds: bool := DefaultMatchIds)
    returns (request: Post, result: TrackingResult)
    requires matchIds ==> Iterable(response)
    ensures request.path == "tracking/orders" && request.decodeJson
    ensures ParseTrackingPayload(request.body) == Some(orderIds)
    ensures !matchIds ==> result == Unmatched(response)
    ensures matchIds ==> result.Matched? && |result.entries| == |orderIds|
    ensures matchIds ==> forall i :: 0 <= i < |orderIds| ==>
              result.entries[i] == LastTrackingWithId(TrackingsOf(response), StrForm(orderIds[i]))
  {
    TrackingPayloadRoundTrip(orderIds);
    request := Post("tracking/orders", TrackingPayload(orderIds), true);
    if !matchIds {
      return request, Unmatched(response);
    }
    var trackings := TrackingsOf(response);
    var trackingById: map<string, Json> := map[];
    for n := 0 to |trackings|
      invariant trackingById == IndexById(trackings[..n])
    {
      assert trackings[..n + 1][..n] == trackings[..n];
      trackingById := trackingById[IdKey(trackings[n]) := trackings[n]];
    }
    assert trackings[..|trackings|] == trackings;
    var entries := seq(|orderIds|, i requires 0 <= i < |orderIds| => Lookup(trackingById, StrForm(orderIds[i])));
    forall i | 0 <= i < |orderIds|
      ensures entries[i] == LastTrackingWithId(trackings, StrForm(orderIds[i]))
    {
      IndexByIdIsLastWrite(trackings, StrForm(orderIds[i]));
    }
    result := Matched(entries);
  }

  /** The int 5 and the string "5" name the same order. */
  lemma IntAndStringIdsMatch()
    ensures LastTrackingWithId([JObject(map["id" := JStr("5")])], StrForm(JInt(5))).Some?
  {
  }

  /** An empty object or empty string as the response leaves every entry `None`. */
  lemma EmptyResponseMatchesNothing(response: Json, key: string)
    requires response == JObject(map[]) || response == JStr("")
    ensures LastTrackingWithId(TrackingsOf(response), key) == None
  {
  }

  /** With two trackings for the same order, the later one is reported. */
  lemma DuplicateIdLastWins(first: Json, second: Json)
    requires HasId(first) && HasId(second) && IdKey(first) == IdKey(second)
    ensures LastTrackingWithId([first, second], IdKey(first)) == Some(second)
  {
  }
}

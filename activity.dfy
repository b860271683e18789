/**
 * The decoder of a subscriber's transaction activity. The wire payload
 * nests what the app shows flat:
 *
 *   { "subscriber": { "app_user_id": ... },
 *     "events": [ { "type": ..., "body": { "price": ..., ... } }, ... ] }
 *
 * `subscriber` and each event's `body` are mandatory objects; every field
 * read from them, and the event's outer `type`, is optional
 * (`decodeIfPresent`): absent or null gives `None`, a value of the wrong
 * type fails the whole decode. Keys the decoder does not name are ignored.
 */
module TransactionActivity {
  import opened Wrappers
  import opened Json

  /** One event, flattened: `eventType` is the outer `type`, all other fields come from `body`. */
  datatype Event = Event(
    eventType: Option<string>,
    price: Option<real>,
    currency: Option<string>,
    priceInPurchasedCurrency: Option<real>,
    eventTimestampMs: Option<int>,
    purchasedAtMs: Option<int>,
    expirationAtMs: Option<int>,
    productId: Option<string>,
    newProductId: Option<string>,
    offerCode: Option<string>,
    cancelReason: Option<string>,
    periodType: Option<string>,
    isTrialConversion: Option<bool>,
    transferredFrom: Option<seq<string>>,
    transferredTo: Option<seq<string>>)

  datatype ActivityResponse = ActivityResponse(events: Option<seq<Event>>, appUserId: Option<string>)

  /** The declared Swift type of a payload field. */
  datatype FieldType = StringField | DoubleField | IntField | BoolField | StringArrayField

  /** The payload fields of an event, in decoding order: snake_case wire key and declared type. */
  const BodyFields: seq<(string, FieldType)> := [
    ("price", DoubleField),
    ("currency", StringField),
    ("price_in_purchased_currency", DoubleField),
    ("event_timestamp_ms", IntField),
    ("purchased_at_ms", IntField),
    ("expiration_at_ms", IntField),
    ("product_id", StringField),
    ("new_product_id", StringField),
    ("offer_code", StringField),
    ("cancel_reason", StringField),
    ("period_type", StringField),
    ("is_trial_conversion", BoolField),
    ("transferred_from", StringArrayField),
    ("transferred_to", StringArrayField)]

  /** Whether `key` names a payload field. */
  predicate IsBodyKey(key: string) {
    exists i :: 0 <= i < |BodyFields| && BodyFields[i].0 == key
  }

  predicate HasType(v: Json, t: FieldType) {
    match t
    case StringField => AsString(v).Some?
    case DoubleField => AsDouble(v).Some?
    case IntField => AsInt(v).Some?
    case BoolField => AsBool(v).Some?
    case StringArrayField => AsStringArray(v).Some?
  }

  /** The field `key` of `body` is absent, null, or of type `t`. */
  predicate FieldConforms(body: map<string, Json>, key: string, t: FieldType) {
    key !in body || body[key].Null? || HasType(body[key], t)
  }

  /** Every payload field that is present and not null has its declared type. */
  predicate BodyConforms(body: map<string, Json>) {
    forall i :: 0 <= i < |BodyFields| ==> FieldConforms(body, BodyFields[i].0, BodyFields[i].1)
  }

  /** Every payload field decodes, listed key by key in the order the decoder reads them. */
  predicate BodyFieldsFit(body: map<string, Json>) {
    && Fits(body, "price", AsDouble)
    && Fits(body, "currency", AsString)
    && Fits(body, "price_in_purchased_currency", AsDouble)
    && Fits(body, "event_timestamp_ms", AsInt)
    && Fits(body, "purchased_at_ms", AsInt)
    && Fits(body, "expiration_at_ms", AsInt)
    && Fits(body, "product_id", AsString)
    && Fits(body, "new_product_id", AsString)
    && Fits(body, "offer_code", AsString)
    && Fits(body, "cancel_reason", AsString)
    && Fits(body, "period_type", AsString)
    && Fits(body, "is_trial_conversion", AsBool)
    && Fits(body, "transferred_from", AsStringArray)
    && Fits(body, "transferred_to", AsStringArray)
  }

  /**
   * The flat event an outer object and its body describe: `eventType` is
   * read from the outer `type`, each payload field from its own body key,
   * with its own type.
   */
  function Flatten(outer: map<string, Json>, body: map<string, Json>): (e: Event)
    ensures e.eventType.Some? <==> "type" in outer && outer["type"].Str?
    ensures e.eventType.Some? ==> outer["type"] == Str(e.eventType.value)
    ensures e.price.Some? <==> "price" in body && body["price"].Num?
    ensures e.price.Some? ==> body["price"] == Num(e.price.value)
    ensures e.currency.Some? <==> "currency" in body && body["currency"].Str?
    ensures e.currency.Some? ==> body["currency"] == Str(e.currency.value)
    ensures e.priceInPurchasedCurrency.Some? <==>
      "price_in_purchased_currency" in body && body["price_in_purchased_currency"].Num?
    ensures e.priceInPurchasedCurrency.Some? ==>
      body["price_in_purchased_currency"] == Num(e.priceInPurchasedCurrency.value)
    ensures e.eventTimestampMs.Some? <==>
      "event_timestamp_ms" in body && AsInt(body["event_timestamp_ms"]).Some?
    ensures e.eventTimestampMs.Some? ==> AsInt(body["event_timestamp_ms"]) == e.eventTimestampMs
    ensures e.purchasedAtMs.Some? <==> "purchased_at_ms" in body && AsInt(body["purchased_at_ms"]).Some?
    ensures e.purchasedAtMs.Some? ==> AsInt(body["purchased_at_ms"]) == e.purchasedAtMs
    ensures e.expirationAtMs.Some? <==> "expiration_at_ms" in body && AsInt(body["expiration_at_ms"]).Some?
    ensures e.expirationAtMs.Some? ==> AsInt(body["expiration_at_ms"]) == e.expirationAtMs
    ensures e.productId.Some? <==> "product_id" in body && body["product_id"].Str?
    ensures e.productId.Some? ==> body["product_id"] == Str(e.productId.value)
    ensures e.newProductId.Some? <==> "new_product_id" in body && body["new_product_id"].Str?
    ensures e.newProductId.Some? ==> body["new_product_id"] == Str(e.newProductId.value)
    ensures e.offerCode.Some? <==> "offer_code" in body && body["offer_code"].Str?
    ensures e.offerCode.Some? ==> body["offer_code"] == Str(e.offerCode.value)
    ensures e.cancelReason.Some? <==> "cancel_reason" in body && body["cancel_reason"].Str?
    ensures e.cancelReason.Some? ==> body["cancel_reason"] == Str(e.cancelReason.value)
    ensures e.periodType.Some? <==> "period_type" in body && body["period_type"].Str?
    ensures e.periodType.Some? ==> body["period_type"] == Str(e.periodType.value)
    ensures e.isTrialConversion.Some? <==> "is_trial_conversion" in body && body["is_trial_conversion"].Bool?
    ensures e.isTrialConversion.Some? ==> body["is_trial_conversion"] == Bool(e.isTrialConversion.value)
    ensures e.transferredFrom.Some? <==>
      "transferred_from" in body && AsStringArray(body["transferred_from"]).Some?
    ensures e.transferredFrom.Some? ==> AsStringArray(body["transferred_from"]) == e.transferredFrom
    ensures e.transferredTo.Some? <==> "transferred_to" in body && AsStringArray(body["transferred_to"]).Some?
    ensures e.transferredTo.Some? ==> AsStringArray(body["transferred_to"]) == e.transferredTo
  {
    Event(
      Present(outer, "type", AsString),
      Present(body, "price", AsDouble),
      Present(body, "currency", AsString),
      Present(body, "price_in_purchased_currency", AsDouble),
      Present(body, "event_timestamp_ms", AsInt),
      Present(body, "purchased_at_ms", AsInt),
      Present(body, "expiration_at_ms", AsInt),
      Present(body, "product_id", AsString),
      Present(body, "new_product_id", AsString),
      Present(body, "offer_code", AsString),
      Present(body, "cancel_reason", AsString),
      Present(body, "period_type", AsString),
      Present(body, "is_trial_conversion", AsBool),
      Present(body, "transferred_from", AsStringArray),
      Present(body, "transferred_to", AsStringArray))
  }

  /** Decoding one event: the body first, then `type`, then each payload field in turn. */
  function DecodeEvent(j: Json): (r: Result<Event, DecodingError>)
    ensures r.Success? <==>
      && j.Obj? && "body" in j.fields && j.fields["body"].Obj?
      && Fits(j.fields, "type", AsString)
      && BodyFieldsFit(j.fields["body"].fields)
    ensures r.Success? ==> r.value == Flatten(j.fields, j.fields["body"].fields)
    ensures j.Obj? && "body" !in j.fields ==> r == Failure(KeyNotFound("body"))
  {
    if !j.Obj? then Failure(TypeMismatch(""))
    else
      var outer := j.fields;
      var body :- NestedObject(outer, "body");
      var eventType :- DecodeIfPresent(outer, "type", AsString);
      var price :- DecodeIfPresent(body, "price", AsDouble);
      var currency :- DecodeIfPresent(body, "currency", AsString);
      var priceInPurchasedCurrency :- DecodeIfPresent(body, "price_in_purchased_currency", AsDouble);
      var eventTimestampMs :- DecodeIfPresent(body, "event_timestamp_ms", AsInt);
      var purchasedAtMs :- DecodeIfPresent(body, "purchased_at_ms", AsInt);
      var expirationAtMs :- DecodeIfPresent(body, "expiration_at_ms", AsInt);
      var productId :- DecodeIfPresent(body, "product_id", AsString);
      var newProductId :- DecodeIfPresent(body, "new_product_id", AsString);
      var offerCode :- DecodeIfPresent(body, "offer_code", AsString);
      var cancelReason :- DecodeIfPresent(body, "cancel_reason", AsString);
      var periodType :- DecodeIfPresent(body, "period_type", AsString);
      var isTrialConversion :- DecodeIfPresent(body, "is_trial_conversion", AsBool);
      var transferredFrom :- DecodeIfPresent(body, "transferred_from", AsStringArray);
      var transferredTo :- DecodeIfPresent(body, "transferred_to", AsStringArray);
      Success(Event(eventType, price, currency, priceInPurchasedCurrency, eventTimestampMs,
                    purchasedAtMs, expirationAtMs, productId, newProductId, offerCode,
                    cancelReason, periodType, isTrialConversion, transferredFrom, transferredTo))
  }

  /** `[RCTransactionDetailEvent]`: every element must decode, and the order is kept. */
  function DecodeEvents(items: seq<Json>): (r: Result<seq<Event>, DecodingError>)
    ensures r.Success? <==> forall i :: 0 <= i < |items| ==> DecodeEvent(items[i]).Success?
    ensures r.Success? ==>
      |r.value| == |items| && forall i :: 0 <= i < |items| ==> DecodeEvent(items[i]) == Success(r.value[i])
  {
    if items == [] then Success([])
    else
      var first :- DecodeEvent(items[0]);
      var rest :- DecodeEvents(items[1..]);
      Success([first] + rest)
  }

  /** `decodeIfPresent([RCTransactionDetailEvent].self, forKey: .events)`. */
  function DecodeEventsIfPresent(obj: map<string, Json>): (r: Result<Option<seq<Event>>, DecodingError>)
    ensures "events" !in obj || obj["events"].Null? ==> r == Success(None)
    ensures "events" in obj && !obj["events"].Null? && !obj["events"].Arr? ==> r == Failure(TypeMismatch("events"))
    ensures "events" in obj && obj["events"].Arr? ==>
      r.Success? == DecodeEvents(obj["events"].items).Success? &&
      (r.Success? ==> r.value == Some(DecodeEvents(obj["events"].items).value))
  {
    if "events" !in obj || obj["events"].Null? then Success(None)
    else if !obj["events"].Arr? then Failure(TypeMismatch("events"))
    else
      var events :- DecodeEvents(obj["events"].items);
      Success(Some(events))
  }

  /** Decoding a response: the `subscriber` object first, then `events`, then `app_user_id`. */
  function DecodeResponse(j: Json): (r: Result<ActivityResponse, DecodingError>)
    ensures r.Success? <==>
      && j.Obj? && "subscriber" in j.fields && j.fields["subscriber"].Obj?
      && DecodeEventsIfPresent(j.fields).Success?
      && Fits(j.fields["subscriber"].fields, "app_user_id", AsString)
    ensures r.Success? ==>
      && r.value.events == DecodeEventsIfPresent(j.fields).value
      && r.value.appUserId == Present(j.fields["subscriber"].fields, "app_user_id", AsString)
  {
    if !j.Obj? then Failure(TypeMismatch(""))
    else
      var subscriber :- NestedObject(j.fields, "subscriber");
      var events :- DecodeEventsIfPresent(j.fields);
      var appUserId :- DecodeIfPresent(subscriber, "app_user_id", AsString);
      Success(ActivityResponse(events, appUserId))
  }

  // ---------------------------------------------------------------------
  // Properties of the decoder
  // ---------------------------------------------------------------------

  /** The key-by-key decoding order and the field table accept exactly the same bodies. */
  lemma BodyFieldsFitIffConforms(body: map<string, Json>)
    ensures BodyFieldsFit(body) <==> BodyConforms(body)
  {
    if BodyConforms(body) {
      var n := |BodyFields|;
      assert n == 14;
      assert FieldConforms(body, BodyFields[0].0, BodyFields[0].1);
      assert FieldConforms(body, BodyFields[1].0, BodyFields[1].1);
      assert FieldConforms(body, BodyFields[2].0, BodyFields[2].1);
      assert FieldConforms(body, BodyFields[3].0, BodyFields[3].1);
      assert FieldConforms(body, BodyFields[4].0, BodyFields[4].1);
      assert FieldConforms(body, BodyFields[5].0, BodyFields[5].1);
      assert FieldConforms(body, BodyFields[6].0, BodyFields[6].1);
      assert FieldConforms(body, BodyFields[7].0, BodyFields[7].1);
      assert FieldConforms(body, BodyFields[8].0, BodyFields[8].1);
      assert FieldConforms(body, BodyFields[9].0, BodyFields[9].1);
      assert FieldConforms(body, BodyFields[10].0, BodyFields[10].1);
      assert FieldConforms(body, BodyFields[11].0, BodyFields[11].1);
      assert FieldConforms(body, BodyFields[12].0, BodyFields[12].1);
      assert FieldConforms(body, BodyFields[13].0, BodyFields[13].1);
    }
    if BodyFieldsFit(body) {
      forall i | 0 <= i < |BodyFields|
        ensures FieldConforms(body, BodyFields[i].0, BodyFields[i].1)
      {
      }
    }
  }

  /** An event decodes iff it has a body object, its `type` (if any) is a string, and its body conforms. */
  lemma DecodeEventIffConforms(j: Json)
    ensures DecodeEvent(j).Success? <==>
      && j.Obj? && "body" in j.fields && j.fields["body"].Obj?
      && (("type" in j.fields && !j.fields["type"].Null?) ==> j.fields["type"].Str?)
      && BodyConforms(j.fields["body"].fields)
  {
    if j.Obj? && "body" in j.fields && j.fields["body"].Obj? {
      BodyFieldsFitIffConforms(j.fields["body"].fields);
    }
  }

  /** A present payload value of the wrong type fails the whole event. */
  lemma MismatchedFieldFails(j: Json, i: nat)
    requires j.Obj? && "body" in j.fields && j.fields["body"].Obj?
    requires i < |BodyFields| && !FieldConforms(j.fields["body"].fields, BodyFields[i].0, BodyFields[i].1)
    ensures DecodeEvent(j).Failure?
  {
    DecodeEventIffConforms(j);
  }

  /** A missing outer `type` is not an error: it decodes as `None`. */
  lemma MissingTypeIsNone(j: Json)
    requires j.Obj? && "type" !in j.fields && "body" in j.fields && j.fields["body"].Obj?
    requires BodyConforms(j.fields["body"].fields)
    ensures DecodeEvent(j).Success? && DecodeEvent(j).value.eventType == None
  {
    DecodeEventIffConforms(j);
  }

  /** Outer keys other than `type` and `body` are never read: not even a same-named payload key. */
  lemma OuterKeysIgnored(fields: map<string, Json>, key: string, v: Json)
    requires key != "type" && key != "body"
    ensures DecodeEvent(Obj(fields[key := v])) == DecodeEvent(Obj(fields))
  {
  }

  /** Body keys outside the field table (`app_id`, `country_code`, ...) are never read. */
  lemma UnknownBodyKeysIgnored(fields: map<string, Json>, body: map<string, Json>, key: string, v: Json)
    requires !IsBodyKey(key)
    ensures DecodeEvent(Obj(fields["body" := Obj(body[key := v])])).Success? <==>
            DecodeEvent(Obj(fields["body" := Obj(body)])).Success?
    ensures DecodeEvent(Obj(fields["body" := Obj(body[key := v])])).Success? ==>
      DecodeEvent(Obj(fields["body" := Obj(body[key := v])])).value == DecodeEvent(Obj(fields["body" := Obj(body)])).value
  {
    forall i | 0 <= i < |BodyFields|
      ensures AgreeOn(body[key := v], body, BodyFields[i].0)
    {
      assert BodyFields[i].0 != key;
    }
    SameLookups(fields, body[key := v], body);
  }

  /** Two bodies that agree on every payload key decode alike. */
  lemma SameLookups(fields: map<string, Json>, b1: map<string, Json>, b2: map<string, Json>)
    requires forall i :: 0 <= i < |BodyFields| ==> AgreeOn(b1, b2, BodyFields[i].0)
    ensures DecodeEvent(Obj(fields["body" := Obj(b1)])).Success? <==> DecodeEvent(Obj(fields["body" := Obj(b2)])).Success?
    ensures DecodeEvent(Obj(fields["body" := Obj(b1)])).Success? ==>
      DecodeEvent(Obj(fields["body" := Obj(b1)])).value == DecodeEvent(Obj(fields["body" := Obj(b2)])).value
  {
    SameFieldsFit(fields, b1, b2);
  }

  /** Two bodies that agree on every payload key fit alike and flatten alike. */
  lemma SameFieldsFit(fields: map<string, Json>, b1: map<string, Json>, b2: map<string, Json>)
    requires forall i :: 0 <= i < |BodyFields| ==> AgreeOn(b1, b2, BodyFields[i].0)
    ensures BodyFieldsFit(b1) == BodyFieldsFit(b2)
    ensures Flatten(fields, b1) == Flatten(fields, b2)
  {
    SameField(b1, b2, 0, AsDouble);
    SameField(b1, b2, 1, AsString);
    SameField(b1, b2, 2, AsDouble);
    SameField(b1, b2, 3, AsInt);
    SameField(b1, b2, 4, AsInt);
    SameField(b1, b2, 5, AsInt);
    SameField(b1, b2, 6, AsString);
    SameField(b1, b2, 7, AsString);
    SameField(b1, b2, 8, AsString);
    SameField(b1, b2, 9, AsString);
    SameField(b1, b2, 10, AsString);
    SameField(b1, b2, 11, AsBool);
    SameField(b1, b2, 12, AsStringArray);
    SameField(b1, b2, 13, AsStringArray);
  }

  /** `b1` and `b2` hold the same value, or no value, at `key`. */
  predicate AgreeOn(b1: map<string, Json>, b2: map<string, Json>, key: string) {
    (key in b1 <==> key in b2) && (key in b1 ==> b1[key] == b2[key])
  }

  lemma SameField<T>(b1: map<string, Json>, b2: map<string, Json>, i: nat, cast: Json -> Option<T>)
    requires i < |BodyFields| && AgreeOn(b1, b2, BodyFields[i].0)
    ensures Fits(b1, BodyFields[i].0, cast) == Fits(b2, BodyFields[i].0, cast)
    ensures Present(b1, BodyFields[i].0, cast) == Present(b2, BodyFields[i].0, cast)
  {
  }

  /** A response without a `subscriber` object fails, whatever `events` holds. */
  lemma SubscriberIsMandatory(j: Json)
    requires j.Obj? && !("subscriber" in j.fields && j.fields["subscriber"].Obj?)
    ensures DecodeResponse(j).Failure?
    ensures "subscriber" !in j.fields ==> DecodeResponse(j) == Failure(KeyNotFound("subscriber"))
  {
  }

  /** An absent or null `events` and an absent or null `app_user_id` both decode as `None`. */
  lemma AbsentResponseFieldsAreNone(subscriber: map<string, Json>, fields: map<string, Json>)
    requires "app_user_id" !in subscriber || subscriber["app_user_id"].Null?
    requires "events" !in fields || fields["events"].Null?
    ensures DecodeResponse(Obj(fields["subscriber" := Obj(subscriber)])) ==
      Success(ActivityResponse(None, None))
  {
  }

  /** The body of the example event shipped with the app. */
  function StubBody(): map<string, Json> {
    map[
      "app_id" := Str("app001"),
      "app_user_id" := Str("app_user001"),
      "country_code" := Str("TR"),
      "currency" := Str("TRY"),
      "entitlement_ids" := Arr([Str("supporter")]),
      "environment" := Str("PRODUCTION"),
      "event_timestamp_ms" := Num(1705350714054.0),
      "expiration_at_ms" := Num(1708029108000.0),
      "is_family_share" := Bool(false),
      "offer_code" := Str("offer_code"),
      "period_type" := Str("NORMAL"),
      "price" := Num(99.99),
      "price_in_purchased_currency" := Num(2.99),
      "product_id" := Str("kedi.supporter.monthly"),
      "purchased_at_ms" := Num(1705350708000.0),
      "store" := Str("APP_STORE"),
      "takehome_percentage" := Num(0.85),
      "transaction_id" := Str("transaction001")]
  }

  /** The example event shipped with the app, as JSON. */
  function StubJson(): Json {
    Obj(map["body" := Obj(StubBody()), "type" := Str("PURCHASES_INITIAL_PURCHASE"), "uuid" := Str("uuid001")])
  }

  /** The payload values the example body holds under the names the decoder reads. */
  lemma StubBodyPresentKeys()
    ensures StubBody()["price"] == Num(99.99)
    ensures StubBody()["currency"] == Str("TRY")
    ensures StubBody()["price_in_purchased_currency"] == Num(2.99)
    ensures StubBody()["event_timestamp_ms"] == Num(1705350714054.0)
    ensures StubBody()["purchased_at_ms"] == Num(1705350708000.0)
    ensures StubBody()["expiration_at_ms"] == Num(1708029108000.0)
    ensures StubBody()["product_id"] == Str("kedi.supporter.monthly")
    ensures StubBody()["offer_code"] == Str("offer_code")
    ensures StubBody()["period_type"] == Str("NORMAL")
  {
  }

  /** The payload fields the example body leaves out. */
  lemma StubBodyAbsentKeys()
    ensures "new_product_id" !in StubBody() && "cancel_reason" !in StubBody()
    ensures "is_trial_conversion" !in StubBody()
    ensures "transferred_from" !in StubBody() && "transferred_to" !in StubBody()
  {
  }

  /** The example event decodes, ignoring the keys the decoder does not name. */
  lemma StubDecodes()
    ensures DecodeEvent(StubJson()) == Success(Event(
      Some("PURCHASES_INITIAL_PURCHASE"), Some(99.99), Some("TRY"), Some(2.99),
      Some(1705350714054), Some(1705350708000), Some(1708029108000),
      Some("kedi.supporter.monthly"), None, Some("offer_code"), None, Some("NORMAL"),
      None, None, None))
  {
    StubBodyPresentKeys();
    StubBodyAbsentKeys();
    var outer := StubJson().fields;
    assert outer["body"] == Obj(StubBody());
    assert outer["type"] == Str("PURCHASES_INITIAL_PURCHASE");
    assert BodyFieldsFit(StubBody());
  }
}

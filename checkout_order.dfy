/** The mock PayPal order route (app/api/checkout/create-paypal-order/route.ts).
    It checks that the four booking fields are present and truthy and answers
    with a made-up order id; no payment provider is contacted.

    `Date.now()` and `Math.random().toString(36)` are parameters: `now` is
    the timestamp in milliseconds and `randomText` the base-36 text of the
    random number (for example "0.4fzyo82mvyr"). */
module CheckoutOrder {
  import opened JsValues

  datatype Response = Response(status: int, body: Json)

  const MissingFieldsMessage := "Missing required fields"
  const FailureMessage := "Failed to create order"

  function ErrorBody(message: string): Json {
    JObj(map["error" := JStr(message)])
  }

  /** `order-${Date.now()}-${Math.random().toString(36).substring(2, 7)}` */
  function OrderId(now: nat, randomText: string): string {
    "order-" + DecimalString(now) + "-" + Substring(randomText, 2, 7)
  }

  /** The field is present and truthy. */
  predicate Provided(body: Json, key: string) {
    Get(Some(body), key).Ok? && Truthy(Get(Some(body), key).value)
  }

  /** `POST`. `body` is `None` when `request.json()` rejects the text. */
  function CreateOrder(body: Option<Json>, now: nat, randomText: string): Response {
    if body.None? || body.value == JNull then
      // `request.json()` throws, or destructuring `null` throws
      Response(500, ErrorBody(FailureMessage))
    else if !Provided(body.value, "tourId") || !Provided(body.value, "scheduleId")
         || !Provided(body.value, "participants") || !Provided(body.value, "totalPrice") then
      Response(400, ErrorBody(MissingFieldsMessage))
    else
      Response(200, JObj(map["orderID" := JStr(OrderId(now, randomText))]))
  }

  /** A body that does not parse, or parses to `null`, gets 500. */
  lemma UnparsedBodyFails(body: Option<Json>, now: nat, randomText: string)
    ensures CreateOrder(body, now, randomText).status == 500
      <==> body.None? || body == Some(JNull)
    ensures body.None? || body == Some(JNull) ==>
      CreateOrder(body, now, randomText) == Response(500, ErrorBody(FailureMessage))
  {
  }

  /** Any falsy field, or any field that is absent, gets 400. */
  lemma MissingFieldRejected(body: Json, now: nat, randomText: string)
    requires body != JNull
    ensures CreateOrder(Some(body), now, randomText).status == 400 <==>
      exists key :: key in ["tourId", "scheduleId", "participants", "totalPrice"] && !Provided(body, key)
    ensures CreateOrder(Some(body), now, randomText).status == 400 ==>
      CreateOrder(Some(body), now, randomText).body == ErrorBody(MissingFieldsMessage)
  {
    var keys := ["tourId", "scheduleId", "participants", "totalPrice"];
    if !Provided(body, "tourId") { assert keys[0] == "tourId"; }
    if !Provided(body, "scheduleId") { assert keys[1] == "scheduleId"; }
    if !Provided(body, "participants") { assert keys[2] == "participants"; }
    if !Provided(body, "totalPrice") { assert keys[3] == "totalPrice"; }
  }

  /** Zero participants, a zero price and an empty id count as missing. */
  lemma ZeroAndEmptyAreMissing(fields: map<string, Json>, now: nat, randomText: string)
    requires ("participants" in fields && fields["participants"] == JNum(0.0))
          || ("totalPrice" in fields && fields["totalPrice"] == JNum(0.0))
          || ("tourId" in fields && fields["tourId"] == JStr(""))
          || ("scheduleId" in fields && fields["scheduleId"] == JStr(""))
    ensures CreateOrder(Some(JObj(fields)), now, randomText) == Response(400, ErrorBody(MissingFieldsMessage))
  {
  }

  /** With all four fields truthy the answer has the default status and only
      an `orderID`: "order-", the timestamp in decimal, "-", and at most five
      characters taken from the random text. */
  lemma AcceptedOrder(body: Json, now: nat, randomText: string)
    requires body != JNull
    requires Provided(body, "tourId") && Provided(body, "scheduleId")
    requires Provided(body, "participants") && Provided(body, "totalPrice")
    ensures var r := CreateOrder(Some(body), now, randomText);
      && r.status == 200
      && r.body.JObj? && r.body.fields.Keys == {"orderID"}
      && r.body.fields["orderID"].JStr?
      && exists suffix ::
        && |suffix| <= 5
        && r.body.fields["orderID"].s == "order-" + DecimalString(now) + "-" + suffix
  {
    var suffix := Substring(randomText, 2, 7);
    assert |suffix| <= 5;
  }

  /** The timestamp can be read back from the order id: the digits after
      "order-" up to the next "-" are `now` in decimal. */
  lemma OrderIdTimestamp(now: nat, randomText: string)
    ensures var id := OrderId(now, randomText);
      var digits := DecimalString(now);
      && id[..6] == "order-"
      && id[6..6 + |digits|] == digits
      && id[6 + |digits|] == '-'
      && DecimalValue(id[6..6 + |digits|]) == now
  {
    var digits := DecimalString(now);
    var id := OrderId(now, randomText);
    assert id == ("order-" + digits) + "-" + Substring(randomText, 2, 7);
    assert id[6..6 + |digits|] == digits;
    DecimalRoundTrip(now);
  }

  /** Fields other than the four checked ones (contact details, say) change
      nothing in the answer. */
  lemma ExtraFieldsIgnored(a: map<string, Json>, b: map<string, Json>, now: nat, randomText: string)
    requires forall key :: key in ["tourId", "scheduleId", "participants", "totalPrice"] ==>
      (key in a <==> key in b) && (key in a ==> a[key] == b[key])
    ensures CreateOrder(Some(JObj(a)), now, randomText) == CreateOrder(Some(JObj(b)), now, randomText)
  {
    var keys := ["tourId", "scheduleId", "participants", "totalPrice"];
    assert keys[0] == "tourId" && keys[1] == "scheduleId";
    assert keys[2] == "participants" && keys[3] == "totalPrice";
  }
}

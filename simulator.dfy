/**
 * The Air780E device simulator used to exercise the bridge: it makes up an
 * IMEI, publishes heartbeats with a drifting signal and battery, answers
 * each outgoing-SMS request addressed to it with one delivery report, and
 * can inject an incoming SMS.
 *
 * Randomness (digits, signal delta, battery drain, delivery outcome), the
 * clock and the broker connection are parameters; published messages are
 * recorded in `published`.
 */
module Air780e {
  import opened Wrappers
  import opened Decimal
  import opened Json
  import opened Schemas
  import opened Mqtt

  // ------------------------------------------------------------ digit lists

  predicate Decimals(ds: seq<int>) {
    forall i :: 0 <= i < |ds| ==> 0 <= ds[i] <= 9
  }

  /** `"".join(str(d) for d in ds)`. */
  function DigitsText(ds: seq<int>): (s: string)
    requires Decimals(ds)
    ensures |s| == |ds| && AllDigits(s)
    ensures forall i :: 0 <= i < |ds| ==> DigitValue(s[i]) == ds[i]
  {
    if ds == [] then "" else [DigitChar(ds[0])] + DigitsText(ds[1..])
  }

  /** Python's built-in `sum`. */
  function Sum(s: seq<int>): int {
    if s == [] then 0 else Sum(s[..|s| - 1]) + s[|s| - 1]
  }

  /** `d *= 2; if d > 9: d -= 9`. */
  function Fold(d: int): int {
    if 2 * d > 9 then 2 * d - 9 else 2 * d
  }

  /** `ds` with `Fold` applied at the indices `start, start + 2, ...`. */
  function FoldedFrom(ds: seq<int>, start: nat): seq<int>
    requires start < 2
  {
    seq(|ds|, i requires 0 <= i < |ds| => if i % 2 == start then Fold(ds[i]) else ds[i])
  }

  /** Folding keeps every digit a digit. */
  lemma FoldedDigits(ds: seq<int>, start: nat)
    requires Decimals(ds) && start < 2
    ensures Decimals(FoldedFrom(ds, start)) && Sum(FoldedFrom(ds, start)) >= 0
  {
    SumNonNegative(FoldedFrom(ds, start));
  }

  lemma {:induction false} SumNonNegative(s: seq<int>)
    requires Decimals(s)
    ensures 0 <= Sum(s) <= 9 * |s|
  {
    if s != [] {
      SumNonNegative(s[..|s| - 1]);
    }
  }

  /** The check digit `_generate_imei` appends when folding from index `start`. */
  function CheckDigitFrom(body: seq<int>, start: nat): (c: int)
    requires Decimals(body) && start < 2
    ensures 0 <= c <= 9
    ensures (Sum(FoldedFrom(body, start)) + c) % 10 == 0
  {
    (10 - Sum(FoldedFrom(body, start)) % 10) % 10
  }

  /** The 14 digits before the check digit: "35" and twelve random digits. */
  function ImeiBody(randomDigits: seq<int>): seq<int> {
    [3, 5] + randomDigits
  }

  // ----------------------------------------------------------- IMEI helpers

  /**
   * Lines 82-88 of `_generate_imei`: fold every second digit starting at
   * index `start` in place, sum, and return the digit that brings the sum to
   * a multiple of ten.
   */
  method CheckDigit(body: seq<int>, start: nat) returns (check: int)
    requires Decimals(body) && start < 2
    ensures check == CheckDigitFrom(body, start)
  {
    var digits := new int[|body|](i requires 0 <= i < |body| => body[i]);
    var i := start;
    while i < digits.Length
      invariant start <= i <= digits.Length + 1 && i % 2 == start
      invariant forall j :: 0 <= j < digits.Length ==>
        digits[j] == if j < i && j % 2 == start then Fold(body[j]) else body[j]
    {
      digits[i] := digits[i] * 2;
      if digits[i] > 9 {
        digits[i] := digits[i] - 9;
      }
      i := i + 2;
    }
    assert digits[..] == FoldedFrom(body, start);
    var checksum := Sum(digits[..]);
    check := (10 - checksum % 10) % 10;
  }

  /**
   * `_generate_imei` as written: folds the digits at EVEN indices 0, 2, ..., 12.
   * `randomDigits` are the twelve `random.randint(0, 9)` draws.
   */
  method GenerateImei(randomDigits: seq<int>) returns (imei: string)
    requires |randomDigits| == 12 && Decimals(randomDigits)
    ensures var body := ImeiBody(randomDigits);
      imei == DigitsText(body + [CheckDigitFrom(body, 0)])
    ensures |imei| == 15 && AllDigits(imei) && imei[..2] == "35"
  {
    var body := ImeiBody(randomDigits);
    var check := CheckDigit(body, 0);
    imei := DigitsText(body + [check]);
    assert DigitValue(imei[0]) == 3 && DigitValue(imei[1]) == 5;
  }

  // --------------------------------------------------- Luhn (3GPP TS 23.003)

  /**
   * The Luhn digits of Annex B of 3GPP TS 23.003: counting from the
   * rightmost (check) digit, every second digit to its left is folded.
   */
  function LuhnFolded(ds: seq<int>): seq<int> {
    seq(|ds|, i requires 0 <= i < |ds| => if (|ds| - 1 - i) % 2 == 1 then Fold(ds[i]) else ds[i])
  }

  /** A digit string whose Luhn sum is a multiple of ten. */
  predicate LuhnValid(ds: seq<int>) {
    Sum(LuhnFolded(ds)) % 10 == 0
  }

  lemma SumOfSnoc(s: seq<int>, x: int)
    ensures Sum(s + [x]) == Sum(s) + x
  {
    assert (s + [x])[..|s|] == s;
  }

  /**
   * Folding from index 1 is what Luhn folds in a 14-digit body, so the check
   * digit computed that way makes a valid IMEI.
   */
  lemma OddFoldIsLuhn(body: seq<int>)
    requires |body| == 14 && Decimals(body)
    ensures LuhnValid(body + [CheckDigitFrom(body, 1)])
  {
    var c := CheckDigitFrom(body, 1);
    var ds := body + [c];
    assert LuhnFolded(ds) == FoldedFrom(body, 1) + [c];
    SumOfSnoc(FoldedFrom(body, 1), c);
  }

  /**
   * The IMEI generator as evidently intended (a valid IMEI): the same steps
   * with the folding starting at index 1.
   */
  method GenerateValidImei(randomDigits: seq<int>) returns (imei: string)
    requires |randomDigits| == 12 && Decimals(randomDigits)
    ensures var body := ImeiBody(randomDigits);
      && imei == DigitsText(body + [CheckDigitFrom(body, 1)])
      && LuhnValid(body + [CheckDigitFrom(body, 1)])
    ensures |imei| == 15 && AllDigits(imei) && imei[..2] == "35"
  {
    var body := ImeiBody(randomDigits);
    var check := CheckDigit(body, 1);
    OddFoldIsLuhn(body);
    imei := DigitsText(body + [check]);
    assert DigitValue(imei[0]) == 3 && DigitValue(imei[1]) == 5;
  }

  /**
   * The generator as written does not produce valid IMEIs: for twelve zero
   * draws it appends 9, giving 350000000000009, whose Luhn check digit is 6.
   */
  lemma EvenFoldIsNotLuhn()
    ensures var body := ImeiBody([0, 0, 0, 0, 0, 0, 0, 0, 0, 0, 0, 0]);
      && CheckDigitFrom(body, 0) == 9 && CheckDigitFrom(body, 1) == 6
      && !LuhnValid(body + [CheckDigitFrom(body, 0)])
  {
    ZeroBodyFolds();
    ZeroBodyLuhn();
  }

  /** The sums the two foldings give for "35" and twelve zeros: 11 and 4. */
  lemma ZeroBodyFolds()
    ensures var body := ImeiBody([0, 0, 0, 0, 0, 0, 0, 0, 0, 0, 0, 0]);
      Sum(FoldedFrom(body, 0)) == 11 && Sum(FoldedFrom(body, 1)) == 4
  {
    var body := ImeiBody([0, 0, 0, 0, 0, 0, 0, 0, 0, 0, 0, 0]);
    var zeros: seq<int> := seq(12, _ => 0);
    assert FoldedFrom(body, 0) == [6, 5] + zeros;
    assert FoldedFrom(body, 1) == [3, 1] + zeros;
    SumOfZeroTail([6, 5], 12);
    SumOfZeroTail([3, 1], 12);
  }

  /** "35", twelve zeros and 9 has Luhn sum 13. */
  lemma ZeroBodyLuhn()
    ensures Sum(LuhnFolded(ImeiBody([0, 0, 0, 0, 0, 0, 0, 0, 0, 0, 0, 0]) + [9])) == 13
  {
    var zeros: seq<int> := seq(12, _ => 0);
    assert LuhnFolded(ImeiBody([0, 0, 0, 0, 0, 0, 0, 0, 0, 0, 0, 0]) + [9]) == [3, 1] + zeros + [9];
    SumOfZeroTail([3, 1], 12);
    SumOfSnoc([3, 1] + zeros, 9);
  }

  lemma {:induction false} SumOfZeroTail(p: seq<int>, n: nat)
    ensures Sum(p + seq(n, _ => 0)) == Sum(p)
  {
    if n > 0 {
      SumOfZeroTail(p, n - 1);
      assert p + seq(n, _ => 0) == (p + seq(n - 1, _ => 0)) + [0];
      SumOfSnoc(p + seq(n - 1, _ => 0), 0);
    } else {
      assert p + seq(n, _ => 0) == p;
    }
  }

  // ------------------------------------------------------------- heartbeats

  /** `max(0, min(100, x))`. */
  function Clamp(x: int): (r: int)
    ensures 0 <= r <= 100
    ensures 0 <= x <= 100 ==> r == x
    ensures x < 0 ==> r == 0
    ensures x > 100 ==> r == 100
  {
    if x < 0 then 0 else if x > 100 then 100 else x
  }

  /** `max(0, min(100, x))` on the battery level. */
  function ClampLevel(x: real): (r: real)
    ensures 0.0 <= r <= 100.0
    ensures 0.0 <= x <= 100.0 ==> r == x
  {
    if x < 0.0 then 0.0 else if x > 100.0 then 100.0 else x
  }

  /** The heartbeat payload of `publish_device_status`. */
  function DeviceStatusJson(imei: string, status: string, signal: int, battery: int, timestamp: int): Json {
    JObject(map["imei" := JStr(imei), "status" := JStr(status), "signal_strength" := JInt(signal),
                "battery_level" := JInt(battery), "timestamp" := JInt(timestamp)])
  }

  /** The delivery report of `publish_sms_status`; the id is echoed as the request carried it. */
  function SmsStatusJson(messageId: Json, status: string, timestamp: int, imei: string): Json {
    JObject(map["message_id" := messageId, "status" := JStr(status), "timestamp" := JInt(timestamp),
                "imei" := JStr(imei)])
  }

  /** The incoming-SMS payload of `simulate_incoming_sms`. */
  function IncomingSmsJson(sender: string, recipient: string, content: string, timestamp: int, imei: string): Json {
    JObject(map["sender" := JStr(sender), "recipient" := JStr(recipient), "content" := JStr(content),
                "timestamp" := JInt(timestamp), "imei" := JStr(imei)])
  }

  /** Every heartbeat the simulator publishes passes the bridge's `device/status` validation. */
  lemma HeartbeatAccepted(imei: string, status: string, signal: int, battery: int, timestamp: int)
    ensures Classify(DeviceStatusTopic, Some(DeviceStatusJson(imei, status, signal, battery, timestamp)))
            == DeviceStatusOk(DeviceStatus(imei, status, signal, battery, timestamp))
  {
    var v := DeviceStatusJson(imei, status, signal, battery, timestamp);
    forall p | p in DeviceStatusRequired ensures HasField(v.fields, p.0, p.1) {
    }
  }

  /** An injected SMS reaches the bot with its sender normalised and its other fields unchanged. */
  lemma InjectedSmsAccepted(sender: string, recipient: string, content: string, timestamp: int, imei: string)
    ensures Classify(SmsIncomingTopic, Some(IncomingSmsJson(sender, recipient, content, timestamp, imei)))
            == ForwardIncoming(SmsMessage(NormalizeSender(sender), Some(recipient), content, timestamp, imei))
  {
    var v := IncomingSmsJson(sender, recipient, content, timestamp, imei);
    forall p | p in SmsMessageRequired ensures HasField(v.fields, p.0, p.1) {
    }
  }

  // --------------------------------------------------- answering a request

  /**
   * What `_handle_outgoing_sms` publishes for a request: nothing unless the
   * payload is an object whose recipient, content and message_id are all
   * truthy (`payload.get` on anything else raises, and the error is only
   * logged); otherwise one report, `delivered` or `failed`.
   */
  function Response(imei: string, payload: Json, delivered: bool, now: int): seq<Publication> {
    if !payload.JObject? then []
    else
      var f := payload.fields;
      if !(Truthy(Get(f, "recipient")) && Truthy(Get(f, "content")) && Truthy(Get(f, "message_id"))) then []
      else [Publication(SmsStatusTopic, SmsStatusJson(Get(f, "message_id"), if delivered then "delivered" else "failed", now, imei))]
  }

  /**
   * A request gets at most one report, exactly when it is complete; the
   * report is on `sms/status`, echoes the request's message_id, names this
   * device and says `delivered` or `failed`.
   */
  lemma ResponseReportsOnce(imei: string, payload: Json, delivered: bool, now: int)
    ensures var r := Response(imei, payload, delivered, now);
      && |r| <= 1
      && (r != [] <==> payload.JObject? && Truthy(Get(payload.fields, "recipient"))
                       && Truthy(Get(payload.fields, "content")) && Truthy(Get(payload.fields, "message_id")))
      && (r != [] ==>
            && r[0].topic == SmsStatusTopic && r[0].payload.JObject?
            && r[0].payload.fields["message_id"] == payload.fields["message_id"]
            && r[0].payload.fields["imei"] == JStr(imei)
            && r[0].payload.fields["status"] in {JStr("delivered"), JStr("failed")})
  {
  }

  /**
   * End to end: a request the bridge publishes for a real SMS (non-empty
   * recipient, content and id) is answered by the device with one report
   * the bridge routes to `update_message_status` under the same id.
   */
  lemma DeviceAnswersBridge(imei: string, recipient: string, content: string, messageId: string,
                            delivered: bool, now: int)
    requires recipient != "" && content != "" && messageId != ""
    ensures var r := Response(imei, OutgoingSmsToJson(OutgoingSms(recipient, content, messageId)), delivered, now);
      && |r| == 1
      && Classify(r[0].topic, Some(r[0].payload))
         == ReportStatus(SmsStatus(messageId, if delivered then "delivered" else "failed", now, imei))
  {
    var request := OutgoingSmsToJson(OutgoingSms(recipient, content, messageId));
    OutgoingSmsRoundTrip(OutgoingSms(recipient, content, messageId));
    var status := if delivered then "delivered" else "failed";
    var report := SmsStatusJson(JStr(messageId), status, now, imei);
    forall p | p in SmsStatusRequired ensures HasField(report.fields, p.0, p.1) {
    }
  }

  // ---------------------------------------------------------------- device

  /** `Air780ESimulator`. */
  class Air780eSimulator {
    const imei: string
    var signalStrength: int
    var batteryLevel: real
    var deviceStatus: string
    var subscriptions: seq<string>
    var published: seq<Publication>

    /**
     * `imei or self._generate_imei()`: the given IMEI unless it is missing
     * or empty. The generated one is `_generate_imei`'s, check digit as written.
     */
    constructor(imei: Option<string>, randomDigits: seq<int>, signalStrength: int, batteryLevel: int)
      requires |randomDigits| == 12 && Decimals(randomDigits)
      ensures imei.Some? && imei.value != "" ==> this.imei == imei.value
      ensures !(imei.Some? && imei.value != "") ==>
        var body := ImeiBody(randomDigits);
        && this.imei == DigitsText(body + [CheckDigitFrom(body, 0)])
        && |this.imei| == 15 && AllDigits(this.imei) && this.imei[..2] == "35"
      ensures this.signalStrength == signalStrength && this.batteryLevel == batteryLevel as real
      ensures deviceStatus == "online" && subscriptions == [] && published == []
    {
      var id: string;
      if imei.Some? && imei.value != "" {
        id := imei.value;
      } else {
        id := GenerateImei(randomDigits);
      }
      this.imei := id;
      this.signalStrength := signalStrength;
      this.batteryLevel := batteryLevel as real;
      deviceStatus := "online";
      subscriptions := [];
      published := [];
    }

    /**
     * `publish_device_status`: move the signal by `delta`
     * (`random.randint(-5, 5)`) and drain the battery by `drain`
     * (`random.uniform(0, 0.2)`), both clamped to 0..100, then publish.
     */
    method PublishDeviceStatus(delta: int, drain: real, now: int)
      requires -5 <= delta <= 5 && 0.0 <= drain <= 0.2
      modifies this
      ensures signalStrength == Clamp(old(signalStrength) + delta)
      ensures batteryLevel == ClampLevel(old(batteryLevel) - drain)
      ensures 0 <= signalStrength <= 100 && 0.0 <= batteryLevel <= 100.0
      ensures published == old(published) +
        [Publication(DeviceStatusTopic, DeviceStatusJson(imei, deviceStatus, signalStrength, batteryLevel.Floor, now))]
      ensures deviceStatus == old(deviceStatus) && subscriptions == old(subscriptions)
    {
      signalStrength := Clamp(signalStrength + delta);
      batteryLevel := ClampLevel(batteryLevel - drain);
      var status := DeviceStatusJson(imei, deviceStatus, signalStrength, batteryLevel.Floor, now);
      published := published + [Publication(DeviceStatusTopic, status)];
    }

    /** `_on_connect`: on success, subscribe to this device's request topic and publish a heartbeat. */
    method OnConnect(rc: int, delta: int, drain: real, now: int)
      requires -5 <= delta <= 5 && 0.0 <= drain <= 0.2
      modifies this
      ensures rc != 0 ==> subscriptions == old(subscriptions) && published == old(published)
                          && signalStrength == old(signalStrength) && batteryLevel == old(batteryLevel)
      ensures rc == 0 ==>
        && subscriptions == old(subscriptions) + [OutgoingTopic(imei)]
        && signalStrength == Clamp(old(signalStrength) + delta)
        && batteryLevel == ClampLevel(old(batteryLevel) - drain)
        && published == old(published) +
             [Publication(DeviceStatusTopic, DeviceStatusJson(imei, deviceStatus, signalStrength, batteryLevel.Floor, now))]
      ensures deviceStatus == old(deviceStatus)
    {
      if rc == 0 {
        subscriptions := subscriptions + [OutgoingTopic(imei)];
        PublishDeviceStatus(delta, drain, now);
      }
    }

    /** `publish_sms_status`. */
    method PublishSmsStatus(messageId: Json, status: string, now: int)
      modifies this
      ensures published == old(published) + [Publication(SmsStatusTopic, SmsStatusJson(messageId, status, now, imei))]
      ensures signalStrength == old(signalStrength) && batteryLevel == old(batteryLevel)
      ensures subscriptions == old(subscriptions)
    {
      published := published + [Publication(SmsStatusTopic, SmsStatusJson(messageId, status, now, imei))];
    }

    /** `_handle_outgoing_sms`; `delivered` is the 95% draw. */
    method HandleOutgoingSms(payload: Json, delivered: bool, now: int)
      modifies this
      ensures published == old(published) + Response(imei, payload, delivered, now)
      ensures signalStrength == old(signalStrength) && batteryLevel == old(batteryLevel)
      ensures subscriptions == old(subscriptions)
    {
      if !payload.JObject? {
        return;
      }
      var recipient := Get(payload.fields, "recipient");
      var content := Get(payload.fields, "content");
      var messageId := Get(payload.fields, "message_id");
      if !(Truthy(recipient) && Truthy(content) && Truthy(messageId)) {
        return;
      }
      var status := if delivered then "delivered" else "failed";
      PublishSmsStatus(messageId, status, now);
    }

    /** `_on_message`: only a decodable request on this device's own topic is acted on. */
    method OnMessage(topic: string, payload: Option<Json>, delivered: bool, now: int)
      modifies this
      ensures published == old(published) +
        (if payload.Some? && topic == OutgoingTopic(imei) then Response(imei, payload.value, delivered, now) else [])
      ensures signalStrength == old(signalStrength) && batteryLevel == old(batteryLevel)
      ensures subscriptions == old(subscriptions)
    {
      if payload.Some? && topic == OutgoingTopic(imei) {
        HandleOutgoingSms(payload.value, delivered, now);
      }
    }

    /** `simulate_incoming_sms`; the device's own number is the recipient. */
    method SimulateIncomingSms(sender: string, content: string, now: int)
      modifies this
      ensures published == old(published) +
        [Publication(SmsIncomingTopic, IncomingSmsJson(sender, DeviceNumber, content, now, imei))]
      ensures signalStrength == old(signalStrength) && batteryLevel == old(batteryLevel)
      ensures subscriptions == old(subscriptions)
    {
      published := published + [Publication(SmsIncomingTopic, IncomingSmsJson(sender, DeviceNumber, content, now, imei))];
    }
  }

  /** The simulated device's own phone number. */
  const DeviceNumber := "+10000000000"
}

/**
 * The payload records exchanged between the device, the broker, the store
 * and the bot (the pydantic models of the bridge), and their validation:
 * which decoded JSON objects each record accepts and what it builds from them.
 */
module Schemas {
  import opened Wrappers
  import opened Json

  /** The JSON kind a pydantic field of type `str` or `int` accepts. */
  datatype FieldKind = Text | Integer

  predicate HasField(fields: map<string, Json>, name: string, kind: FieldKind) {
    name in fields &&
    match kind
    case Text => fields[name].JStr?
    case Integer => fields[name].JInt?
  }

  /** Every required field of `spec` is present with its declared kind. */
  predicate HasRequired(v: Json, spec: set<(string, FieldKind)>) {
    v.JObject? && forall p :: p in spec ==> HasField(v.fields, p.0, p.1)
  }

  /** An `Optional[str] = None` field: absent, `null`, or a string. */
  predicate OptionalTextOk(fields: map<string, Json>, name: string) {
    name !in fields || fields[name].JNull? || fields[name].JStr?
  }

  function OptionalText(fields: map<string, Json>, name: string): Option<string> {
    if name in fields && fields[name].JStr? then Some(fields[name].s) else None
  }

  // ---------------------------------------------------------------- SMSMessage

  /** An SMS the device received: `sender` is normalised to start with '+'. */
  datatype SmsMessage = SmsMessage(
    sender: string,
    recipient: Option<string>,
    content: string,
    timestamp: int,
    imei: string)

  const SmsMessageRequired: set<(string, FieldKind)> :=
    {("sender", Text), ("content", Text), ("timestamp", Integer), ("imei", Text)}

  predicate StartsWithPlus(s: string) {
    |s| > 0 && s[0] == '+'
  }

  /** The `sender` validator: prefix a '+' unless there already is one. */
  function NormalizeSender(v: string): (r: string)
    ensures StartsWithPlus(r)
    ensures StartsWithPlus(v) ==> r == v
    ensures !StartsWithPlus(v) ==> r == "+" + v
  {
    if StartsWithPlus(v) then v else "+" + v
  }

  /** Normalising twice is normalising once. */
  lemma NormalizeSenderIdempotent(v: string)
    ensures NormalizeSender(NormalizeSender(v)) == NormalizeSender(v)
  {
  }

  /** `SMSMessage(**payload)`: `None` when pydantic would raise a validation error. */
  function ParseSmsMessage(v: Json): (r: Option<SmsMessage>)
    ensures r.Some? <==> HasRequired(v, SmsMessageRequired) && OptionalTextOk(v.fields, "recipient")
    ensures r.Some? ==> StartsWithPlus(r.value.sender)
    ensures r.Some? ==>
      && r.value.sender == NormalizeSender(v.fields["sender"].s)
      && r.value.content == v.fields["content"].s
      && r.value.timestamp == v.fields["timestamp"].i
      && r.value.imei == v.fields["imei"].s
      && r.value.recipient == OptionalText(v.fields, "recipient")
  {
    if !v.JObject? then None
    else
      var f := v.fields;
      if HasField(f, "sender", Text) && HasField(f, "content", Text)
         && HasField(f, "timestamp", Integer) && HasField(f, "imei", Text)
         && OptionalTextOk(f, "recipient")
      then
        assert HasRequired(v, SmsMessageRequired);
        Some(SmsMessage(NormalizeSender(f["sender"].s), OptionalText(f, "recipient"),
                        f["content"].s, f["timestamp"].i, f["imei"].s))
      else
        assert ("sender", Text) in SmsMessageRequired && ("content", Text) in SmsMessageRequired;
        assert ("timestamp", Integer) in SmsMessageRequired && ("imei", Text) in SmsMessageRequired;
        None
  }

  // --------------------------------------------------------------- OutgoingSMS

  /** A request to the device to send one SMS, tagged with a correlation id. */
  datatype OutgoingSms = OutgoingSms(recipient: string, content: string, messageId: string)

  const OutgoingSmsRequired: set<(string, FieldKind)> :=
    {("recipient", Text), ("content", Text), ("message_id", Text)}

  /** `outgoing_sms.json()`: the object published to the device. */
  function OutgoingSmsToJson(o: OutgoingSms): Json {
    JObject(map["recipient" := JStr(o.recipient), "content" := JStr(o.content),
                "message_id" := JStr(o.messageId)])
  }

  /** `OutgoingSMS(**payload)`. */
  function ParseOutgoingSms(v: Json): (r: Option<OutgoingSms>)
    ensures r.Some? <==> HasRequired(v, OutgoingSmsRequired)
    ensures r.Some? ==>
      && r.value.recipient == v.fields["recipient"].s
      && r.value.content == v.fields["content"].s
      && r.value.messageId == v.fields["message_id"].s
  {
    if !v.JObject? then None
    else
      var f := v.fields;
      if HasField(f, "recipient", Text) && HasField(f, "content", Text) && HasField(f, "message_id", Text)
      then
        assert HasRequired(v, OutgoingSmsRequired);
        Some(OutgoingSms(f["recipient"].s, f["content"].s, f["message_id"].s))
      else
        assert ("recipient", Text) in OutgoingSmsRequired && ("content", Text) in OutgoingSmsRequired;
        assert ("message_id", Text) in OutgoingSmsRequired;
        None
  }

  /** What `send_sms` publishes is an `OutgoingSMS` that validates back to itself. */
  lemma OutgoingSmsRoundTrip(o: OutgoingSms)
    ensures ParseOutgoingSms(OutgoingSmsToJson(o)) == Some(o)
  {
  }

  // ----------------------------------------------------------------- SMSStatus

  /** A delivery report for one outgoing SMS; `status` is any string. */
  datatype SmsStatus = SmsStatus(messageId: string, status: string, timestamp: int, imei: string)

  const SmsStatusRequired: set<(string, FieldKind)> :=
    {("message_id", Text), ("status", Text), ("timestamp", Integer), ("imei", Text)}

  /** `SMSStatus(**payload)`. */
  function ParseSmsStatus(v: Json): (r: Option<SmsStatus>)
    ensures r.Some? <==> HasRequired(v, SmsStatusRequired)
    ensures r.Some? ==>
      && r.value.messageId == v.fields["message_id"].s
      && r.value.status == v.fields["status"].s
      && r.value.timestamp == v.fields["timestamp"].i
      && r.value.imei == v.fields["imei"].s
  {
    if !v.JObject? then None
    else
      var f := v.fields;
      if HasField(f, "message_id", Text) && HasField(f, "status", Text)
         && HasField(f, "timestamp", Integer) && HasField(f, "imei", Text)
      then
        assert HasRequired(v, SmsStatusRequired);
        Some(SmsStatus(f["message_id"].s, f["status"].s, f["timestamp"].i, f["imei"].s))
      else
        assert ("message_id", Text) in SmsStatusRequired && ("status", Text) in SmsStatusRequired;
        assert ("timestamp", Integer) in SmsStatusRequired && ("imei", Text) in SmsStatusRequired;
        None
  }

  // -------------------------------------------------------------- DeviceStatus

  /** A device heartbeat; signal and battery are plain integers, not range-checked. */
  datatype DeviceStatus = DeviceStatus(
    imei: string,
    status: string,
    signalStrength: int,
    batteryLevel: int,
    timestamp: int)

  const DeviceStatusRequired: set<(string, FieldKind)> :=
    {("imei", Text), ("status", Text), ("signal_strength", Integer),
     ("battery_level", Integer), ("timestamp", Integer)}

  /** `DeviceStatus(**payload)`. */
  function ParseDeviceStatus(v: Json): (r: Option<DeviceStatus>)
    ensures r.Some? <==> HasRequired(v, DeviceStatusRequired)
    ensures r.Some? ==>
      && r.value.imei == v.fields["imei"].s
      && r.value.status == v.fields["status"].s
      && r.value.signalStrength == v.fields["signal_strength"].i
      && r.value.batteryLevel == v.fields["battery_level"].i
      && r.value.timestamp == v.fields["timestamp"].i
  {
    if !v.JObject? then None
    else
      var f := v.fields;
      if HasField(f, "imei", Text) && HasField(f, "status", Text)
         && HasField(f, "signal_strength", Integer) && HasField(f, "battery_level", Integer)
         && HasField(f, "timestamp", Integer)
      then
        assert HasRequired(v, DeviceStatusRequired);
        Some(DeviceStatus(f["imei"].s, f["status"].s, f["signal_strength"].i,
                          f["battery_level"].i, f["timestamp"].i))
      else
        assert ("imei", Text) in DeviceStatusRequired && ("status", Text) in DeviceStatusRequired;
        assert ("signal_strength", Integer) in DeviceStatusRequired;
        assert ("battery_level", Integer) in DeviceStatusRequired;
        assert ("timestamp", Integer) in DeviceStatusRequired;
        None
  }

  // --------------------------------------------------------- PhoneTopicMapping

  /** The record kept under a `thread:` key: which topic a sender's SMS go to. */
  datatype PhoneTopicMapping = PhoneTopicMapping(
    groupId: int,
    topicId: int,
    topicTitle: string,
    lastActivity: int)

  /** `mapping.dict()`. */
  function PhoneTopicMappingToJson(m: PhoneTopicMapping): Json {
    JObject(map["group_id" := JInt(m.groupId), "topic_id" := JInt(m.topicId),
                "topic_title" := JStr(m.topicTitle), "last_activity" := JInt(m.lastActivity)])
  }

  // ----------------------------------------------------------- MessageTracking

  /** The record kept under a `msg:` key: where the status of an outgoing SMS is reported. */
  datatype MessageTracking = MessageTracking(groupId: int, msgId: int)

  const MessageTrackingRequired: set<(string, FieldKind)> :=
    {("group_id", Integer), ("msg_id", Integer)}

  /** `tracking.dict()`: exactly the two fields. */
  function MessageTrackingToJson(t: MessageTracking): Json {
    JObject(map["group_id" := JInt(t.groupId), "msg_id" := JInt(t.msgId)])
  }

  /** `MessageTracking(**data)`. */
  function ParseMessageTracking(v: Json): (r: Option<MessageTracking>)
    ensures r.Some? <==> HasRequired(v, MessageTrackingRequired)
    ensures r.Some? ==> r.value == MessageTracking(v.fields["group_id"].i, v.fields["msg_id"].i)
  {
    if !v.JObject? then None
    else
      var f := v.fields;
      if HasField(f, "group_id", Integer) && HasField(f, "msg_id", Integer) then
        assert HasRequired(v, MessageTrackingRequired);
        Some(MessageTracking(f["group_id"].i, f["msg_id"].i))
      else
        assert ("group_id", Integer) in MessageTrackingRequired;
        assert ("msg_id", Integer) in MessageTrackingRequired;
        None
  }

  /** What `track_message` stores is what `get_tracked_message` rebuilds. */
  lemma MessageTrackingRoundTrip(t: MessageTracking)
    ensures ParseMessageTracking(MessageTrackingToJson(t)) == Some(t)
  {
  }
}

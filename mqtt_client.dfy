/**
 * The broker side of the bridge (`MQTTClient`): what it subscribes to on
 * connect, how an inbound message is validated and routed to the bot, and
 * how an outgoing SMS is published for a device.
 *
 * The connection itself, the event loop and the broker are not modelled: a
 * message arrives as its topic and its decoded payload (`None` when the bytes
 * are not UTF-8 JSON), and a publish is recorded with the result code the
 * broker library reports.
 */
module Mqtt {
  import opened Wrappers
  import opened Json
  import opened Schemas
  import opened WorkersKv
  import opened Telegram

  const SmsIncomingTopic := "sms/incoming"
  const SmsStatusTopic := "sms/status"
  const DeviceStatusTopic := "device/status"

  /** The topics `_on_connect` subscribes to, in order. */
  const InboundTopics: seq<string> := [SmsIncomingTopic, SmsStatusTopic, DeviceStatusTopic]

  /** paho's `MQTT_ERR_SUCCESS`. */
  const MqttErrSuccess := 0

  /** The per-device topic an outgoing SMS is published on. */
  function OutgoingTopic(imei: string): (topic: string)
    ensures |topic| == 13 + |imei| && topic[..13] == "sms/outgoing/" && topic[13..] == imei
  {
    "sms/outgoing/" + imei
  }

  /** Where `_on_message` sends an inbound message. */
  datatype Dispatch =
    | ForwardIncoming(sms: SmsMessage)   // _handle_incoming_sms
    | ReportStatus(report: SmsStatus)    // _handle_status_update
    | DeviceStatusOk(device: DeviceStatus) // validated, no further effect
    | Dropped                            // bad JSON, failed validation or another topic

  /**
   * `_on_message`'s routing. `IncomingSMS` and `OutgoingSMSStatus` are the
   * names `client.py` imports for the records `schemas.py` defines as
   * `SMSMessage` and `SMSStatus`; this model reads them as those records.
   */
  function Classify(topic: string, payload: Option<Json>): (d: Dispatch)
    ensures d.ForwardIncoming? <==> topic == SmsIncomingTopic && payload.Some? && ParseSmsMessage(payload.value).Some?
    ensures d.ReportStatus? <==> topic == SmsStatusTopic && payload.Some? && ParseSmsStatus(payload.value).Some?
    ensures d.DeviceStatusOk? <==> topic == DeviceStatusTopic && payload.Some? && ParseDeviceStatus(payload.value).Some?
    ensures d.ForwardIncoming? ==> Some(d.sms) == ParseSmsMessage(payload.value)
    ensures d.ReportStatus? ==> Some(d.report) == ParseSmsStatus(payload.value)
    ensures topic !in InboundTopics || payload.None? ==> d == Dropped
  {
    if payload.None? then Dropped
    else if topic == SmsIncomingTopic then
      match ParseSmsMessage(payload.value)
      case Some(sms) => ForwardIncoming(sms)
      case None => Dropped
    else if topic == SmsStatusTopic then
      match ParseSmsStatus(payload.value)
      case Some(report) => ReportStatus(report)
      case None => Dropped
    else if topic == DeviceStatusTopic then
      match ParseDeviceStatus(payload.value)
      case Some(device) => DeviceStatusOk(device)
      case None => Dropped
    else Dropped
  }

  /**
   * A valid `sms/incoming` payload reaches the bot with its sender
   * normalised and its content, IMEI and timestamp exactly as sent.
   */
  lemma IncomingForwardedUnchanged(payload: Json)
    requires HasRequired(payload, SmsMessageRequired) && OptionalTextOk(payload.fields, "recipient")
    ensures var d := Classify(SmsIncomingTopic, Some(payload));
      && d.ForwardIncoming?
      && d.sms.sender == NormalizeSender(payload.fields["sender"].s)
      && d.sms.content == payload.fields["content"].s
      && d.sms.imei == payload.fields["imei"].s
      && d.sms.timestamp == payload.fields["timestamp"].i
  {
  }

  /** A valid `sms/status` payload reaches the bot with its message id and status. */
  lemma StatusForwardedUnchanged(payload: Json)
    requires HasRequired(payload, SmsStatusRequired)
    ensures var d := Classify(SmsStatusTopic, Some(payload));
      && d.ReportStatus?
      && d.report.messageId == payload.fields["message_id"].s
      && d.report.status == payload.fields["status"].s
  {
  }

  /** A published record, as the broker would carry it. */
  datatype Publication = Publication(topic: string, payload: Json)

  /**
   * `MQTTClient`, with the broker connection reduced to the log of the
   * topics it subscribed to and of the messages it published.
   */
  class MqttClient {
    const telegram: SmsTelegramClient
    var subscriptions: seq<string>
    var published: seq<Publication>

    ghost predicate Valid()
      reads this, telegram, telegram.db
    {
      telegram.Valid()
    }

    constructor(telegram: SmsTelegramClient)
      requires telegram.Valid()
      ensures this.telegram == telegram && subscriptions == [] && published == [] && Valid()
    {
      this.telegram := telegram;
      subscriptions := [];
      published := [];
    }

    /** `_on_connect`: subscribe to the three inbound topics, whatever the result code. */
    method OnConnect(rc: int)
      modifies this
      ensures subscriptions == old(subscriptions) + InboundTopics
      ensures published == old(published)
    {
      subscriptions := subscriptions + [SmsIncomingTopic];
      subscriptions := subscriptions + [SmsStatusTopic];
      subscriptions := subscriptions + [DeviceStatusTopic];
    }

    /**
     * `_on_message` followed by the handler it schedules, run to completion.
     * `response`, `sent`, `now` and `found` are what the bot's Telegram calls
     * answer (see `SmsTelegramClient`).
     */
    method OnMessage(topic: string, payload: Option<Json>,
                     response: Option<seq<Option<int>>>, sent: Option<int>, now: int, found: bool)
      requires Valid()
      modifies telegram, telegram.db
      ensures Valid()
      ensures match Classify(topic, payload)
        case ForwardIncoming(sms) =>
          var s := ForwardSpec(old(telegram.db.kv), sms.sender, sms.content, sms.imei, CreatedTopicId(response), sent, now);
          telegram.db.kv == s.kv && telegram.actions == old(telegram.actions) + s.actions
        case ReportStatus(report) =>
          var s := UpdateStatusSpec(old(telegram.db.kv), report.messageId, report.status, found);
          telegram.db.kv == s.kv && telegram.actions == old(telegram.actions) + s.actions
        case _ =>
          telegram.db.kv == old(telegram.db.kv) && telegram.actions == old(telegram.actions)
    {
      var d := Classify(topic, payload);
      match d
      case ForwardIncoming(sms) =>
        // _handle_incoming_sms; the timestamp it passes is unused by the bot.
        var _ := telegram.ForwardSmsToTelegram(sms.sender, sms.content, sms.imei, response, sent, now);
      case ReportStatus(report) =>
        // _handle_status_update
        telegram.UpdateMessageStatus(report.messageId, report.status, found);
      case DeviceStatusOk(_) =>
      case Dropped =>
    }

    /**
     * `send_sms`: publish an `OutgoingSMS` record on the device's topic and
     * return its id, or `None` when the publish result code is not success.
     * `messageId` stands for `str(uuid.uuid4())`, which is never empty.
     */
    method SendSms(imei: string, recipient: string, content: string, messageId: string, rc: int)
      returns (id: Option<string>)
      requires messageId != ""
      modifies this
      ensures published == old(published) + [Publication(OutgoingTopic(imei), OutgoingSmsToJson(OutgoingSms(recipient, content, messageId)))]
      ensures subscriptions == old(subscriptions)
      ensures id.Some? <==> rc == MqttErrSuccess
      ensures id.Some? ==> id.value == messageId && id.value != ""
    {
      var outgoing := OutgoingSms(recipient, content, messageId);
      published := published + [Publication(OutgoingTopic(imei), OutgoingSmsToJson(outgoing))];
      if rc != MqttErrSuccess {
        return None;
      }
      return Some(messageId);
    }
  }
}

# AirRelay in Dafny

AirRelay bridges SMS and Telegram. An Air780E cellular module publishes the
SMS it receives to an MQTT broker. The bridge forwards each one into a forum
topic of the Telegram group the device is bound to, with one topic per
sender. A plain-text reply in such a topic goes back out as an SMS through
the device, and the device's delivery report is posted under the reply. The
routing state lives in a Workers KV namespace. The bot's `/bind`,
`/unbind` and `/status` commands manage the binding between a device and a
group.

This project models the core of the bridge and proves properties about it:

- `schemas.dfy` (module `Schemas`) holds the payload records. Each record
  comes with the validation that accepts or rejects a decoded JSON object,
  plus the sender normalisation, which adds a leading `+`.
- `workers_kv.dfy` (module `WorkersKv`) holds the routing store. It has the
  key families `device:`, `group:`, `thread:` and `msg:`, plus an assumed
  `topic:` family (see below). Each has a pure lookup and a pure write
  function, proved to round-trip, to change one relation only, and to keep
  the store readable. The class `Database` holds the namespace as a `map`
  field, and its getters and setters are proved against those functions.
- `telegram.dfy` (module `Telegram`) holds the bot. Each handler is
  specified by a function from the store's contents to the new contents and
  the list of outside calls it makes. The outside calls are `respond`,
  `send_message`, topic creation and `send_sms`. The class
  `SmsTelegramClient` records those calls in a ghost log, and each of its
  methods is proved to do exactly what its specification function says.
  The lemmas state the bot's guarantees:
  - `/bind` never overwrites a binding, and both commands keep the
    device↔group relation one-to-one.
  - A sender's topic is reused once it exists.
  - A reply is tracked only when the SMS was handed to the broker.
  - A delivery report is consumed exactly once.
- `mqtt_client.dfy` (module `Mqtt`) holds the broker client. It covers the
  subscriptions made on connect, the routing of an inbound message to a bot
  handler or to nothing, and the publishing of an outgoing SMS.
- `simulator.dfy` (module `Air780e`) holds the device simulator. It covers
  IMEI generation (an in-place loop over an array), the heartbeat with its
  clamped signal, the answer to an outgoing-SMS request, and SMS injection.
- `decimal.dfy`, `json.dfy` and `wrappers.dfy` hold Python's `str(int)` and
  `int(str)`, decoded JSON with Python truthiness, and `Optional`.

The outside world becomes parameters:

- The Telegram SDK's answers:
  - `response`: the updates returned by `CreateForumTopicRequest`.
  - `sent`: the id of the message `send_message` posted.
  - `found`: whether `get_messages` found the message.
- The MQTT client's `send_sms` result (`smsId`).
- Broker result codes (`rc`).
- `uuid4` (`messageId`).
- The clock (`now`).
- The simulator's random draws.

Four store methods that the bot calls do not exist in `src/db/workers_kv.py`.
The model fills them in as follows, with the assumptions also stated in the
Dafny comments:

- `get_group_from_device` is read as `get_device_group`.
- `get_device_from_group` is read as `get_group_device`.
- `get_topic_from_phone` is read as `get_thread_topic`.
- `map_device_group` and `delete_device_group` write, or delete, both the
  `device:` and the `group:` key.
- `map_phone_topic` writes the thread record and a reverse key
  `topic:{group}:{topic}` holding the phone number. `get_phone_from_topic`
  reads that reverse key, as the comment at `src/bot/telegram.py:189` says.

`src/mqtt/client.py` imports `IncomingSMS` and `OutgoingSMSStatus`. The model
reads them as the records `SMSMessage` and `SMSStatus`.

Three behaviours of the code are worth stating plainly, because the model
follows them exactly:

- A delivery report is posted as a new reply to the user's Telegram message
  that was sent as the SMS; no message is ever edited.
- The tracking record of a message id is deleted whether or not the Telegram
  call succeeds.
- The code has no delivery queue, no backoff and no watchdog; its reconnect
  is a fixed five-second sleep, which is I/O and left out.

## Model

| member | source | states |
|---|---|---|
| Schemas.NormalizeSender | src/models/schemas.py:37-42 | the sender always starts with '+'; a sender that already does is unchanged, any other is '+' followed by the original |
| Schemas.NormalizeSenderIdempotent | src/models/schemas.py:37-42 | normalising twice is the same as normalising once |
| Schemas.ParseSmsMessage | src/models/schemas.py:29-42 | an SMSMessage is built exactly when sender, content, timestamp and imei are present with their types and recipient is absent, null or a string; the sender is normalised, the other fields are copied, and a missing recipient is None |
| Schemas.ParseOutgoingSms | src/models/schemas.py:44-48 | an OutgoingSMS is built exactly when recipient, content and message_id are present strings, and carries them |
| Schemas.OutgoingSmsRoundTrip | src/models/schemas.py:44-48 | the JSON of an OutgoingSMS validates back to the same record |
| Schemas.ParseSmsStatus | src/models/schemas.py:50-55 | an SMSStatus is built exactly when message_id, status, timestamp and imei are present, and status may be any string |
| Schemas.ParseDeviceStatus | src/models/schemas.py:57-63 | a DeviceStatus is built exactly when all five fields are present, with signal and battery as plain integers that are not range-checked |
| Schemas.ParseMessageTracking | src/models/schemas.py:72-75 | a MessageTracking is built exactly when group_id and msg_id are present integers, and holds exactly those two |
| Schemas.MessageTrackingRoundTrip | src/models/schemas.py:72-75 | what track_message stores (tracking.dict()) is what get_tracked_message rebuilds |
| Decimal.ParseIntOfIntToString | src/db/workers_kv.py:18-26 | int(str(g)) == g for every integer, negative ones included |
| Decimal.IntToStringInjective | src/db/workers_kv.py:51 | distinct integers have distinct decimal spellings |
| Decimal.IntToStringHasNoColon | src/db/workers_kv.py:30 | str(g) never contains ':' |
| WorkersKv.DeviceKeyInjective | src/db/workers_kv.py:16 | device:{imei} determines the imei |
| WorkersKv.GroupKeyInjective | src/db/workers_kv.py:51 | group:{g} determines g |
| WorkersKv.ThreadKeyInjective | src/db/workers_kv.py:30 | thread:{g}:{phone} determines both g and phone |
| WorkersKv.MessageKeyInjective | src/db/workers_kv.py:64 | msg:{id} determines the id |
| WorkersKv.TopicKeyInjective | src/bot/telegram.py:189-190 | the assumed topic:{g}:{t} determines both g and t |
| WorkersKv.FamiliesDisjoint | src/db/workers_kv.py:14-79 | keys of different families never coincide |
| WorkersKv.DeviceGroupWrite | src/db/workers_kv.py:14-26 | after set_device_group(imei, g), get_device_group(imei) is g, or None after a delete; no other lookup of any family changes |
| WorkersKv.GroupDeviceWrite | src/db/workers_kv.py:49-60 | after set_group_device(g, imei), get_group_device(g) is the imei unchanged, or None after a delete; nothing else changes |
| WorkersKv.ThreadTopicWrite | src/db/workers_kv.py:28-47 | after set_thread_topic(g, phone, t), get_thread_topic(g, phone) is t whatever the title and time; nothing else changes |
| WorkersKv.ThreadTopicBareValue | src/db/workers_kv.py:34 | a bare number stored under a thread key is read as the topic id too |
| WorkersKv.TrackingWrite | src/db/workers_kv.py:62-79 | after track_message(id, g, m), get_tracked_message(id) is (g, m); after delete_tracked_message(id) it is None; nothing else changes |
| WorkersKv.TopicWrite | src/bot/telegram.py:189-190 | writing the assumed reverse key makes the topic read back its phone and changes no other lookup |
| WorkersKv.BindingWrite | src/bot/telegram.py:91 | the assumed map_device_group makes each side name the other and touches only those two lookups |
| WorkersKv.BindingDelete | src/bot/telegram.py:116 | the assumed delete_device_group clears both sides and touches nothing else |
| WorkersKv.PhoneTopicWrite | src/bot/telegram.py:188-190 | the assumed map_phone_topic maps the sender to the topic and the topic back to the sender, touching only those two lookups |
| WorkersKv.LastWriteWins | src/db/workers_kv.py:20-79 | each setter overwrites the whole value: two writes to the same key equal the second alone, whatever the first stored (a tracking record under another group included), and a delete after a write equals the delete alone |
| WorkersKv.NoneExactlyWhenAbsent | src/db/workers_kv.py:14-74 | in a store holding only what the setters write, each getter returns None exactly when its key is absent |
| WorkersKv.WritesKeepWellFormed | src/db/workers_kv.py:20-79 | every setter and the delete keep every stored value readable by its family's getter |
| WorkersKv.CompositeWritesKeepWellFormed | src/bot/telegram.py:91-190 | the assumed combined writes keep the store readable |
| WorkersKv.Database.constructor | src/db/workers_kv.py:9-12 | a handle opens on the namespace's current contents |
| WorkersKv.Database.GetDeviceGroup | src/db/workers_kv.py:14-18 | returns the device's group; None exactly when the key is absent |
| WorkersKv.Database.SetDeviceGroup | src/db/workers_kv.py:20-26 | writes str(g) or deletes the key; the lookup then reads g, and nothing else changes |
| WorkersKv.Database.GetThreadTopic | src/db/workers_kv.py:28-34 | returns the record's topic_id or a bare stored number; None exactly when the key is absent |
| WorkersKv.Database.SetThreadTopic | src/db/workers_kv.py:36-47 | stores the PhoneTopicMapping record, with title defaulting to "SMS: {phone}"; the lookup then reads the topic |
| WorkersKv.Database.GetGroupDevice | src/db/workers_kv.py:49-52 | returns the stored imei; None exactly when the key is absent |
| WorkersKv.Database.SetGroupDevice | src/db/workers_kv.py:54-60 | writes the imei or deletes the key; the lookup then reads it back |
| WorkersKv.Database.TrackMessage | src/db/workers_kv.py:62-66 | stores tracking.dict(); the lookup then reads (g, m) |
| WorkersKv.Database.GetTrackedMessage | src/db/workers_kv.py:68-74 | rebuilds the record; None exactly when the key is absent |
| WorkersKv.Database.DeleteTrackedMessage | src/db/workers_kv.py:76-79 | deletes the key; the lookup then reads None |
| WorkersKv.Database.MapDeviceGroup | src/bot/telegram.py:91 | assumed: binds both ways and changes nothing else |
| WorkersKv.Database.DeleteDeviceGroup | src/bot/telegram.py:116 | assumed: unbinds both ways and changes nothing else |
| WorkersKv.Database.MapPhoneTopic | src/bot/telegram.py:188-190 | assumed: thread record plus reverse key, and nothing else |
| WorkersKv.Database.GetPhoneFromTopic | src/bot/telegram.py:244 | assumed: the topic's phone; None exactly when the key is absent |
| Telegram.CommandArgument | src/bot/telegram.py:66-71 | text.split(maxsplit=1)[1].strip(): None exactly when only whitespace follows the first word; otherwise a non-empty slice of the text after the first word, with only whitespace between the two and after it, and no whitespace at either end |
| Telegram.AtMostOneHandler | src/bot/telegram.py:34-143 | the six handler patterns are mutually exclusive, so every message reaches at most one handler |
| Telegram.ReplyTopic | src/bot/telegram.py:37-45 | a message is relayed only when it replies inside a forum topic; the topic is reply_to_top_id, falling back to reply_to_msg_id, and is never 0 |
| Telegram.BindNeverOverwrites | src/bot/telegram.py:63-93 | /bind answers once; it never changes a binding that is already set on either side; when the imei and the chat are both free it binds exactly that pair, touches no other key and says so; otherwise the store is unchanged |
| Telegram.BindSucceedsExactlyWhenFree | src/bot/telegram.py:63-93 | the success text is sent exactly when the imei and the chat were both free, and from a nonzero chat the store changes exactly then |
| Telegram.BindIdempotent | src/bot/telegram.py:74-91 | a repeated /bind changes nothing |
| Telegram.BindPairKeepsConsistent | src/bot/telegram.py:91 | binding a free device to a free chat keeps the two directions in agreement |
| Telegram.BindKeepsConsistent | src/bot/telegram.py:63-93 | /bind keeps the device↔group relation one-to-one |
| Telegram.UnbindPairKeepsConsistent | src/bot/telegram.py:116 | removing a bound pair keeps the two directions in agreement |
| Telegram.UnbindOnlyThisChat | src/bot/telegram.py:95-118 | /unbind leaves every other chat, and every device bound elsewhere, as it was; when the chat has a device (no argument) or the named device is bound here, that device and this chat are unbound afterwards; otherwise (no device, or a device bound elsewhere or nowhere) the store is unchanged |
| Telegram.UnbindRemovesBinding | src/bot/telegram.py:95-118 | /unbind changes the store exactly when the chat has a device (no argument) or the named device is bound to this chat; then that device and this chat both read as unbound and no other key changes |
| Telegram.UnbindReplies | src/bot/telegram.py:95-118 | /unbind answers once, with the success text exactly when it removed a binding |
| Telegram.UnbindKeepsConsistent | src/bot/telegram.py:95-118 | /unbind keeps the device↔group relation one-to-one |
| Telegram.StatusReportsBinding | src/bot/telegram.py:120-132 | /status changes nothing and answers once: the bound imei with status Active when the chat has a device, "No device is bound" exactly when it has none |
| Telegram.ForwardOutcome | src/bot/telegram.py:169-206 | an SMS for an unbound device does nothing; a topic is created exactly when the sender has none; the store changes only in the sender's thread and its reverse key, and only when creation returned an id; the message goes into the sender's existing topic, else into the created one, which the store then maps the sender to, and the send's id is the result; when creation fails only the create request is made and nothing is stored |
| Telegram.SecondForwardReusesTopic | src/bot/telegram.py:182-199 | once an SMS was posted, the next one from the same sender creates no topic, changes no state and goes to the same topic |
| Telegram.ReplyReachesSender | src/bot/telegram.py:169-270 | a reply in a topic just created for a sender goes to that sender as an SMS through the chat's device |
| Telegram.StatusReportConsumed | src/bot/telegram.py:208-234 | a report leaves its id untracked, changes nothing else, and posts at most one message, replying to the tracked message with the status, exactly when the id was tracked and the message found |
| Telegram.DuplicateStatusIgnored | src/bot/telegram.py:211-234 | a second report for the same id posts nothing and changes nothing |
| Telegram.SmsReplyOutcome | src/bot/telegram.py:236-270 | a reply becomes an SMS to the topic's phone through the chat's device exactly when both are known; it is tracked exactly when send_sms returned an id; every other outcome posts one error under the reply and writes nothing |
| Telegram.ReplyThenReport | src/bot/telegram.py:208-270 | after a reply is sent and tracked, its delivery report is posted under the reply |
| Telegram.HandlersKeepBindings | src/bot/telegram.py:169-270 | forwarding, status reports and SMS replies keep the binding relation one-to-one |
| Telegram.FirstId | src/bot/telegram.py:160-164 | the id of the first update that has one, and None when none has |
| Telegram.SmsTelegramClient.constructor | src/bot/telegram.py:18-27 | the client starts with the given store and an empty call log |
| Telegram.SmsTelegramClient.CreateForumTopic | src/bot/telegram.py:155-167 | logs the request and returns the first update id, or None when the request failed |
| Telegram.SmsTelegramClient.HandleBindCommand | src/bot/telegram.py:63-93 | the new store and the calls made are those of BindSpec on the parsed argument |
| Telegram.SmsTelegramClient.Bind | src/bot/telegram.py:71-93 | the same, for an argument already split off |
| Telegram.SmsTelegramClient.HandleUnbindCommand | src/bot/telegram.py:95-118 | the new store and the calls made are those of UnbindSpec |
| Telegram.SmsTelegramClient.Unbind | src/bot/telegram.py:97-118 | the same, for an argument already split off |
| Telegram.SmsTelegramClient.HandleStatusCommand | src/bot/telegram.py:120-132 | store unchanged; calls those of StatusSpec |
| Telegram.SmsTelegramClient.ForwardSmsToTelegram | src/bot/telegram.py:169-206 | store, calls and returned id are those of ForwardSpec |
| Telegram.SmsTelegramClient.UpdateMessageStatus | src/bot/telegram.py:208-234 | store and calls are those of UpdateStatusSpec |
| Telegram.SmsTelegramClient.HandleSmsReply | src/bot/telegram.py:236-270 | store and calls are those of SmsReplySpec |
| Telegram.SmsTelegramClient.HandleNewMessage | src/bot/telegram.py:34-47 | store and calls are those of NewMessageSpec: nothing unless the message replies in a topic |
| Mqtt.OutgoingTopic | src/mqtt/client.py:133 | the topic is "sms/outgoing/" followed by the imei |
| Mqtt.Classify | src/mqtt/client.py:72-103 | an inbound message is forwarded, reported or validated exactly when its topic is the matching one and its payload parses; the handler receives the parsed record; any other topic or an undecodable payload is dropped |
| Mqtt.IncomingForwardedUnchanged | src/mqtt/client.py:113-121 | a valid sms/incoming payload reaches the bot with sender normalised and content, imei and timestamp unchanged |
| Mqtt.StatusForwardedUnchanged | src/mqtt/client.py:123-126 | a valid sms/status payload reaches the bot with its message_id and status |
| Mqtt.MqttClient.constructor | src/mqtt/client.py:15-33 | starts with no subscriptions and nothing published |
| Mqtt.MqttClient.OnConnect | src/mqtt/client.py:64-70 | subscribes to exactly sms/incoming, sms/status and device/status, in that order |
| Mqtt.MqttClient.OnMessage | src/mqtt/client.py:72-126 | runs ForwardSpec on a forwarded SMS and UpdateStatusSpec on a report with the record's fields; otherwise changes nothing |
| Mqtt.MqttClient.SendSms | src/mqtt/client.py:128-141 | publishes the OutgoingSMS on the device's topic; returns the message id exactly when the result code is success, and None otherwise |
| Air780e.FoldedDigits | tests/simulators/air780e_simulator.py:83-86 | every folded digit stays within 0..9 |
| Air780e.CheckDigitFrom | tests/simulators/air780e_simulator.py:87-88 | the check digit is in 0..9 and brings the folded sum to a multiple of ten |
| Air780e.CheckDigit | tests/simulators/air780e_simulator.py:82-88 | the in-place fold loop and sum compute CheckDigitFrom |
| Air780e.GenerateImei | tests/simulators/air780e_simulator.py:77-89 | 15 decimal digits beginning with "35", ending in the check digit of the even-index folding |
| Air780e.EvenFoldIsNotLuhn | tests/simulators/air780e_simulator.py:83 | for twelve zero draws, the code appends 9 where Luhn needs 6, so its IMEI is not Luhn-valid |
| Air780e.OddFoldIsLuhn | tests/simulators/air780e_simulator.py:83 | folding from index 1 yields a Luhn-valid 15-digit IMEI |
| Air780e.GenerateValidImei | tests/simulators/air780e_simulator.py:77-89 | the corrected generator returns 15 digits beginning with "35" that are Luhn-valid |
| Air780e.Clamp | tests/simulators/air780e_simulator.py:182 | the result is in 0..100 and equals the input when that is in range |
| Air780e.ClampLevel | tests/simulators/air780e_simulator.py:183 | the battery level is in 0..100 and equals the input when that is in range |
| Air780e.HeartbeatAccepted | tests/simulators/air780e_simulator.py:185-193 | every heartbeat passes the bridge's device/status validation with its fields intact |
| Air780e.InjectedSmsAccepted | tests/simulators/air780e_simulator.py:214-222 | an injected SMS is forwarded by the bridge with sender normalised and other fields intact |
| Air780e.ResponseReportsOnce | tests/simulators/air780e_simulator.py:146-175 | a request gets at most one report, exactly when recipient, content and message_id are all truthy; the report is on sms/status, echoes the message_id, names this device and says delivered or failed |
| Air780e.DeviceAnswersBridge | tests/simulators/air780e_simulator.py:146-207 | a request the bridge publishes for a real SMS is answered with one report that the bridge routes to update_message_status under the same id |
| Air780e.Air780eSimulator.constructor | tests/simulators/air780e_simulator.py:31-55 | keeps a given non-empty imei and otherwise uses `_generate_imei` as written (15 digits, "35", even-index check digit); the device starts online |
| Air780e.Air780eSimulator.PublishDeviceStatus | tests/simulators/air780e_simulator.py:177-194 | signal and battery move by the draws and are clamped to 0..100; one heartbeat carrying them is published |
| Air780e.Air780eSimulator.OnConnect | tests/simulators/air780e_simulator.py:109-119 | on success, subscribes to its own request topic and publishes one heartbeat; otherwise does nothing |
| Air780e.Air780eSimulator.PublishSmsStatus | tests/simulators/air780e_simulator.py:196-208 | publishes one report with the id, status, time and own imei |
| Air780e.Air780eSimulator.HandleOutgoingSms | tests/simulators/air780e_simulator.py:146-175 | publishes exactly Response for the request |
| Air780e.Air780eSimulator.OnMessage | tests/simulators/air780e_simulator.py:121-134 | acts only on a decodable message on sms/outgoing/<own imei> |
| Air780e.Air780eSimulator.SimulateIncomingSms | tests/simulators/air780e_simulator.py:210-223 | publishes one sms/incoming payload addressed to the device's own number |

## Left out

- The process bootstrap in `src/__main__.py` is not part of this model. That covers environment loading, `Settings`, signal handlers and event-loop start-up. It also imports an `AsyncMQTTClient` that `client.py` does not define.
- `tests/simulators/send_sms.py` is not part of this model. Its only logic, adding a '+' prefix, is the same as `NormalizeSender`.
- Connecting, disconnecting and reconnecting (both clients), TLS and credentials are left out: they are socket I/O with `time.sleep` retries.
- asyncio scheduling is left out. Each handler `_on_message` schedules runs to completion as one sequential step, and the MQTT and Telegram listeners do not interleave.
- Telegram event registration, `StopPropagation`, `set_dependencies` and the `/start` and `/help` texts are left out. Only the routing of the patterns is modelled, in `AtMostOneHandler`.
- The Telegram SDK is left out. `CreateForumTopicRequest`, `send_message` and `get_messages` appear only through their answers, passed as parameters. An exception from `send_message` in the error branches of `_handle_sms_reply` is not modelled.
- `telegram.py:263` awaits the synchronous `send_sms`; the model uses the id it returns.
- The `timestamp` that `_handle_incoming_sms` passes on is unused by `forward_sms_to_telegram`, so it is dropped.
- ParseSmsMessage, ParseOutgoingSms, ParseSmsStatus, ParseDeviceStatus, ParseMessageTracking: pydantic's lax coercion is not modelled. For example, it accepts the string "5" for an `int` field or a number for a `str` field. A field must have its declared JSON kind, and extra fields are ignored.
- Getters on a stored value of a shape no setter writes may raise or may return a value in Python (for example `int(" 5")` is 5, and `get_group_device` returns a stored non-string as it is); the model reads every such value as None, and `Database.Valid` rules such values out.
- BindKeepsConsistent: assumes the chat id is not 0 (Telegram never issues 0). With chat 0 the bot would write a binding that the falsy check reads as unbound.
- MqttClient.SendSms: requires a non-empty message id, which `str(uuid.uuid4())` always is.
- The battery level is a Python float; the model uses a real, so rounding is not modelled. The heartbeat's `int(...)` is `Floor`, which agrees with truncation because the level is never negative.
- JSON floating-point numbers are not modelled.
- The simulator's `run`, interactive menu, argparse and `main` are left out (console I/O).

## Findings

| source | as written | input that shows it | evidently intended | confidence | as-written member | corrected member |
|---|---|---|---|---|---|---|
| tests/simulators/air780e_simulator.py:83 | `_generate_imei` doubles the digits at even indices 0, 2, …, 12 of the 14-digit body | twelve zero draws: body 35000000000000 gets check digit 9, giving 350000000000009, whose Luhn sum is 13 | a valid IMEI (Luhn, Annex B of 3GPP TS 23.003): double the digits at odd indices, giving check digit 6 | not executed | Air780e.EvenFoldIsNotLuhn | Air780e.OddFoldIsLuhn |

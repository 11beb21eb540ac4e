/**
 * The routing state store: five key families over one string-keyed
 * key-value namespace, each read, written or deleted one key at a time.
 *
 *   device:{imei}                -> str(group id)
 *   group:{group id}             -> imei
 *   thread:{group id}:{phone}    -> PhoneTopicMapping.dict()
 *   msg:{message id}             -> MessageTracking.dict()
 *   topic:{group id}:{topic id}  -> phone     (assumed, see TopicKey)
 */
module WorkersKv {
  import opened Wrappers
  import opened Decimal
  import opened Json
  import opened Schemas

  /** The namespace's contents: what `namespace.read(key)` returns for each key present. */
  type Store = map<string, Json>

  function DeviceKey(imei: string): string { "device:" + imei }
  function GroupKey(groupId: int): string { "group:" + IntToString(groupId) }
  function ThreadKey(groupId: int, phone: string): string { "thread:" + IntToString(groupId) + ":" + phone }
  function MessageKey(messageId: string): string { "msg:" + messageId }

  /**
   * Assumed reverse family for the bot's `map_phone_topic` and
   * `get_phone_from_topic`, which the store does not define: the comment at
   * src/bot/telegram.py:189 says writing a thread also writes a reverse
   * mapping from (group, topic) back to the phone number.
   */
  function TopicKey(groupId: int, topicId: int): string {
    "topic:" + IntToString(groupId) + ":" + IntToString(topicId)
  }

  predicate HasPrefix(s: string, p: string) {
    |p| <= |s| && s[..|p|] == p
  }

  /** Python's `int(v)` on a stored value; `None` where Python raises. */
  function PyInt(v: Json): Option<int> {
    match v
    case JInt(i) => Some(i)
    case JStr(s) => ParseInt(s)
    case _ => None
  }

  // ------------------------------------------------------------------ lookups

  /** `get_device_group`: `int(value) if value else None`. */
  function DeviceGroupIn(kv: Store, imei: string): Option<int> {
    var value := Get(kv, DeviceKey(imei));
    if Truthy(value) then PyInt(value) else None
  }

  /** `get_group_device`: the stored IMEI string as it is. */
  function GroupDeviceIn(kv: Store, groupId: int): Option<string> {
    match Get(kv, GroupKey(groupId))
    case JStr(s) => Some(s)
    case _ => None
  }

  /** `get_thread_topic`: the record's `topic_id`, or a bare stored number. */
  function ThreadTopicIn(kv: Store, groupId: int, phone: string): Option<int> {
    var value := Get(kv, ThreadKey(groupId, phone));
    if value.JObject? && "topic_id" in value.fields then PyInt(value.fields["topic_id"])
    else if Truthy(value) then PyInt(value)
    else None
  }

  /** `get_tracked_message`: `MessageTracking(**data) if data else None`. */
  function TrackedIn(kv: Store, messageId: string): Option<MessageTracking> {
    var data := Get(kv, MessageKey(messageId));
    if Truthy(data) then ParseMessageTracking(data) else None
  }

  /** The assumed `get_phone_from_topic`. */
  function PhoneForTopicIn(kv: Store, groupId: int, topicId: int): Option<string> {
    match Get(kv, TopicKey(groupId, topicId))
    case JStr(s) => Some(s)
    case _ => None
  }

  // ------------------------------------------------------------------- writes

  /** `set_device_group`: `None` deletes the key, anything else writes `str(group_id)`. */
  function WithDeviceGroup(kv: Store, imei: string, groupId: Option<int>): Store {
    if groupId.None? then kv - {DeviceKey(imei)}
    else kv[DeviceKey(imei) := JStr(IntToString(groupId.value))]
  }

  /** `set_group_device`: `None` deletes the key, anything else writes the IMEI. */
  function WithGroupDevice(kv: Store, groupId: int, imei: Option<string>): Store {
    if imei.None? then kv - {GroupKey(groupId)}
    else kv[GroupKey(groupId) := JStr(imei.value)]
  }

  /** `topic_title or f"SMS: {phone}"`. */
  function TopicTitle(title: Option<string>, phone: string): string {
    if title.Some? && title.value != "" then title.value else "SMS: " + phone
  }

  /** `set_thread_topic`, with `now` for `int(time.time())`. */
  function WithThreadTopic(kv: Store, groupId: int, phone: string, topicId: int,
                           title: Option<string>, now: int): Store {
    kv[ThreadKey(groupId, phone) :=
         PhoneTopicMappingToJson(PhoneTopicMapping(groupId, topicId, TopicTitle(title, phone), now))]
  }

  /** `track_message`. */
  function WithTracking(kv: Store, messageId: string, groupId: int, msgId: int): Store {
    kv[MessageKey(messageId) := MessageTrackingToJson(MessageTracking(groupId, msgId))]
  }

  /** `delete_tracked_message`. */
  function WithoutTracking(kv: Store, messageId: string): Store {
    kv - {MessageKey(messageId)}
  }

  /** Assumed `map_device_group`: both directions of the binding. */
  function WithBinding(kv: Store, imei: string, groupId: int): Store {
    WithGroupDevice(WithDeviceGroup(kv, imei, Some(groupId)), groupId, Some(imei))
  }

  /** Assumed `delete_device_group`: both directions of the binding removed. */
  function WithoutBinding(kv: Store, imei: string, groupId: int): Store {
    WithGroupDevice(WithDeviceGroup(kv, imei, None), groupId, None)
  }

  /** Assumed `map_phone_topic`: the thread record (default title) and the reverse key. */
  function WithPhoneTopic(kv: Store, groupId: int, phone: string, topicId: int, now: int): Store {
    WithThreadTopic(kv, groupId, phone, topicId, None, now)[TopicKey(groupId, topicId) := JStr(phone)]
  }

  // ------------------------------------------------------------------ keys

  /** Every family's keys start with their own tag ('d', 'g', "th", 'm', "to"). */
  lemma KeyTags(imei: string, groupId: int, phone: string, messageId: string, topicId: int)
    ensures DeviceKey(imei)[0] == 'd'
    ensures GroupKey(groupId)[0] == 'g'
    ensures ThreadKey(groupId, phone)[0] == 't' && ThreadKey(groupId, phone)[1] == 'h'
    ensures MessageKey(messageId)[0] == 'm'
    ensures TopicKey(groupId, topicId)[0] == 't' && TopicKey(groupId, topicId)[1] == 'o'
  {
  }

  /** The part of a key segment before its first ':'. */
  function BeforeColon(s: string): string {
    if s == [] || s[0] == ':' then [] else [s[0]] + BeforeColon(s[1..])
  }

  lemma {:induction false} BeforeColonOfJoin(a: string, rest: string)
    requires ':' !in a
    ensures BeforeColon(a + ":" + rest) == a
  {
    if a != [] {
      assert (a + ":" + rest)[1..] == a[1..] + ":" + rest;
      BeforeColonOfJoin(a[1..], rest);
    }
  }

  /** Joining a colon-free segment and a tail with ':' can be undone. */
  lemma ColonJoinInjective(a: string, p: string, b: string, q: string)
    requires ':' !in a && ':' !in b
    ensures a + ":" + p == b + ":" + q ==> a == b && p == q
  {
    if a + ":" + p == b + ":" + q {
      BeforeColonOfJoin(a, p);
      BeforeColonOfJoin(b, q);
      assert p == (a + ":" + p)[|a| + 1..];
      assert q == (b + ":" + q)[|b| + 1..];
    }
  }

  lemma PrefixCancel(prefix: string, a: string, b: string)
    ensures prefix + a == prefix + b ==> a == b
  {
    if prefix + a == prefix + b {
      assert a == (prefix + a)[|prefix|..];
      assert b == (prefix + b)[|prefix|..];
    }
  }

  /** Within a family, distinct arguments give distinct keys. */
  lemma DeviceKeyInjective(imei1: string, imei2: string)
    ensures DeviceKey(imei1) == DeviceKey(imei2) ==> imei1 == imei2
  {
    PrefixCancel("device:", imei1, imei2);
  }

  lemma GroupKeyInjective(g1: int, g2: int)
    ensures GroupKey(g1) == GroupKey(g2) ==> g1 == g2
  {
    PrefixCancel("group:", IntToString(g1), IntToString(g2));
    IntToStringInjective(g1, g2);
  }

  /** `thread:{g}:{phone}` determines both `g` and `phone`, because `str(g)` has no ':'. */
  lemma ThreadKeyInjective(g1: int, g2: int, phone1: string, phone2: string)
    ensures ThreadKey(g1, phone1) == ThreadKey(g2, phone2) ==> g1 == g2 && phone1 == phone2
  {
    IntToStringHasNoColon(g1);
    IntToStringHasNoColon(g2);
    assert ThreadKey(g1, phone1) == "thread:" + (IntToString(g1) + ":" + phone1);
    assert ThreadKey(g2, phone2) == "thread:" + (IntToString(g2) + ":" + phone2);
    PrefixCancel("thread:", IntToString(g1) + ":" + phone1, IntToString(g2) + ":" + phone2);
    ColonJoinInjective(IntToString(g1), phone1, IntToString(g2), phone2);
    IntToStringInjective(g1, g2);
  }

  lemma MessageKeyInjective(id1: string, id2: string)
    ensures MessageKey(id1) == MessageKey(id2) ==> id1 == id2
  {
    PrefixCancel("msg:", id1, id2);
  }

  lemma TopicKeyInjective(g1: int, g2: int, t1: int, t2: int)
    ensures TopicKey(g1, t1) == TopicKey(g2, t2) ==> g1 == g2 && t1 == t2
  {
    IntToStringHasNoColon(g1);
    IntToStringHasNoColon(g2);
    assert TopicKey(g1, t1) == "topic:" + (IntToString(g1) + ":" + IntToString(t1));
    assert TopicKey(g2, t2) == "topic:" + (IntToString(g2) + ":" + IntToString(t2));
    PrefixCancel("topic:", IntToString(g1) + ":" + IntToString(t1), IntToString(g2) + ":" + IntToString(t2));
    ColonJoinInjective(IntToString(g1), IntToString(t1), IntToString(g2), IntToString(t2));
    IntToStringInjective(g1, g2);
    IntToStringInjective(t1, t2);
  }

  // ---------------------------------------------------- what a write changes

  /** Every device lookup outside `imeis` reads the same in `kv'` as in `kv`. */
  ghost predicate SameDevicesExcept(kv: Store, kv': Store, imeis: set<string>) {
    forall imei :: imei !in imeis ==> DeviceGroupIn(kv', imei) == DeviceGroupIn(kv, imei)
  }

  ghost predicate SameGroupsExcept(kv: Store, kv': Store, groups: set<int>) {
    forall g :: g !in groups ==> GroupDeviceIn(kv', g) == GroupDeviceIn(kv, g)
  }

  ghost predicate SameThreadsExcept(kv: Store, kv': Store, threads: set<(int, string)>) {
    forall g, phone :: (g, phone) !in threads ==> ThreadTopicIn(kv', g, phone) == ThreadTopicIn(kv, g, phone)
  }

  ghost predicate SameTrackingExcept(kv: Store, kv': Store, ids: set<string>) {
    forall id :: id !in ids ==> TrackedIn(kv', id) == TrackedIn(kv, id)
  }

  ghost predicate SameTopicsExcept(kv: Store, kv': Store, topics: set<(int, int)>) {
    forall g, t :: (g, t) !in topics ==> PhoneForTopicIn(kv', g, t) == PhoneForTopicIn(kv, g, t)
  }

  /** Only the listed lookups of the five relations may read differently in `kv'`. */
  ghost predicate ChangesOnly(kv: Store, kv': Store, imeis: set<string>, groups: set<int>,
                              threads: set<(int, string)>, ids: set<string>, topics: set<(int, int)>) {
    && SameDevicesExcept(kv, kv', imeis)
    && SameGroupsExcept(kv, kv', groups)
    && SameThreadsExcept(kv, kv', threads)
    && SameTrackingExcept(kv, kv', ids)
    && SameTopicsExcept(kv, kv', topics)
  }

  /** Keys of different families never coincide. */
  lemma FamiliesDisjoint(imei: string, groupOfGroupKey: int, groupOfThread: int, phone: string,
                         messageId: string, groupOfTopic: int, topicId: int)
    ensures var device, group, thread := DeviceKey(imei), GroupKey(groupOfGroupKey), ThreadKey(groupOfThread, phone);
            var msg, topic := MessageKey(messageId), TopicKey(groupOfTopic, topicId);
            && device != group && device != thread && device != msg && device != topic
            && group != thread && group != msg && group != topic
            && thread != msg && thread != topic
            && msg != topic
  {
    KeyTags(imei, groupOfGroupKey, phone, messageId, topicId);
    KeyTags(imei, groupOfThread, phone, messageId, topicId);
    KeyTags(imei, groupOfTopic, phone, messageId, topicId);
  }

  /**
   * `set_device_group` then `get_device_group` gives back what was set
   * (`int(str(g)) == g`, or `None` after a delete), and no other lookup of
   * any relation changes.
   */
  lemma DeviceGroupWrite(kv: Store, imei: string, groupId: Option<int>)
    ensures DeviceGroupIn(WithDeviceGroup(kv, imei, groupId), imei) == groupId
    ensures ChangesOnly(kv, WithDeviceGroup(kv, imei, groupId), {imei}, {}, {}, {}, {})
  {
    if groupId.Some? {
      ParseIntOfIntToString(groupId.value);
    }
    DeviceKeyOnly(kv, WithDeviceGroup(kv, imei, groupId), imei);
  }

  /** Two stores that agree off the `device:` key of `imei` differ at most in that device's lookup. */
  lemma DeviceKeyOnly(kv: Store, kv': Store, imei: string)
    requires forall k :: k != DeviceKey(imei) ==> Get(kv', k) == Get(kv, k)
    ensures ChangesOnly(kv, kv', {imei}, {}, {}, {}, {})
  {
    forall i | i !in {imei} ensures DeviceGroupIn(kv', i) == DeviceGroupIn(kv, i) {
      DeviceKeyInjective(i, imei);
    }
    forall g ensures GroupDeviceIn(kv', g) == GroupDeviceIn(kv, g) {
      FamiliesDisjoint(imei, g, 0, "", "", 0, 0);
    }
    forall g, phone ensures ThreadTopicIn(kv', g, phone) == ThreadTopicIn(kv, g, phone) {
      FamiliesDisjoint(imei, 0, g, phone, "", 0, 0);
    }
    forall id ensures TrackedIn(kv', id) == TrackedIn(kv, id) {
      FamiliesDisjoint(imei, 0, 0, "", id, 0, 0);
    }
    forall g, t ensures PhoneForTopicIn(kv', g, t) == PhoneForTopicIn(kv, g, t) {
      FamiliesDisjoint(imei, 0, 0, "", "", g, t);
    }
  }

  /** `set_group_device` then `get_group_device` gives back the IMEI unchanged, or `None`. */
  lemma GroupDeviceWrite(kv: Store, groupId: int, imei: Option<string>)
    ensures GroupDeviceIn(WithGroupDevice(kv, groupId, imei), groupId) == imei
    ensures ChangesOnly(kv, WithGroupDevice(kv, groupId, imei), {}, {groupId}, {}, {}, {})
  {
    GroupKeyOnly(kv, WithGroupDevice(kv, groupId, imei), groupId);
  }

  /** Two stores that agree off the `group:` key of `groupId` differ at most in that group's lookup. */
  lemma GroupKeyOnly(kv: Store, kv': Store, groupId: int)
    requires forall k :: k != GroupKey(groupId) ==> Get(kv', k) == Get(kv, k)
    ensures ChangesOnly(kv, kv', {}, {groupId}, {}, {}, {})
  {
    forall i ensures DeviceGroupIn(kv', i) == DeviceGroupIn(kv, i) {
      FamiliesDisjoint(i, groupId, 0, "", "", 0, 0);
    }
    forall g | g !in {groupId} ensures GroupDeviceIn(kv', g) == GroupDeviceIn(kv, g) {
      GroupKeyInjective(g, groupId);
    }
    forall g, phone ensures ThreadTopicIn(kv', g, phone) == ThreadTopicIn(kv, g, phone) {
      FamiliesDisjoint("", groupId, g, phone, "", 0, 0);
    }
    forall id ensures TrackedIn(kv', id) == TrackedIn(kv, id) {
      FamiliesDisjoint("", groupId, 0, "", id, 0, 0);
    }
    forall g, t ensures PhoneForTopicIn(kv', g, t) == PhoneForTopicIn(kv, g, t) {
      FamiliesDisjoint("", groupId, 0, "", "", g, t);
    }
  }

  /**
   * `set_thread_topic` then `get_thread_topic` gives back the topic id, and
   * no other lookup changes.
   */
  lemma ThreadTopicWrite(kv: Store, groupId: int, phone: string, topicId: int, title: Option<string>, now: int)
    ensures ThreadTopicIn(WithThreadTopic(kv, groupId, phone, topicId, title, now), groupId, phone) == Some(topicId)
    ensures ChangesOnly(kv, WithThreadTopic(kv, groupId, phone, topicId, title, now), {}, {}, {(groupId, phone)}, {}, {})
  {
    ThreadKeyOnly(kv, WithThreadTopic(kv, groupId, phone, topicId, title, now), groupId, phone);
  }

  /** Two stores that agree off one `thread:` key differ at most in that thread's lookup. */
  lemma ThreadKeyOnly(kv: Store, kv': Store, groupId: int, phone: string)
    requires forall k :: k != ThreadKey(groupId, phone) ==> Get(kv', k) == Get(kv, k)
    ensures ChangesOnly(kv, kv', {}, {}, {(groupId, phone)}, {}, {})
  {
    forall i ensures DeviceGroupIn(kv', i) == DeviceGroupIn(kv, i) {
      FamiliesDisjoint(i, 0, groupId, phone, "", 0, 0);
    }
    forall g ensures GroupDeviceIn(kv', g) == GroupDeviceIn(kv, g) {
      FamiliesDisjoint("", g, groupId, phone, "", 0, 0);
    }
    forall g, p | (g, p) !in {(groupId, phone)} ensures ThreadTopicIn(kv', g, p) == ThreadTopicIn(kv, g, p) {
      ThreadKeyInjective(g, groupId, p, phone);
    }
    forall id ensures TrackedIn(kv', id) == TrackedIn(kv, id) {
      FamiliesDisjoint("", 0, groupId, phone, id, 0, 0);
    }
    forall g, t ensures PhoneForTopicIn(kv', g, t) == PhoneForTopicIn(kv, g, t) {
      FamiliesDisjoint("", 0, groupId, phone, "", g, t);
    }
  }

  /** A bare number stored under a `thread:` key is read as the topic id too. */
  lemma ThreadTopicBareValue(kv: Store, groupId: int, phone: string, topicId: int)
    ensures ThreadTopicIn(kv[ThreadKey(groupId, phone) := JStr(IntToString(topicId))], groupId, phone) == Some(topicId)
  {
    ParseIntOfIntToString(topicId);
  }

  /**
   * `track_message` then `get_tracked_message` gives back `(group_id, msg_id)`;
   * after `delete_tracked_message` it gives `None`. Nothing else changes.
   */
  lemma TrackingWrite(kv: Store, messageId: string, groupId: int, msgId: int)
    ensures TrackedIn(WithTracking(kv, messageId, groupId, msgId), messageId) == Some(MessageTracking(groupId, msgId))
    ensures TrackedIn(WithoutTracking(kv, messageId), messageId) == None
    ensures ChangesOnly(kv, WithTracking(kv, messageId, groupId, msgId), {}, {}, {}, {messageId}, {})
    ensures ChangesOnly(kv, WithoutTracking(kv, messageId), {}, {}, {}, {messageId}, {})
  {
    var record := MessageTrackingToJson(MessageTracking(groupId, msgId));
    assert Get(WithTracking(kv, messageId, groupId, msgId), MessageKey(messageId)) == record;
    assert "group_id" in record.fields;
    MessageTrackingRoundTrip(MessageTracking(groupId, msgId));
    MessageKeyOnly(kv, WithTracking(kv, messageId, groupId, msgId), messageId);
    MessageKeyOnly(kv, WithoutTracking(kv, messageId), messageId);
  }

  /** Two stores that agree off the `msg:` key of `messageId` differ at most in that id's tracking. */
  lemma MessageKeyOnly(kv: Store, kv': Store, messageId: string)
    requires forall k :: k != MessageKey(messageId) ==> Get(kv', k) == Get(kv, k)
    ensures ChangesOnly(kv, kv', {}, {}, {}, {messageId}, {})
  {
    forall i ensures DeviceGroupIn(kv', i) == DeviceGroupIn(kv, i) {
      FamiliesDisjoint(i, 0, 0, "", messageId, 0, 0);
    }
    forall g ensures GroupDeviceIn(kv', g) == GroupDeviceIn(kv, g) {
      FamiliesDisjoint("", g, 0, "", messageId, 0, 0);
    }
    forall g, p ensures ThreadTopicIn(kv', g, p) == ThreadTopicIn(kv, g, p) {
      FamiliesDisjoint("", 0, g, p, messageId, 0, 0);
    }
    forall id | id !in {messageId} ensures TrackedIn(kv', id) == TrackedIn(kv, id) {
      MessageKeyInjective(id, messageId);
    }
    forall g, t ensures PhoneForTopicIn(kv', g, t) == PhoneForTopicIn(kv, g, t) {
      FamiliesDisjoint("", 0, 0, "", messageId, g, t);
    }
  }

  /** Writing the assumed reverse key changes only that (group, topic) lookup. */
  lemma TopicWrite(kv: Store, groupId: int, topicId: int, phone: string)
    ensures PhoneForTopicIn(kv[TopicKey(groupId, topicId) := JStr(phone)], groupId, topicId) == Some(phone)
    ensures ChangesOnly(kv, kv[TopicKey(groupId, topicId) := JStr(phone)], {}, {}, {}, {}, {(groupId, topicId)})
  {
    TopicKeyOnly(kv, kv[TopicKey(groupId, topicId) := JStr(phone)], groupId, topicId);
  }

  /** Two stores that agree off one `topic:` key differ at most in that topic's lookup. */
  lemma TopicKeyOnly(kv: Store, kv': Store, groupId: int, topicId: int)
    requires forall k :: k != TopicKey(groupId, topicId) ==> Get(kv', k) == Get(kv, k)
    ensures ChangesOnly(kv, kv', {}, {}, {}, {}, {(groupId, topicId)})
  {
    forall i ensures DeviceGroupIn(kv', i) == DeviceGroupIn(kv, i) {
      FamiliesDisjoint(i, 0, 0, "", "", groupId, topicId);
    }
    forall g ensures GroupDeviceIn(kv', g) == GroupDeviceIn(kv, g) {
      FamiliesDisjoint("", g, 0, "", "", groupId, topicId);
    }
    forall g, p ensures ThreadTopicIn(kv', g, p) == ThreadTopicIn(kv, g, p) {
      FamiliesDisjoint("", 0, g, p, "", groupId, topicId);
    }
    forall id ensures TrackedIn(kv', id) == TrackedIn(kv, id) {
      FamiliesDisjoint("", 0, 0, "", id, groupId, topicId);
    }
    forall g, t | (g, t) !in {(groupId, topicId)} ensures PhoneForTopicIn(kv', g, t) == PhoneForTopicIn(kv, g, t) {
      TopicKeyInjective(g, groupId, t, topicId);
    }
  }

  lemma ChangesOnlyCompose(kv1: Store, kv2: Store, kv3: Store,
                           imeis1: set<string>, groups1: set<int>, threads1: set<(int, string)>, ids1: set<string>, topics1: set<(int, int)>,
                           imeis2: set<string>, groups2: set<int>, threads2: set<(int, string)>, ids2: set<string>, topics2: set<(int, int)>)
    requires ChangesOnly(kv1, kv2, imeis1, groups1, threads1, ids1, topics1)
    requires ChangesOnly(kv2, kv3, imeis2, groups2, threads2, ids2, topics2)
    ensures ChangesOnly(kv1, kv3, imeis1 + imeis2, groups1 + groups2, threads1 + threads2, ids1 + ids2, topics1 + topics2)
  {
  }

  /**
   * The assumed `map_device_group` binds both ways, and touches only the
   * IMEI's and the group's own lookups.
   */
  lemma BindingWrite(kv: Store, imei: string, groupId: int)
    ensures DeviceGroupIn(WithBinding(kv, imei, groupId), imei) == Some(groupId)
    ensures GroupDeviceIn(WithBinding(kv, imei, groupId), groupId) == Some(imei)
    ensures ChangesOnly(kv, WithBinding(kv, imei, groupId), {imei}, {groupId}, {}, {}, {})
  {
    var kv1 := WithDeviceGroup(kv, imei, Some(groupId));
    DeviceGroupWrite(kv, imei, Some(groupId));
    GroupDeviceWrite(kv1, groupId, Some(imei));
    ChangesOnlyCompose(kv, kv1, WithBinding(kv, imei, groupId), {imei}, {}, {}, {}, {}, {}, {groupId}, {}, {}, {});
  }

  /** The assumed `delete_device_group` removes both directions and nothing else. */
  lemma BindingDelete(kv: Store, imei: string, groupId: int)
    ensures DeviceGroupIn(WithoutBinding(kv, imei, groupId), imei) == None
    ensures GroupDeviceIn(WithoutBinding(kv, imei, groupId), groupId) == None
    ensures ChangesOnly(kv, WithoutBinding(kv, imei, groupId), {imei}, {groupId}, {}, {}, {})
  {
    var kv1 := WithDeviceGroup(kv, imei, None);
    DeviceGroupWrite(kv, imei, None);
    GroupDeviceWrite(kv1, groupId, None);
    ChangesOnlyCompose(kv, kv1, WithoutBinding(kv, imei, groupId), {imei}, {}, {}, {}, {}, {}, {groupId}, {}, {}, {});
  }

  /** The assumed `map_phone_topic` maps the sender to the topic and the topic back to the sender. */
  lemma PhoneTopicWrite(kv: Store, groupId: int, phone: string, topicId: int, now: int)
    ensures ThreadTopicIn(WithPhoneTopic(kv, groupId, phone, topicId, now), groupId, phone) == Some(topicId)
    ensures PhoneForTopicIn(WithPhoneTopic(kv, groupId, phone, topicId, now), groupId, topicId) == Some(phone)
    ensures ChangesOnly(kv, WithPhoneTopic(kv, groupId, phone, topicId, now), {}, {}, {(groupId, phone)}, {}, {(groupId, topicId)})
  {
    var kv1 := WithThreadTopic(kv, groupId, phone, topicId, None, now);
    ThreadTopicWrite(kv, groupId, phone, topicId, None, now);
    TopicWrite(kv1, groupId, topicId, phone);
    ChangesOnlyCompose(kv, kv1, WithPhoneTopic(kv, groupId, phone, topicId, now),
                       {}, {}, {(groupId, phone)}, {}, {}, {}, {}, {}, {}, {(groupId, topicId)});
  }

  /**
   * Every setter overwrites the whole value under its key: the last write
   * wins whatever the first one stored (a tracking record under another
   * group included), and deleting after a write is deleting alone.
   */
  lemma LastWriteWins(kv: Store, imei: string, groupId: int, phone: string, messageId: string,
                      g1: Option<int>, g2: Option<int>, i1: Option<string>, i2: Option<string>,
                      t1: int, t2: int, title1: Option<string>, title2: Option<string>, now1: int, now2: int,
                      trackGroup1: int, trackGroup2: int, m1: int, m2: int)
    ensures WithDeviceGroup(WithDeviceGroup(kv, imei, g1), imei, g2) == WithDeviceGroup(kv, imei, g2)
    ensures WithGroupDevice(WithGroupDevice(kv, groupId, i1), groupId, i2) == WithGroupDevice(kv, groupId, i2)
    ensures WithThreadTopic(WithThreadTopic(kv, groupId, phone, t1, title1, now1), groupId, phone, t2, title2, now2)
            == WithThreadTopic(kv, groupId, phone, t2, title2, now2)
    ensures WithTracking(WithTracking(kv, messageId, trackGroup1, m1), messageId, trackGroup2, m2)
            == WithTracking(kv, messageId, trackGroup2, m2)
    ensures WithoutTracking(WithTracking(kv, messageId, trackGroup1, m1), messageId) == WithoutTracking(kv, messageId)
    ensures WithoutTracking(WithoutTracking(kv, messageId), messageId) == WithoutTracking(kv, messageId)
  {
    SecondWriteWins(kv, DeviceKey(imei), Stored(g1), Stored(g2));
    SecondWriteWins(kv, GroupKey(groupId), StoredText(i1), StoredText(i2));
    var k := ThreadKey(groupId, phone);
    SecondWriteWins(kv, k, Some(WithThreadTopic(kv, groupId, phone, t1, title1, now1)[k]),
                    Some(WithThreadTopic(kv, groupId, phone, t2, title2, now2)[k]));
    var m := MessageKey(messageId);
    SecondWriteWins(kv, m, Some(WithTracking(kv, messageId, trackGroup1, m1)[m]),
                    Some(WithTracking(kv, messageId, trackGroup2, m2)[m]));
    SecondWriteWins(kv, m, Some(WithTracking(kv, messageId, trackGroup1, m1)[m]), None);
    SecondWriteWins(kv, m, None, None);
  }

  /** What the device and group setters store: a value to write, or `None` to delete. */
  function Stored(groupId: Option<int>): Option<Json> {
    if groupId.None? then None else Some(JStr(IntToString(groupId.value)))
  }

  function StoredText(imei: Option<string>): Option<Json> {
    if imei.None? then None else Some(JStr(imei.value))
  }

  /** Writing or deleting one key, then writing or deleting it again, is the second operation alone. */
  lemma SecondWriteWins(kv: Store, k: string, first: Option<Json>, second: Option<Json>)
    ensures Put(Put(kv, k, first), k, second) == Put(kv, k, second)
  {
  }

  function Put(kv: Store, k: string, v: Option<Json>): Store {
    if v.None? then kv - {k} else kv[k := v.value]
  }

  // ---------------------------------------------------------- well-formedness

  /** A `thread:` value: a mapping record with an integer `topic_id`, or a bare number. */
  predicate ThreadValueOk(v: Json) {
    || (v.JObject? && "topic_id" in v.fields && v.fields["topic_id"].JInt?)
    || (v.JStr? && ParseInt(v.s).Some?)
  }

  /** The shape each family's values have when the store's own setters wrote them. */
  predicate EntryWellFormed(k: string, v: Json) {
    if HasPrefix(k, "device:") then v.JStr? && ParseInt(v.s).Some?
    else if HasPrefix(k, "group:") then v.JStr?
    else if HasPrefix(k, "thread:") then ThreadValueOk(v)
    else if HasPrefix(k, "msg:") then ParseMessageTracking(v).Some?
    else if HasPrefix(k, "topic:") then v.JStr?
    else true
  }

  /**
   * Every value can be read by its family's getter without raising. Values
   * of other shapes (which no writer here produces) would make the Python
   * getters raise; the lookups above read them as `None`.
   */
  ghost predicate WellFormed(kv: Store) {
    forall k :: k in kv ==> EntryWellFormed(k, kv[k])
  }

  /** Each family's keys carry their own prefix and none of the prefixes tested before it. */
  lemma DeviceKeyPrefix(imei: string)
    ensures HasPrefix(DeviceKey(imei), "device:")
  {
  }

  lemma GroupKeyPrefix(groupId: int)
    ensures !HasPrefix(GroupKey(groupId), "device:") && HasPrefix(GroupKey(groupId), "group:")
  {
    assert GroupKey(groupId)[0] == 'g';
  }

  lemma ThreadKeyPrefix(groupId: int, phone: string)
    ensures !HasPrefix(ThreadKey(groupId, phone), "device:") && !HasPrefix(ThreadKey(groupId, phone), "group:")
    ensures HasPrefix(ThreadKey(groupId, phone), "thread:")
  {
    assert ThreadKey(groupId, phone) == "thread:" + (IntToString(groupId) + ":" + phone);
  }

  lemma MessageKeyPrefix(messageId: string)
    ensures !HasPrefix(MessageKey(messageId), "device:") && !HasPrefix(MessageKey(messageId), "group:")
    ensures !HasPrefix(MessageKey(messageId), "thread:") && HasPrefix(MessageKey(messageId), "msg:")
  {
    assert MessageKey(messageId)[0] == 'm';
  }

  lemma TopicKeyPrefix(groupId: int, topicId: int)
    ensures !HasPrefix(TopicKey(groupId, topicId), "device:") && !HasPrefix(TopicKey(groupId, topicId), "group:")
    ensures !HasPrefix(TopicKey(groupId, topicId), "thread:") && !HasPrefix(TopicKey(groupId, topicId), "msg:")
    ensures HasPrefix(TopicKey(groupId, topicId), "topic:")
  {
    assert TopicKey(groupId, topicId) == "topic:" + (IntToString(groupId) + ":" + IntToString(topicId));
    assert TopicKey(groupId, topicId)[1] == 'o';
  }

  /** In a well-formed store each getter returns `None` exactly when its key is absent. */
  lemma NoneExactlyWhenAbsent(kv: Store, imei: string, groupId: int, phone: string, messageId: string, topicId: int)
    requires WellFormed(kv)
    ensures DeviceGroupIn(kv, imei).None? <==> DeviceKey(imei) !in kv
    ensures GroupDeviceIn(kv, groupId).None? <==> GroupKey(groupId) !in kv
    ensures ThreadTopicIn(kv, groupId, phone).None? <==> ThreadKey(groupId, phone) !in kv
    ensures TrackedIn(kv, messageId).None? <==> MessageKey(messageId) !in kv
    ensures PhoneForTopicIn(kv, groupId, topicId).None? <==> TopicKey(groupId, topicId) !in kv
  {
    DeviceNoneWhenAbsent(kv, imei);
    GroupNoneWhenAbsent(kv, groupId);
    ThreadNoneWhenAbsent(kv, groupId, phone);
    MessageNoneWhenAbsent(kv, messageId);
    TopicNoneWhenAbsent(kv, groupId, topicId);
  }

  lemma DeviceNoneWhenAbsent(kv: Store, imei: string)
    requires WellFormed(kv)
    ensures DeviceGroupIn(kv, imei).None? <==> DeviceKey(imei) !in kv
  {
    if DeviceKey(imei) in kv {
      DeviceKeyPrefix(imei);
      assert EntryWellFormed(DeviceKey(imei), kv[DeviceKey(imei)]);
    }
  }

  lemma GroupNoneWhenAbsent(kv: Store, groupId: int)
    requires WellFormed(kv)
    ensures GroupDeviceIn(kv, groupId).None? <==> GroupKey(groupId) !in kv
  {
    if GroupKey(groupId) in kv {
      GroupKeyPrefix(groupId);
      assert EntryWellFormed(GroupKey(groupId), kv[GroupKey(groupId)]);
    }
  }

  lemma ThreadNoneWhenAbsent(kv: Store, groupId: int, phone: string)
    requires WellFormed(kv)
    ensures ThreadTopicIn(kv, groupId, phone).None? <==> ThreadKey(groupId, phone) !in kv
  {
    if ThreadKey(groupId, phone) in kv {
      ThreadKeyPrefix(groupId, phone);
      assert EntryWellFormed(ThreadKey(groupId, phone), kv[ThreadKey(groupId, phone)]);
    }
  }

  lemma MessageNoneWhenAbsent(kv: Store, messageId: string)
    requires WellFormed(kv)
    ensures TrackedIn(kv, messageId).None? <==> MessageKey(messageId) !in kv
  {
    if MessageKey(messageId) in kv {
      MessageKeyPrefix(messageId);
      assert EntryWellFormed(MessageKey(messageId), kv[MessageKey(messageId)]);
    }
  }

  lemma TopicNoneWhenAbsent(kv: Store, groupId: int, topicId: int)
    requires WellFormed(kv)
    ensures PhoneForTopicIn(kv, groupId, topicId).None? <==> TopicKey(groupId, topicId) !in kv
  {
    if TopicKey(groupId, topicId) in kv {
      TopicKeyPrefix(groupId, topicId);
      assert EntryWellFormed(TopicKey(groupId, topicId), kv[TopicKey(groupId, topicId)]);
    }
  }



  /** Every setter and delete of the store keeps it well-formed. */
  lemma WritesKeepWellFormed(kv: Store, imei: string, groupId: int, phone: string, messageId: string,
                             topicId: int, title: Option<string>, now: int, msgId: int,
                             g: Option<int>, device: Option<string>)
    requires WellFormed(kv)
    ensures WellFormed(WithDeviceGroup(kv, imei, g))
    ensures WellFormed(WithGroupDevice(kv, groupId, device))
    ensures WellFormed(WithThreadTopic(kv, groupId, phone, topicId, title, now))
    ensures WellFormed(WithTracking(kv, messageId, groupId, msgId))
    ensures WellFormed(WithoutTracking(kv, messageId))
    ensures WellFormed(kv[TopicKey(groupId, topicId) := JStr(phone)])
  {
    DeviceWriteKeepsWellFormed(kv, imei, g);
    GroupWriteKeepsWellFormed(kv, groupId, device);
    ThreadWriteKeepsWellFormed(kv, groupId, phone, topicId, title, now);
    TrackingWritesKeepWellFormed(kv, messageId, groupId, msgId);
    TopicWriteKeepsWellFormed(kv, groupId, topicId, phone);
  }

  lemma DeviceWriteKeepsWellFormed(kv: Store, imei: string, g: Option<int>)
    requires WellFormed(kv)
    ensures WellFormed(WithDeviceGroup(kv, imei, g))
  {
    DeviceKeyPrefix(imei);
    if g.Some? {
      ParseIntOfIntToString(g.value);
    }
  }

  lemma GroupWriteKeepsWellFormed(kv: Store, groupId: int, device: Option<string>)
    requires WellFormed(kv)
    ensures WellFormed(WithGroupDevice(kv, groupId, device))
  {
    GroupKeyPrefix(groupId);
  }

  lemma ThreadWriteKeepsWellFormed(kv: Store, groupId: int, phone: string, topicId: int,
                                   title: Option<string>, now: int)
    requires WellFormed(kv)
    ensures WellFormed(WithThreadTopic(kv, groupId, phone, topicId, title, now))
  {
    ThreadKeyPrefix(groupId, phone);
  }

  lemma TrackingWritesKeepWellFormed(kv: Store, messageId: string, groupId: int, msgId: int)
    requires WellFormed(kv)
    ensures WellFormed(WithTracking(kv, messageId, groupId, msgId))
    ensures WellFormed(WithoutTracking(kv, messageId))
  {
    MessageKeyPrefix(messageId);
    MessageTrackingRoundTrip(MessageTracking(groupId, msgId));
  }

  lemma TopicWriteKeepsWellFormed(kv: Store, groupId: int, topicId: int, phone: string)
    requires WellFormed(kv)
    ensures WellFormed(kv[TopicKey(groupId, topicId) := JStr(phone)])
  {
    TopicKeyPrefix(groupId, topicId);
  }

  lemma CompositeWritesKeepWellFormed(kv: Store, imei: string, groupId: int, phone: string, topicId: int, now: int)
    requires WellFormed(kv)
    ensures WellFormed(WithBinding(kv, imei, groupId))
    ensures WellFormed(WithoutBinding(kv, imei, groupId))
    ensures WellFormed(WithPhoneTopic(kv, groupId, phone, topicId, now))
  {
    WritesKeepWellFormed(kv, imei, groupId, phone, "", topicId, None, now, 0, Some(groupId), None);
    WritesKeepWellFormed(kv, imei, groupId, phone, "", topicId, None, now, 0, None, None);
    var kv1 := WithDeviceGroup(kv, imei, Some(groupId));
    WritesKeepWellFormed(kv1, imei, groupId, phone, "", topicId, None, now, 0, None, Some(imei));
    var kv2 := WithDeviceGroup(kv, imei, None);
    WritesKeepWellFormed(kv2, imei, groupId, phone, "", topicId, None, now, 0, None, None);
    var kv3 := WithThreadTopic(kv, groupId, phone, topicId, None, now);
    WritesKeepWellFormed(kv3, imei, groupId, phone, "", topicId, None, now, 0, None, None);
  }

  // ------------------------------------------------------------------- class

  /**
   * `Database`: the bridge's handle on the remote namespace. Each method
   * reads, writes or deletes single keys of `kv`; the five relations above
   * are what its getters see.
   */
  class Database {
    var kv: Store

    ghost predicate Valid()
      reads this
    {
      WellFormed(kv)
    }

    /** Opens a namespace with whatever it already holds. */
    constructor(namespace: Store)
      requires WellFormed(namespace)
      ensures Valid() && kv == namespace
    {
      kv := namespace;
    }

    method GetDeviceGroup(imei: string) returns (groupId: Option<int>)
      requires Valid()
      ensures groupId == DeviceGroupIn(kv, imei)
      ensures groupId.None? <==> DeviceKey(imei) !in kv
    {
      var value := Get(kv, DeviceKey(imei));
      groupId := if Truthy(value) then PyInt(value) else None;
      NoneExactlyWhenAbsent(kv, imei, 0, "", "", 0);
    }

    method SetDeviceGroup(imei: string, groupId: Option<int>)
      requires Valid()
      modifies this
      ensures Valid() && kv == WithDeviceGroup(old(kv), imei, groupId)
      ensures DeviceGroupIn(kv, imei) == groupId
      ensures ChangesOnly(old(kv), kv, {imei}, {}, {}, {}, {})
    {
      ghost var before := kv;
      var key := DeviceKey(imei);
      if groupId.None? {
        kv := kv - {key};
      } else {
        kv := kv[key := JStr(IntToString(groupId.value))];
      }
      DeviceGroupWrite(before, imei, groupId);
      WritesKeepWellFormed(before, imei, 0, "", "", 0, None, 0, 0, groupId, None);
    }

    method GetThreadTopic(groupId: int, phone: string) returns (topicId: Option<int>)
      requires Valid()
      ensures topicId == ThreadTopicIn(kv, groupId, phone)
      ensures topicId.None? <==> ThreadKey(groupId, phone) !in kv
    {
      var value := Get(kv, ThreadKey(groupId, phone));
      if value.JObject? && "topic_id" in value.fields {
        topicId := PyInt(value.fields["topic_id"]);
      } else {
        topicId := if Truthy(value) then PyInt(value) else None;
      }
      NoneExactlyWhenAbsent(kv, "", groupId, phone, "", 0);
    }

    /** `set_thread_topic`; `now` stands for `int(time.time())`. */
    method SetThreadTopic(groupId: int, phone: string, topicId: int, title: Option<string>, now: int)
      requires Valid()
      modifies this
      ensures Valid() && kv == WithThreadTopic(old(kv), groupId, phone, topicId, title, now)
      ensures ThreadTopicIn(kv, groupId, phone) == Some(topicId)
      ensures ChangesOnly(old(kv), kv, {}, {}, {(groupId, phone)}, {}, {})
    {
      ghost var before := kv;
      var mapping := PhoneTopicMapping(groupId, topicId, TopicTitle(title, phone), now);
      kv := kv[ThreadKey(groupId, phone) := PhoneTopicMappingToJson(mapping)];
      ThreadTopicWrite(before, groupId, phone, topicId, title, now);
      WritesKeepWellFormed(before, "", groupId, phone, "", topicId, title, now, 0, None, None);
    }

    method GetGroupDevice(groupId: int) returns (imei: Option<string>)
      requires Valid()
      ensures imei == GroupDeviceIn(kv, groupId)
      ensures imei.None? <==> GroupKey(groupId) !in kv
    {
      var value := Get(kv, GroupKey(groupId));
      imei := if value.JStr? then Some(value.s) else None;
      NoneExactlyWhenAbsent(kv, "", groupId, "", "", 0);
    }

    method SetGroupDevice(groupId: int, imei: Option<string>)
      requires Valid()
      modifies this
      ensures Valid() && kv == WithGroupDevice(old(kv), groupId, imei)
      ensures GroupDeviceIn(kv, groupId) == imei
      ensures ChangesOnly(old(kv), kv, {}, {groupId}, {}, {}, {})
    {
      ghost var before := kv;
      var key := GroupKey(groupId);
      if imei.None? {
        kv := kv - {key};
      } else {
        kv := kv[key := JStr(imei.value)];
      }
      GroupDeviceWrite(before, groupId, imei);
      WritesKeepWellFormed(before, "", groupId, "", "", 0, None, 0, 0, None, imei);
    }

    method TrackMessage(messageId: string, groupId: int, msgId: int)
      requires Valid()
      modifies this
      ensures Valid() && kv == WithTracking(old(kv), messageId, groupId, msgId)
      ensures TrackedIn(kv, messageId) == Some(MessageTracking(groupId, msgId))
      ensures ChangesOnly(old(kv), kv, {}, {}, {}, {messageId}, {})
    {
      ghost var before := kv;
      kv := kv[MessageKey(messageId) := MessageTrackingToJson(MessageTracking(groupId, msgId))];
      TrackingWrite(before, messageId, groupId, msgId);
      WritesKeepWellFormed(before, "", groupId, "", messageId, 0, None, 0, msgId, None, None);
    }

    method GetTrackedMessage(messageId: string) returns (tracking: Option<MessageTracking>)
      requires Valid()
      ensures tracking == TrackedIn(kv, messageId)
      ensures tracking.None? <==> MessageKey(messageId) !in kv
    {
      var data := Get(kv, MessageKey(messageId));
      tracking := if Truthy(data) then ParseMessageTracking(data) else None;
      NoneExactlyWhenAbsent(kv, "", 0, "", messageId, 0);
    }

    method DeleteTrackedMessage(messageId: string)
      requires Valid()
      modifies this
      ensures Valid() && kv == WithoutTracking(old(kv), messageId)
      ensures TrackedIn(kv, messageId) == None
      ensures ChangesOnly(old(kv), kv, {}, {}, {}, {messageId}, {})
    {
      ghost var before := kv;
      kv := kv - {MessageKey(messageId)};
      TrackingWrite(before, messageId, 0, 0);
      WritesKeepWellFormed(before, "", 0, "", messageId, 0, None, 0, 0, None, None);
    }

    // The bot calls four more store methods that `Database` does not define;
    // they are assumed to be these combinations of single-key writes.

    /** Assumed `map_device_group(imei, group_id)`: writes `device:` then `group:`. */
    method MapDeviceGroup(imei: string, groupId: int)
      requires Valid()
      modifies this
      ensures Valid() && kv == WithBinding(old(kv), imei, groupId)
      ensures DeviceGroupIn(kv, imei) == Some(groupId) && GroupDeviceIn(kv, groupId) == Some(imei)
      ensures ChangesOnly(old(kv), kv, {imei}, {groupId}, {}, {}, {})
    {
      ghost var before := kv;
      SetDeviceGroup(imei, Some(groupId));
      SetGroupDevice(groupId, Some(imei));
      BindingWrite(before, imei, groupId);
    }

    /** Assumed `delete_device_group(imei=..., group_id=...)`: deletes both keys. */
    method DeleteDeviceGroup(imei: string, groupId: int)
      requires Valid()
      modifies this
      ensures Valid() && kv == WithoutBinding(old(kv), imei, groupId)
      ensures DeviceGroupIn(kv, imei) == None && GroupDeviceIn(kv, groupId) == None
      ensures ChangesOnly(old(kv), kv, {imei}, {groupId}, {}, {}, {})
    {
      ghost var before := kv;
      SetDeviceGroup(imei, None);
      SetGroupDevice(groupId, None);
      BindingDelete(before, imei, groupId);
    }

    /** Assumed `map_phone_topic(group_id, phone, topic_id)`: the thread record and its reverse key. */
    method MapPhoneTopic(groupId: int, phone: string, topicId: int, now: int)
      requires Valid()
      modifies this
      ensures Valid() && kv == WithPhoneTopic(old(kv), groupId, phone, topicId, now)
      ensures ThreadTopicIn(kv, groupId, phone) == Some(topicId)
      ensures PhoneForTopicIn(kv, groupId, topicId) == Some(phone)
      ensures ChangesOnly(old(kv), kv, {}, {}, {(groupId, phone)}, {}, {(groupId, topicId)})
    {
      ghost var before := kv;
      SetThreadTopic(groupId, phone, topicId, None, now);
      ghost var middle := kv;
      kv := kv[TopicKey(groupId, topicId) := JStr(phone)];
      PhoneTopicWrite(before, groupId, phone, topicId, now);
      WritesKeepWellFormed(middle, "", groupId, phone, "", topicId, None, now, 0, None, None);
    }

    /** Assumed `get_phone_from_topic(group_id, topic_id)`. */
    method GetPhoneFromTopic(groupId: int, topicId: int) returns (phone: Option<string>)
      requires Valid()
      ensures phone == PhoneForTopicIn(kv, groupId, topicId)
      ensures phone.None? <==> TopicKey(groupId, topicId) !in kv
    {
      var value := Get(kv, TopicKey(groupId, topicId));
      phone := if value.JStr? then Some(value.s) else None;
      NoneExactlyWhenAbsent(kv, "", groupId, "", "", topicId);
    }
  }
}

/**
 * The bot side of the bridge (`SMSTelegramClient`): the `/bind`, `/unbind`
 * and `/status` commands, relaying topic replies as outgoing SMS, forwarding
 * incoming SMS into per-sender forum topics, and posting delivery reports.
 *
 * Each handler is specified by a pure function from the store's contents
 * (and the answers of the Telegram SDK and of the MQTT client, which are
 * passed in) to the new contents and the list of calls made to the outside
 * world; the class's methods are proved to do exactly that.
 */
module Telegram {
  import opened Wrappers
  import opened Json
  import opened Schemas
  import opened WorkersKv

  // ------------------------------------------------------------- the outside

  /** A call the bot makes to the outside world. */
  datatype Action =
    | Respond(chat: int, text: string)                  // event.respond(text)
    | SendMessage(chat: int, replyTo: int, text: string) // send_message(entity, message, reply_to)
    | CreateTopic(chat: int, title: string)              // CreateForumTopicRequest
    | SendSms(imei: string, recipient: string, text: string) // mqtt_client.send_sms

  /**
   * What a handler leaves behind: the store's new contents, the calls it
   * made in order, and its return value (only `forward_sms_to_telegram`
   * returns one; the other handlers leave it `None`).
   */
  datatype Step = Step(kv: Store, actions: seq<Action>, result: Option<int>)

  /** Python's truthiness of an optional id: `None` and `0` are false. */
  predicate PresentId(o: Option<int>) {
    o.Some? && o.value != 0
  }

  /** Python's truthiness of an optional string: `None` and `""` are false. */
  predicate PresentText(o: Option<string>) {
    o.Some? && o.value != ""
  }

  const BindUsage := "Please specify the device IMEI. Usage: /bind <imei>"
  const NoDeviceBound := "No device is bound to this group."
  const UnknownRecipient := "Error: Could not determine the recipient for this message."
  const NoDeviceForReply := "Error: No device is bound to this group."
  const SmsSendFailed := "Failed to send SMS message."

  function DeviceAlreadyBound(imei: string): string {
    "Device " + imei + " is already bound to another group. Unbind it first."
  }

  function GroupAlreadyBound(imei: string): string {
    "This group is already bound to device " + imei + ". Unbind it first."
  }

  function BindDone(imei: string): string {
    "Device " + imei + " has been bound to this group successfully."
  }

  function NotBoundHere(imei: string): string {
    "Device " + imei + " is not bound to this group."
  }

  function UnbindDone(imei: string): string {
    "Device " + imei + " has been unbound from this group."
  }

  function StatusText(imei: string): string {
    "Device IMEI: " + imei + "\nStatus: Active"
  }

  function FormatSms(sender: string, content: string): string {
    "From: " + sender + "\n\n" + content
  }

  function SmsTopicTitle(sender: string): string {
    "SMS: " + sender
  }

  // -------------------------------------------------------- command parsing

  /** The characters Python's `str.split()` and `str.strip()` treat as whitespace. */
  predicate IsSpace(c: char) {
    ('\t' <= c <= '\r') || ('\U{1C}' <= c <= ' ') || c == '\U{85}' || c == '\U{A0}'
    || c == '\U{1680}' || ('\U{2000}' <= c <= '\U{200A}') || c == '\U{2028}' || c == '\U{2029}'
    || c == '\U{202F}' || c == '\U{205F}' || c == '\U{3000}'
  }

  /** Every character of `s` at an index in `lo..hi` is whitespace. */
  predicate SpaceBetween(s: string, lo: int, hi: int) {
    forall k :: lo <= k < hi && 0 <= k < |s| ==> IsSpace(s[k])
  }

  /** The index of the first non-whitespace character at or after `from` (`lstrip`). */
  function SkipSpace(s: string, from: nat): (b: nat)
    requires from <= |s|
    ensures from <= b <= |s| && SpaceBetween(s, from, b)
    ensures b == |s| || !IsSpace(s[b])
    decreases |s| - from
  {
    if from < |s| && IsSpace(s[from]) then SkipSpace(s, from + 1) else from
  }

  /** The index just past the run of non-whitespace characters starting at `from`. */
  function SkipWord(s: string, from: nat): (e: nat)
    requires from <= |s|
    ensures from <= e <= |s|
    ensures forall k :: from <= k < e ==> !IsSpace(s[k])
    ensures e == |s| || IsSpace(s[e])
    decreases |s| - from
  {
    if from < |s| && !IsSpace(s[from]) then SkipWord(s, from + 1) else from
  }

  /** Where `s[lo..hi]` ends once its trailing whitespace is dropped (`rstrip`). */
  function TrimBack(s: string, lo: nat, hi: nat): (e: nat)
    requires lo <= hi <= |s|
    ensures lo <= e <= hi && SpaceBetween(s, e, hi)
    ensures e == lo || !IsSpace(s[e - 1])
    decreases hi
  {
    if lo < hi && IsSpace(s[hi - 1]) then TrimBack(s, lo, hi - 1) else hi
  }

  /**
   * Where the command word ends: past the leading whitespace and the first
   * maximal run of non-whitespace characters (`split`'s first part).
   */
  function FirstWordEnd(text: string): (e: nat)
    ensures SkipSpace(text, 0) <= e <= |text|
    ensures forall k :: SkipSpace(text, 0) <= k < e ==> !IsSpace(text[k])
    ensures e == |text| || IsSpace(text[e])
  {
    SkipWord(text, SkipSpace(text, 0))
  }

  /**
   * `parts = text.split(maxsplit=1)` followed by `parts[1].strip()` when
   * `len(parts) == 2`: `None` exactly when only whitespace follows the
   * command word, and otherwise the rest of the text with its surrounding
   * whitespace removed.
   */
  function CommandArgument(text: string): (arg: Option<string>)
    ensures arg.None? <==> SpaceBetween(text, FirstWordEnd(text), |text|)
    ensures arg.Some? ==> exists i, j :: FirstWordEnd(text) < i <= j <= |text|
                                         && SpaceBetween(text, FirstWordEnd(text), i) && SpaceBetween(text, j, |text|)
                                         && arg.value == text[i..j]
    ensures arg.Some? ==> arg.value != [] && !IsSpace(arg.value[0]) && !IsSpace(arg.value[|arg.value| - 1])
  {
    var e := FirstWordEnd(text);
    var i := SkipSpace(text, e);
    if i == |text| then
      None
    else
      var j := TrimBack(text, i, |text|);
      assert j != i by { assert !IsSpace(text[i]); }
      Some(text[i..j])
  }

  /** What `CommandArgument` can return: nothing, or a non-empty argument. */
  predicate Parsed(arg: Option<string>) {
    arg.Some? ==> arg.value != ""
  }

  // ------------------------------------------------------- handler routing

  /** The event handlers `register_handlers` installs. */
  datatype Handler = ReplyHandler | StartHandler | BindHandler | UnbindHandler | StatusHandler | HelpHandler

  predicate StartsWith(s: string, p: string) {
    |p| <= |s| && s[..|p|] == p
  }

  /** Whether a handler's pattern matches an incoming message's text. */
  predicate Matches(h: Handler, text: string) {
    match h
    case ReplyHandler => |text| > 0 && '/' !in text    // pattern ^[^/]+$
    case StartHandler => StartsWith(text, "/start")
    case BindHandler => StartsWith(text, "/bind")
    case UnbindHandler => StartsWith(text, "/unbind")
    case StatusHandler => StartsWith(text, "/status")
    case HelpHandler => StartsWith(text, "/help")
  }

  /** The first two characters and the fifth of each command name tell the commands apart. */
  lemma CommandShape(h: Handler, text: string)
    requires h != ReplyHandler && Matches(h, text)
    ensures |text| >= 5 && text[0] == '/' && '/' in text
    ensures text[1] == (match h
      case StartHandler => 's' case StatusHandler => 's' case BindHandler => 'b'
      case UnbindHandler => 'u' case _ => 'h')
    ensures h == StartHandler ==> text[4] == 'r'
    ensures h == StatusHandler ==> text[4] == 't'
  {
    match h
    case StartHandler => assert text[..6] == "/start";
    case BindHandler => assert text[..5] == "/bind";
    case UnbindHandler => assert text[..7] == "/unbind";
    case StatusHandler => assert text[..7] == "/status";
    case HelpHandler => assert text[..5] == "/help";
  }

  /** The patterns are mutually exclusive: every message reaches at most one handler. */
  lemma AtMostOneHandler(h1: Handler, h2: Handler, text: string)
    requires Matches(h1, text) && Matches(h2, text)
    ensures h1 == h2
  {
    if h1 != ReplyHandler {
      CommandShape(h1, text);
    }
    if h2 != ReplyHandler {
      CommandShape(h2, text);
    }
  }

  // ------------------------------------------------------------ reply topic

  /** The parts of `event.reply_to` the reply handler looks at. */
  datatype ReplyHeader = ReplyHeader(forumTopic: bool, replyToMsgId: Option<int>, replyToTopId: Option<int>)

  /**
   * The forum topic a plain-text message replies in: `reply_to_top_id or
   * reply_to_msg_id` when the message is a reply inside a forum topic, and
   * only when that id is truthy.
   */
  function ReplyTopic(replyTo: Option<ReplyHeader>): (topic: Option<int>)
    ensures topic.Some? <==> replyTo.Some? && replyTo.value.forumTopic
                             && (PresentId(replyTo.value.replyToTopId) || PresentId(replyTo.value.replyToMsgId))
    ensures topic.Some? ==> topic.value != 0
    ensures topic.Some? && PresentId(replyTo.value.replyToTopId) ==> topic == replyTo.value.replyToTopId
    ensures topic.Some? && !PresentId(replyTo.value.replyToTopId) ==> topic == replyTo.value.replyToMsgId
  {
    if replyTo.None? || !replyTo.value.forumTopic then None
    else
      var t := if PresentId(replyTo.value.replyToTopId) then replyTo.value.replyToTopId else replyTo.value.replyToMsgId;
      if PresentId(t) then t else None
  }

  // ------------------------------------------------------ handler behaviour

  /** `handle_bind_command`: bind the named device to this chat unless either side is taken. */
  function BindSpec(kv: Store, chat: int, arg: Option<string>): Step {
    if arg.None? then Step(kv, [Respond(chat, BindUsage)], None)
    else
      var imei := arg.value;
      if PresentId(DeviceGroupIn(kv, imei)) then Step(kv, [Respond(chat, DeviceAlreadyBound(imei))], None)
      else if PresentText(GroupDeviceIn(kv, chat)) then
        Step(kv, [Respond(chat, GroupAlreadyBound(GroupDeviceIn(kv, chat).value))], None)
      else Step(WithBinding(kv, imei, chat), [Respond(chat, BindDone(imei))], None)
  }

  /**
   * `handle_unbind_command`: without an argument, drop whatever device this
   * chat has; with one, drop that device only if it is bound to this chat.
   */
  function UnbindSpec(kv: Store, chat: int, arg: Option<string>): Step {
    if arg.None? then
      var imei := GroupDeviceIn(kv, chat);
      if !PresentText(imei) then Step(kv, [Respond(chat, NoDeviceBound)], None)
      else Step(WithoutBinding(kv, imei.value, chat), [Respond(chat, UnbindDone(imei.value))], None)
    else
      var imei := arg.value;
      if DeviceGroupIn(kv, imei) != Some(chat) then Step(kv, [Respond(chat, NotBoundHere(imei))], None)
      else Step(WithoutBinding(kv, imei, chat), [Respond(chat, UnbindDone(imei))], None)
  }

  /** `handle_status_command`: report the chat's device, if any. */
  function StatusSpec(kv: Store, chat: int): Step {
    var imei := GroupDeviceIn(kv, chat);
    if !PresentText(imei) then Step(kv, [Respond(chat, NoDeviceBound)], None)
    else Step(kv, [Respond(chat, StatusText(imei.value))], None)
  }

  /**
   * `forward_sms_to_telegram`. `created` is what `create_topic` returns
   * (`None` when the request fails or yields no id) and `sent` the id of the
   * message `send_message` posts (`None` when it raises); `now` is the clock.
   */
  function ForwardSpec(kv: Store, sender: string, content: string, imei: string,
                       created: Option<int>, sent: Option<int>, now: int): Step {
    var group := DeviceGroupIn(kv, imei);
    if !PresentId(group) then Step(kv, [], None)
    else
      var g := group.value;
      var post := SendMessage(g, 0, FormatSms(sender, content));
      var existing := ThreadTopicIn(kv, g, sender);
      if PresentId(existing) then Step(kv, [post.(replyTo := existing.value)], sent)
      else if !PresentId(created) then Step(kv, [CreateTopic(g, SmsTopicTitle(sender))], None)
      else
        Step(WithPhoneTopic(kv, g, sender, created.value, now),
             [CreateTopic(g, SmsTopicTitle(sender)), post.(replyTo := created.value)], sent)
  }

  /**
   * `update_message_status`: post the status under the tracked message when
   * `get_messages` finds it (`found`), and stop tracking the id either way.
   */
  function UpdateStatusSpec(kv: Store, messageId: string, status: string, found: bool): Step {
    var tracked := TrackedIn(kv, messageId);
    if tracked.None? then Step(kv, [], None)
    else
      Step(WithoutTracking(kv, messageId),
           if found then [SendMessage(tracked.value.groupId, tracked.value.msgId, status)] else [], None)
  }

  /**
   * `_handle_sms_reply`: send the reply as an SMS to the topic's phone through
   * the chat's device. `smsId` is what `send_sms` returns.
   */
  function SmsReplySpec(kv: Store, chat: int, topic: int, msgId: int, text: string, smsId: Option<string>): Step {
    var phone := PhoneForTopicIn(kv, chat, topic);
    if !PresentText(phone) then Step(kv, [SendMessage(chat, msgId, UnknownRecipient)], None)
    else
      var imei := GroupDeviceIn(kv, chat);
      if !PresentText(imei) then Step(kv, [SendMessage(chat, msgId, NoDeviceForReply)], None)
      else if PresentText(smsId) then
        Step(WithTracking(kv, smsId.value, chat, msgId), [SendSms(imei.value, phone.value, text)], None)
      else Step(kv, [SendSms(imei.value, phone.value, text), SendMessage(chat, msgId, SmsSendFailed)], None)
  }

  /**
   * `handle_new_message`: a plain-text reply inside a forum topic goes out as
   * an SMS. Only texts with `Matches(ReplyHandler, text)` (no '/') reach it.
   */
  function NewMessageSpec(kv: Store, chat: int, msgId: int, text: string,
                          replyTo: Option<ReplyHeader>, smsId: Option<string>): Step {
    var topic := ReplyTopic(replyTo);
    if topic.None? then Step(kv, [], None)
    else SmsReplySpec(kv, chat, topic.value, msgId, text, smsId)
  }

  // ------------------------------------------------------- binding invariant

  /**
   * The two directions of the device-group binding agree: every bound device
   * names a nonzero chat that names it back, and every bound chat names a
   * nonempty IMEI bound back to it.
   */
  ghost predicate BindingsConsistent(kv: Store) {
    && (forall imei :: DeviceGroupIn(kv, imei).Some? ==>
          imei != "" && DeviceGroupIn(kv, imei).value != 0
          && GroupDeviceIn(kv, DeviceGroupIn(kv, imei).value) == Some(imei))
    && (forall g :: GroupDeviceIn(kv, g).Some? ==>
          g != 0 && GroupDeviceIn(kv, g).value != ""
          && DeviceGroupIn(kv, GroupDeviceIn(kv, g).value) == Some(g))
  }

  /** Binding a free device to a free chat keeps the directions in agreement. */
  lemma BindPairKeepsConsistent(kv: Store, imei: string, g: int)
    requires BindingsConsistent(kv) && imei != "" && g != 0
    requires DeviceGroupIn(kv, imei).None? && GroupDeviceIn(kv, g).None?
    ensures BindingsConsistent(WithBinding(kv, imei, g))
  {
    var kv' := WithBinding(kv, imei, g);
    BindingWrite(kv, imei, g);
    forall i | DeviceGroupIn(kv', i).Some?
      ensures i != "" && DeviceGroupIn(kv', i).value != 0 && GroupDeviceIn(kv', DeviceGroupIn(kv', i).value) == Some(i)
    {
      if i != imei {
        assert DeviceGroupIn(kv', i) == DeviceGroupIn(kv, i);
        assert GroupDeviceIn(kv, DeviceGroupIn(kv, i).value) == Some(i);
      }
    }
    forall h | GroupDeviceIn(kv', h).Some?
      ensures h != 0 && GroupDeviceIn(kv', h).value != "" && DeviceGroupIn(kv', GroupDeviceIn(kv', h).value) == Some(h)
    {
      if h != g {
        assert GroupDeviceIn(kv', h) == GroupDeviceIn(kv, h);
        assert DeviceGroupIn(kv, GroupDeviceIn(kv, h).value) == Some(h);
      }
    }
  }

  /** Removing a binding pair keeps the directions in agreement. */
  lemma UnbindPairKeepsConsistent(kv: Store, imei: string, g: int)
    requires BindingsConsistent(kv) && DeviceGroupIn(kv, imei) == Some(g)
    ensures BindingsConsistent(WithoutBinding(kv, imei, g))
  {
    var kv' := WithoutBinding(kv, imei, g);
    BindingDelete(kv, imei, g);
    assert GroupDeviceIn(kv, g) == Some(imei);
    forall i | DeviceGroupIn(kv', i).Some?
      ensures i != "" && DeviceGroupIn(kv', i).value != 0 && GroupDeviceIn(kv', DeviceGroupIn(kv', i).value) == Some(i)
    {
      assert i != imei;
      assert DeviceGroupIn(kv', i) == DeviceGroupIn(kv, i);
      assert GroupDeviceIn(kv, DeviceGroupIn(kv, i).value) == Some(i);
    }
    forall h | GroupDeviceIn(kv', h).Some?
      ensures h != 0 && GroupDeviceIn(kv', h).value != "" && DeviceGroupIn(kv', GroupDeviceIn(kv', h).value) == Some(h)
    {
      assert h != g;
      assert GroupDeviceIn(kv', h) == GroupDeviceIn(kv, h);
      assert DeviceGroupIn(kv, GroupDeviceIn(kv, h).value) == Some(h);
    }
  }

  // ----------------------------------------------------------- bind, unbind

  /** Writing a pair whose two sides were free leaves every present binding as it was. */
  lemma FreePairWriteKeepsBound(kv: Store, imei: string, chat: int)
    requires !PresentId(DeviceGroupIn(kv, imei)) && !PresentText(GroupDeviceIn(kv, chat))
    ensures forall i :: PresentId(DeviceGroupIn(kv, i)) ==> DeviceGroupIn(WithBinding(kv, imei, chat), i) == DeviceGroupIn(kv, i)
    ensures forall g :: PresentText(GroupDeviceIn(kv, g)) ==> GroupDeviceIn(WithBinding(kv, imei, chat), g) == GroupDeviceIn(kv, g)
  {
    BindingWrite(kv, imei, chat);
  }

  /** Both sides of the requested pair are free: the one case in which `/bind` writes. */
  predicate BindAllowed(kv: Store, chat: int, arg: Option<string>) {
    arg.Some? && !PresentId(DeviceGroupIn(kv, arg.value)) && !PresentText(GroupDeviceIn(kv, chat))
  }

  /** A character of the fixed tail of a message built as `head + middle + tail`. */
  lemma TailChar(head: string, middle: string, tail: string, k: nat)
    requires k < |tail|
    ensures (head + middle + tail)[|head| + |middle| + k] == tail[k]
  {
  }

  /** The refusals `/bind` can send with an argument differ from its success message. */
  lemma BindRepliesDiffer(imei: string, other: string)
    ensures BindDone(imei) != DeviceAlreadyBound(imei)
    ensures BindDone(imei) != GroupAlreadyBound(other)
  {
    TailChar("Device ", imei, " has been bound to this group successfully.", 1);
    TailChar("Device ", imei, " is already bound to another group. Unbind it first.", 1);
    assert BindDone(imei)[0] == 'D';
    assert GroupAlreadyBound(other)[0] == 'T';
  }

  /**
   * `/bind` answers the chat exactly once and never rebinds a device or a
   * chat that is already bound; when both sides are free it binds exactly the
   * requested pair, touches no other key and says so, and otherwise it leaves
   * the store as it was.
   */
  lemma BindNeverOverwrites(kv: Store, chat: int, arg: Option<string>)
    ensures var s := BindSpec(kv, chat, arg);
      && |s.actions| == 1 && s.actions[0].Respond? && s.actions[0].chat == chat
      && (forall i :: PresentId(DeviceGroupIn(kv, i)) ==> DeviceGroupIn(s.kv, i) == DeviceGroupIn(kv, i))
      && (forall g :: PresentText(GroupDeviceIn(kv, g)) ==> GroupDeviceIn(s.kv, g) == GroupDeviceIn(kv, g))
      && (BindAllowed(kv, chat, arg) ==>
            && DeviceGroupIn(s.kv, arg.value) == Some(chat)
            && GroupDeviceIn(s.kv, chat) == arg
            && ChangesOnly(kv, s.kv, {arg.value}, {chat}, {}, {}, {})
            && s.actions == [Respond(chat, BindDone(arg.value))])
      && (!BindAllowed(kv, chat, arg) ==> s.kv == kv)
  {
    var s := BindSpec(kv, chat, arg);
    if BindAllowed(kv, chat, arg) {
      assert s == Step(WithBinding(kv, arg.value, chat), [Respond(chat, BindDone(arg.value))], None);
      BindingWrite(kv, arg.value, chat);
      FreePairWriteKeepsBound(kv, arg.value, chat);
    } else {
      assert s.kv == kv;
    }
  }

  /**
   * `/bind` reports success exactly when both sides were free, and from a real
   * chat (a nonzero id) the store changes exactly then.
   */
  lemma BindSucceedsExactlyWhenFree(kv: Store, chat: int, arg: Option<string>)
    ensures var s := BindSpec(kv, chat, arg);
      && ((arg.Some? && s.actions[0].text == BindDone(arg.value)) <==> BindAllowed(kv, chat, arg))
      && (chat != 0 ==> (s.kv != kv <==> BindAllowed(kv, chat, arg)))
  {
    var s := BindSpec(kv, chat, arg);
    if BindAllowed(kv, chat, arg) {
      assert s.kv == WithBinding(kv, arg.value, chat);
      if chat != 0 {
        BindingWrite(kv, arg.value, chat);
        assert DeviceGroupIn(s.kv, arg.value) != DeviceGroupIn(kv, arg.value);
      }
    } else {
      assert s.kv == kv;
      if arg.Some? {
        var other := if GroupDeviceIn(kv, chat).Some? then GroupDeviceIn(kv, chat).value else "";
        BindRepliesDiffer(arg.value, other);
      }
    }
  }

  /** Sending the same `/bind` twice: the second one changes nothing. */
  lemma BindIdempotent(kv: Store, chat: int, arg: Option<string>)
    requires Parsed(arg)
    ensures BindSpec(BindSpec(kv, chat, arg).kv, chat, arg).kv == BindSpec(kv, chat, arg).kv
  {
    var kv1 := BindSpec(kv, chat, arg).kv;
    if arg.Some? && !PresentId(DeviceGroupIn(kv, arg.value)) && !PresentText(GroupDeviceIn(kv, chat)) {
      assert kv1 == WithBinding(kv, arg.value, chat);
      BindingWrite(kv, arg.value, chat);
      if chat != 0 {
        assert PresentId(DeviceGroupIn(kv1, arg.value));
      } else {
        assert PresentText(GroupDeviceIn(kv1, chat));
      }
    } else {
      assert kv1 == kv;
    }
  }

  /** `/bind` from a real chat (Telegram chat ids are never 0) keeps the binding invariant. */
  lemma BindKeepsConsistent(kv: Store, chat: int, arg: Option<string>)
    requires BindingsConsistent(kv) && chat != 0 && Parsed(arg)
    ensures BindingsConsistent(BindSpec(kv, chat, arg).kv)
  {
    if BindAllowed(kv, chat, arg) {
      assert BindSpec(kv, chat, arg).kv == WithBinding(kv, arg.value, chat);
      FalsyMeansAbsent(kv, arg.value, chat);
      BindPairKeepsConsistent(kv, arg.value, chat);
    } else {
      assert BindSpec(kv, chat, arg).kv == kv;
    }
  }

  /** Under the invariant, a falsy binding is a missing one. */
  lemma FalsyMeansAbsent(kv: Store, imei: string, chat: int)
    requires BindingsConsistent(kv)
    ensures !PresentId(DeviceGroupIn(kv, imei)) ==> DeviceGroupIn(kv, imei).None?
    ensures !PresentText(GroupDeviceIn(kv, chat)) ==> GroupDeviceIn(kv, chat).None?
  {
  }

  /**
   * `/unbind` only ever removes bindings that point at this chat: every other
   * chat and every device bound elsewhere reads as before. When it applies,
   * the removed device and this chat are unbound afterwards; otherwise (no
   * device here, or a device bound elsewhere or nowhere) the store is untouched.
   */
  lemma UnbindOnlyThisChat(kv: Store, chat: int, arg: Option<string>)
    requires BindingsConsistent(kv)
    ensures OthersUntouched(kv, UnbindSpec(kv, chat, arg).kv, chat)
    ensures UnbindApplies(kv, chat, arg) ==>
              && GroupDeviceIn(UnbindSpec(kv, chat, arg).kv, chat) == None
              && DeviceGroupIn(UnbindSpec(kv, chat, arg).kv, UnbindTarget(kv, chat, arg)) == None
    ensures !UnbindApplies(kv, chat, arg) ==> UnbindSpec(kv, chat, arg).kv == kv
  {
    var kv' := UnbindSpec(kv, chat, arg).kv;
    if arg.None? && PresentText(GroupDeviceIn(kv, chat)) {
      var imei := GroupDeviceIn(kv, chat).value;
      assert kv' == WithoutBinding(kv, imei, chat);
      PairDeleteKeepsOthers(kv, imei, chat);
    } else if arg.Some? && DeviceGroupIn(kv, arg.value) == Some(chat) {
      assert kv' == WithoutBinding(kv, arg.value, chat);
      PairDeleteKeepsOthers(kv, arg.value, chat);
    } else {
      assert kv' == kv;
    }
  }

  /**
   * The one case in which `/unbind` removes a binding: without an argument,
   * the chat has a device; with one, that device is bound to this chat.
   */
  predicate UnbindApplies(kv: Store, chat: int, arg: Option<string>) {
    if arg.None? then PresentText(GroupDeviceIn(kv, chat)) else DeviceGroupIn(kv, arg.value) == Some(chat)
  }

  /** The device `/unbind` removes when it applies. */
  function UnbindTarget(kv: Store, chat: int, arg: Option<string>): (imei: string)
    requires UnbindApplies(kv, chat, arg)
    ensures arg.Some? ==> imei == arg.value
    ensures arg.None? ==> GroupDeviceIn(kv, chat) == Some(imei)
  {
    if arg.None? then GroupDeviceIn(kv, chat).value else arg.value
  }

  /**
   * `/unbind` changes the store exactly when it applies, and then the removed
   * device and this chat both read as unbound afterwards.
   */
  lemma UnbindRemovesBinding(kv: Store, chat: int, arg: Option<string>)
    ensures var s := UnbindSpec(kv, chat, arg);
      && (s.kv != kv <==> UnbindApplies(kv, chat, arg))
      && (UnbindApplies(kv, chat, arg) ==>
            && DeviceGroupIn(s.kv, UnbindTarget(kv, chat, arg)) == None
            && GroupDeviceIn(s.kv, chat) == None
            && ChangesOnly(kv, s.kv, {UnbindTarget(kv, chat, arg)}, {chat}, {}, {}, {}))
  {
    var s := UnbindSpec(kv, chat, arg);
    if UnbindApplies(kv, chat, arg) {
      var imei := UnbindTarget(kv, chat, arg);
      assert s.kv == WithoutBinding(kv, imei, chat);
      BindingDelete(kv, imei, chat);
      if arg.None? {
        assert GroupDeviceIn(s.kv, chat) != GroupDeviceIn(kv, chat);
      } else {
        assert DeviceGroupIn(s.kv, imei) != DeviceGroupIn(kv, imei);
      }
    } else {
      assert s.kv == kv;
    }
  }

  /** The refusals `/unbind` can send are all different from its success message. */
  lemma UnbindRepliesDiffer(imei: string, other: string)
    ensures UnbindDone(imei) != NoDeviceBound
    ensures UnbindDone(imei) != NotBoundHere(other)
  {
    assert UnbindDone(imei)[0] == 'D' && NoDeviceBound[0] == 'N';
    var done := " has been unbound from this group.";
    var refused := " is not bound to this group.";
    if |UnbindDone(imei)| == |NotBoundHere(other)| {
      TailChar("Device ", imei, done, |done| - 13);
      TailChar("Device ", other, refused, |refused| - 13);
      assert done[|done| - 13] != refused[|refused| - 13];
    }
  }

  /** `/unbind` answers the chat exactly once, and with the success message exactly when it removed a binding. */
  lemma UnbindReplies(kv: Store, chat: int, arg: Option<string>)
    ensures var s := UnbindSpec(kv, chat, arg);
      && |s.actions| == 1 && s.actions[0].Respond? && s.actions[0].chat == chat
      && ((exists imei :: s.actions[0].text == UnbindDone(imei)) <==> s.kv != kv)
  {
    var s := UnbindSpec(kv, chat, arg);
    UnbindRemovesBinding(kv, chat, arg);
    if UnbindApplies(kv, chat, arg) {
      assert s.actions[0].text == UnbindDone(UnbindTarget(kv, chat, arg));
    } else {
      forall imei
        ensures s.actions[0].text != UnbindDone(imei)
      {
        UnbindRepliesDiffer(imei, if arg.Some? then arg.value else "");
      }
    }
  }

  /** Every other chat, and every device not bound to `chat`, reads the same in `kv'`. */
  ghost predicate OthersUntouched(kv: Store, kv': Store, chat: int) {
    && (forall g :: g != chat ==> GroupDeviceIn(kv', g) == GroupDeviceIn(kv, g))
    && (forall i :: DeviceGroupIn(kv, i) != Some(chat) ==> DeviceGroupIn(kv', i) == DeviceGroupIn(kv, i))
  }

  /** Deleting a consistent pair for `chat` touches no other chat and no device bound elsewhere. */
  lemma PairDeleteKeepsOthers(kv: Store, imei: string, chat: int)
    requires BindingsConsistent(kv) && DeviceGroupIn(kv, imei) == Some(chat)
    ensures GroupDeviceIn(WithoutBinding(kv, imei, chat), chat) == None
    ensures OthersUntouched(kv, WithoutBinding(kv, imei, chat), chat)
  {
    BindingDelete(kv, imei, chat);
  }

  /** `/unbind` keeps the binding invariant. */
  lemma UnbindKeepsConsistent(kv: Store, chat: int, arg: Option<string>)
    requires BindingsConsistent(kv)
    ensures BindingsConsistent(UnbindSpec(kv, chat, arg).kv)
  {
    if arg.None? {
      var imei := GroupDeviceIn(kv, chat);
      if PresentText(imei) {
        UnbindPairKeepsConsistent(kv, imei.value, chat);
      }
    } else if DeviceGroupIn(kv, arg.value) == Some(chat) {
      UnbindPairKeepsConsistent(kv, arg.value, chat);
    }
  }

  /** `/status` reports the bound IMEI when the chat has a device, and that none is bound otherwise. */
  lemma StatusReportsBinding(kv: Store, chat: int)
    ensures var s := StatusSpec(kv, chat);
      && s.kv == kv && |s.actions| == 1 && s.actions[0].Respond? && s.actions[0].chat == chat
      && (PresentText(GroupDeviceIn(kv, chat)) ==> s.actions[0].text == StatusText(GroupDeviceIn(kv, chat).value))
      && (!PresentText(GroupDeviceIn(kv, chat)) ==> s.actions[0].text == NoDeviceBound)
      && (PresentText(GroupDeviceIn(kv, chat)) <==> s.actions[0].text != NoDeviceBound)
  {
    var imei := GroupDeviceIn(kv, chat);
    if PresentText(imei) {
      assert StatusText(imei.value)[0] == 'D' && NoDeviceBound[0] == 'N';
    }
  }

  // ---------------------------------------------------------- forwarding SMS

  /**
   * Forwarding an SMS: nothing happens for a device bound to no chat; a topic
   * is created only when the sender has none in that chat; the store changes
   * only in the sender's thread and the new topic's reverse entry, and only
   * when the topic was created; the message is posted into the sender's
   * existing topic or else the newly created one, which the store maps the
   * sender to afterwards; and when the topic cannot be created nothing is
   * posted and nothing is stored.
   */
  lemma ForwardOutcome(kv: Store, sender: string, content: string, imei: string,
                       created: Option<int>, sent: Option<int>, now: int)
    ensures var s := ForwardSpec(kv, sender, content, imei, created, sent, now);
      && (!PresentId(DeviceGroupIn(kv, imei)) ==> s == Step(kv, [], None))
      && (PresentId(DeviceGroupIn(kv, imei)) ==>
            var g := DeviceGroupIn(kv, imei).value;
            && (CreateTopic(g, SmsTopicTitle(sender)) in s.actions <==> !PresentId(ThreadTopicIn(kv, g, sender)))
            && (s.kv != kv ==> created.Some? && ChangesOnly(kv, s.kv, {}, {}, {(g, sender)}, {}, {(g, created.value)}))
            && (s.result.Some? ==>
                  && s.result == sent && PresentId(ThreadTopicIn(s.kv, g, sender))
                  && s.actions[|s.actions| - 1] == SendMessage(g, ThreadTopicIn(s.kv, g, sender).value, FormatSms(sender, content)))
            && (PresentId(ThreadTopicIn(kv, g, sender)) || PresentId(created) ==>
                  var t := if PresentId(ThreadTopicIn(kv, g, sender)) then ThreadTopicIn(kv, g, sender).value else created.value;
                  && s.result == sent
                  && ThreadTopicIn(s.kv, g, sender) == Some(t)
                  && s.actions[|s.actions| - 1] == SendMessage(g, t, FormatSms(sender, content)))
            && (!PresentId(ThreadTopicIn(kv, g, sender)) && !PresentId(created) ==>
                  s == Step(kv, [CreateTopic(g, SmsTopicTitle(sender))], None)))
  {
    var s := ForwardSpec(kv, sender, content, imei, created, sent, now);
    if PresentId(DeviceGroupIn(kv, imei)) {
      var g := DeviceGroupIn(kv, imei).value;
      var post := SendMessage(g, 0, FormatSms(sender, content));
      var existing := ThreadTopicIn(kv, g, sender);
      if PresentId(existing) {
        assert s == Step(kv, [post.(replyTo := existing.value)], sent);
      } else if PresentId(created) {
        assert s == Step(WithPhoneTopic(kv, g, sender, created.value, now),
                         [CreateTopic(g, SmsTopicTitle(sender)), post.(replyTo := created.value)], sent);
        PhoneTopicWrite(kv, g, sender, created.value, now);
      } else {
        assert s == Step(kv, [CreateTopic(g, SmsTopicTitle(sender))], None);
      }
    }
  }

  /**
   * Thread reuse: once an SMS from `sender` has been posted, the next SMS
   * from the same sender through the same device creates no topic, changes
   * nothing in the store and is posted into the same topic.
   */
  lemma SecondForwardReusesTopic(kv: Store, sender: string, content1: string, content2: string, imei: string,
                                 created1: Option<int>, created2: Option<int>,
                                 sent1: Option<int>, sent2: Option<int>, now1: int, now2: int)
    requires var s1 := ForwardSpec(kv, sender, content1, imei, created1, sent1, now1);
      s1.actions != [] && s1.actions[|s1.actions| - 1].SendMessage?
    ensures var s1 := ForwardSpec(kv, sender, content1, imei, created1, sent1, now1);
      var last := s1.actions[|s1.actions| - 1];
      var s2 := ForwardSpec(s1.kv, sender, content2, imei, created2, sent2, now2);
      && s2.kv == s1.kv
      && s2.actions == [SendMessage(last.chat, last.replyTo, FormatSms(sender, content2))]
  {
    var g := DeviceGroupIn(kv, imei).value;
    if !PresentId(ThreadTopicIn(kv, g, sender)) {
      PhoneTopicWrite(kv, g, sender, created1.value, now1);
    }
  }

  /**
   * A reply in a topic the bridge has just created for `sender` goes back to
   * `sender` as an SMS through the device bound to that chat.
   */
  lemma ReplyReachesSender(kv: Store, sender: string, content: string, imei: string,
                           created: Option<int>, sent: Option<int>, now: int,
                           msgId: int, text: string, smsId: Option<string>)
    requires BindingsConsistent(kv) && sender != ""
    requires |ForwardSpec(kv, sender, content, imei, created, sent, now).actions| == 2
    ensures var s1 := ForwardSpec(kv, sender, content, imei, created, sent, now);
      var g := DeviceGroupIn(kv, imei).value;
      var s2 := SmsReplySpec(s1.kv, g, created.value, msgId, text, smsId);
      s2.actions[0] == SendSms(imei, sender, text)
  {
    var g := DeviceGroupIn(kv, imei).value;
    var kv1 := ForwardSpec(kv, sender, content, imei, created, sent, now).kv;
    assert kv1 == WithPhoneTopic(kv, g, sender, created.value, now);
    PhoneTopicWrite(kv, g, sender, created.value, now);
    assert GroupDeviceIn(kv, g) == Some(imei);
    assert GroupDeviceIn(kv1, g) == Some(imei);
  }

  // --------------------------------------------------------- status reports

  /**
   * A status report for an id is consumed: afterwards the id is no longer
   * tracked, nothing else in the store changes, and at most one message is
   * posted, replying to the tracked message with the status text.
   */
  lemma StatusReportConsumed(kv: Store, messageId: string, status: string, found: bool)
    ensures var s := UpdateStatusSpec(kv, messageId, status, found);
      && TrackedIn(s.kv, messageId) == None
      && ChangesOnly(kv, s.kv, {}, {}, {}, {messageId}, {})
      && |s.actions| <= 1
      && (s.actions != [] <==> TrackedIn(kv, messageId).Some? && found)
      && (s.actions != [] ==> s.actions[0] == SendMessage(TrackedIn(kv, messageId).value.groupId,
                                                          TrackedIn(kv, messageId).value.msgId, status))
  {
    TrackingWrite(kv, messageId, 0, 0);
  }

  /** A second report for the same id posts nothing and leaves the store as the first left it. */
  lemma DuplicateStatusIgnored(kv: Store, messageId: string, status1: string, status2: string,
                               found1: bool, found2: bool)
    ensures var s1 := UpdateStatusSpec(kv, messageId, status1, found1);
      UpdateStatusSpec(s1.kv, messageId, status2, found2) == Step(s1.kv, [], None)
  {
    StatusReportConsumed(kv, messageId, status1, found1);
  }

  // ---------------------------------------------------------- replies as SMS

  /**
   * A reply becomes an SMS exactly when the topic has a phone number and the
   * chat a device, and goes to that number through that device; the SMS id
   * is tracked (to this chat and message) exactly when `send_sms` returned
   * one; every other outcome posts one error notice under the reply.
   */
  lemma SmsReplyOutcome(kv: Store, chat: int, topic: int, msgId: int, text: string, smsId: Option<string>)
    ensures var s := SmsReplySpec(kv, chat, topic, msgId, text, smsId);
      var phone, imei := PhoneForTopicIn(kv, chat, topic), GroupDeviceIn(kv, chat);
      && 1 <= |s.actions| <= 2
      && (s.actions[0].SendSms? <==> PresentText(phone) && PresentText(imei))
      && (s.actions[0].SendSms? ==> s.actions[0] == SendSms(imei.value, phone.value, text))
      && (forall a | a in s.actions && a.SendMessage? :: a.chat == chat && a.replyTo == msgId)
      && (|s.actions| == 2 <==> s.actions[0].SendSms? && !PresentText(smsId))
      && (s.actions[0].SendSms? && PresentText(smsId) ==>
            TrackedIn(s.kv, smsId.value) == Some(MessageTracking(chat, msgId))
            && ChangesOnly(kv, s.kv, {}, {}, {}, {smsId.value}, {}))
      && (!(s.actions[0].SendSms? && PresentText(smsId)) ==> s.kv == kv)
  {
    if PresentText(PhoneForTopicIn(kv, chat, topic)) && PresentText(GroupDeviceIn(kv, chat)) && PresentText(smsId) {
      TrackingWrite(kv, smsId.value, chat, msgId);
    }
  }

  /**
   * End to end: when a reply went out as an SMS and was tracked, the
   * device's delivery report for that SMS is posted under the reply.
   */
  lemma ReplyThenReport(kv: Store, chat: int, topic: int, msgId: int, text: string, smsId: Option<string>,
                        status: string)
    requires PresentText(PhoneForTopicIn(kv, chat, topic)) && PresentText(GroupDeviceIn(kv, chat)) && PresentText(smsId)
    ensures var s1 := SmsReplySpec(kv, chat, topic, msgId, text, smsId);
      UpdateStatusSpec(s1.kv, smsId.value, status, true).actions == [SendMessage(chat, msgId, status)]
  {
    TrackingWrite(kv, smsId.value, chat, msgId);
  }

  /** Forwarding, status reports and SMS replies never touch the device-group bindings. */
  lemma HandlersKeepBindings(kv: Store, sender: string, content: string, imei: string, created: Option<int>,
                             sent: Option<int>, now: int, messageId: string, status: string, found: bool,
                             chat: int, topic: int, msgId: int, text: string, smsId: Option<string>)
    requires BindingsConsistent(kv)
    ensures BindingsConsistent(ForwardSpec(kv, sender, content, imei, created, sent, now).kv)
    ensures BindingsConsistent(UpdateStatusSpec(kv, messageId, status, found).kv)
    ensures BindingsConsistent(SmsReplySpec(kv, chat, topic, msgId, text, smsId).kv)
  {
    ForwardOutcome(kv, sender, content, imei, created, sent, now);
    var kv1 := ForwardSpec(kv, sender, content, imei, created, sent, now).kv;
    if kv1 != kv {
      SameBindingsKeepConsistent(kv, kv1);
    }
    StatusReportConsumed(kv, messageId, status, found);
    SameBindingsKeepConsistent(kv, UpdateStatusSpec(kv, messageId, status, found).kv);
    SmsReplyOutcome(kv, chat, topic, msgId, text, smsId);
    var s3 := SmsReplySpec(kv, chat, topic, msgId, text, smsId);
    if s3.actions[0].SendSms? && PresentText(smsId) {
      SameBindingsKeepConsistent(kv, s3.kv);
    }
  }

  lemma SameBindingsKeepConsistent(kv: Store, kv': Store)
    requires BindingsConsistent(kv) && SameDevicesExcept(kv, kv', {}) && SameGroupsExcept(kv, kv', {})
    ensures BindingsConsistent(kv')
  {
    forall i ensures DeviceGroupIn(kv', i) == DeviceGroupIn(kv, i) {
      assert i !in {};
    }
    forall g ensures GroupDeviceIn(kv', g) == GroupDeviceIn(kv, g) {
      assert g !in {};
    }
  }

  // ---------------------------------------------------------- topic creation

  /** The id of the first update that carries one. */
  function FirstId(updates: seq<Option<int>>): (id: Option<int>)
    ensures id.Some? <==> exists i :: 0 <= i < |updates| && updates[i].Some?
    ensures id.Some? ==> exists i :: 0 <= i < |updates| && updates[i] == id
                                     && forall j :: 0 <= j < i ==> updates[j].None?
  {
    if updates == [] then None
    else if updates[0].Some? then updates[0]
    else
      var rest := FirstId(updates[1..]);
      assert forall i :: 1 <= i < |updates| ==> updates[i] == updates[1..][i - 1];
      rest
  }

  /**
   * `create_topic`'s answer given the reply to `CreateForumTopicRequest`:
   * `None` when the request raised, otherwise the first update's id.
   */
  function CreatedTopicId(response: Option<seq<Option<int>>>): Option<int> {
    if response.None? then None else FirstId(response.value)
  }

  // ------------------------------------------------------------------ client

  /**
   * `SMSTelegramClient`. The store is wired in at construction (what
   * `set_dependencies` does after `__init__`); the calls made to Telegram
   * and to the MQTT client are recorded in `actions`, and what those calls
   * answer is passed to each handler.
   */
  class SmsTelegramClient {
    const db: Database
    ghost var actions: seq<Action>

    ghost predicate Valid()
      reads this, db
    {
      db.Valid()
    }

    constructor(db: Database)
      requires db.Valid()
      ensures this.db == db && actions == [] && Valid()
    {
      this.db := db;
      actions := [];
    }

    /** `create_topic`: requests the topic and returns the first update's id. */
    method CreateForumTopic(chat: int, title: string, response: Option<seq<Option<int>>>) returns (id: Option<int>)
      modifies this
      ensures id == CreatedTopicId(response)
      ensures actions == old(actions) + [CreateTopic(chat, title)]
    {
      actions := actions + [CreateTopic(chat, title)];
      if response.None? {
        return None;
      }
      var updates := response.value;
      var i := 0;
      while i < |updates|
        invariant 0 <= i <= |updates|
        invariant FirstId(updates) == FirstId(updates[i..])
      {
        if updates[i].Some? {
          return updates[i];
        }
        assert updates[i..][1..] == updates[i + 1..];
        i := i + 1;
      }
      return None;
    }

    /** `handle_bind_command`. */
    method HandleBindCommand(chat: int, text: string)
      requires Valid()
      modifies this, db
      ensures Valid()
      ensures var s := BindSpec(old(db.kv), chat, CommandArgument(text));
        db.kv == s.kv && actions == old(actions) + s.actions
    {
      var arg := CommandArgument(text);
      Bind(chat, arg);
    }

    /** The body of `handle_bind_command` once the argument is split off. */
    method Bind(chat: int, arg: Option<string>)
      requires Valid()
      modifies this, db
      ensures Valid()
      ensures var s := BindSpec(old(db.kv), chat, arg);
        db.kv == s.kv && actions == old(actions) + s.actions
    {
      ghost var before := db.kv;
      if arg.None? {
        actions := actions + [Respond(chat, BindUsage)];
        return;
      }
      var imei := arg.value;
      var existingGroup := db.GetDeviceGroup(imei);
      if PresentId(existingGroup) {
        assert BindSpec(before, chat, arg) == Step(before, [Respond(chat, DeviceAlreadyBound(imei))], None);
        actions := actions + [Respond(chat, DeviceAlreadyBound(imei))];
        return;
      }
      var existingDevice := db.GetGroupDevice(chat);
      if PresentText(existingDevice) {
        assert BindSpec(before, chat, arg) == Step(before, [Respond(chat, GroupAlreadyBound(existingDevice.value))], None);
        actions := actions + [Respond(chat, GroupAlreadyBound(existingDevice.value))];
        return;
      }
      assert BindSpec(before, chat, arg) == Step(WithBinding(before, imei, chat), [Respond(chat, BindDone(imei))], None);
      db.MapDeviceGroup(imei, chat);
      actions := actions + [Respond(chat, BindDone(imei))];
    }

    /** `handle_unbind_command`. */
    method HandleUnbindCommand(chat: int, text: string)
      requires Valid()
      modifies this, db
      ensures Valid()
      ensures var s := UnbindSpec(old(db.kv), chat, CommandArgument(text));
        db.kv == s.kv && actions == old(actions) + s.actions
    {
      var arg := CommandArgument(text);
      Unbind(chat, arg);
    }

    /** The body of `handle_unbind_command` once the argument is split off. */
    method Unbind(chat: int, arg: Option<string>)
      requires Valid()
      modifies this, db
      ensures Valid()
      ensures var s := UnbindSpec(old(db.kv), chat, arg);
        db.kv == s.kv && actions == old(actions) + s.actions
    {
      ghost var before := db.kv;
      var imei: string;
      if arg.None? {
        var bound := db.GetGroupDevice(chat);
        if !PresentText(bound) {
          actions := actions + [Respond(chat, NoDeviceBound)];
          return;
        }
        imei := bound.value;
      } else {
        imei := arg.value;
        var boundGroup := db.GetDeviceGroup(imei);
        if boundGroup != Some(chat) {
          assert UnbindSpec(before, chat, arg) == Step(before, [Respond(chat, NotBoundHere(imei))], None);
          actions := actions + [Respond(chat, NotBoundHere(imei))];
          return;
        }
      }
      assert UnbindSpec(before, chat, arg) == Step(WithoutBinding(before, imei, chat), [Respond(chat, UnbindDone(imei))], None);
      db.DeleteDeviceGroup(imei, chat);
      actions := actions + [Respond(chat, UnbindDone(imei))];
    }

    method HandleStatusCommand(chat: int)
      requires Valid()
      modifies this
      ensures Valid()
      ensures db.kv == old(db.kv)
      ensures actions == old(actions) + StatusSpec(db.kv, chat).actions
    {
      var imei := db.GetGroupDevice(chat);
      if !PresentText(imei) {
        actions := actions + [Respond(chat, NoDeviceBound)];
        return;
      }
      actions := actions + [Respond(chat, StatusText(imei.value))];
    }

    /**
     * `forward_sms_to_telegram`. `response` is the reply to the topic
     * request (if one is made), `sent` the id `send_message` returns.
     */
    method ForwardSmsToTelegram(sender: string, content: string, imei: string,
                                response: Option<seq<Option<int>>>, sent: Option<int>, now: int)
      returns (sentId: Option<int>)
      requires Valid()
      modifies this, db
      ensures Valid()
      ensures var s := ForwardSpec(old(db.kv), sender, content, imei, CreatedTopicId(response), sent, now);
        db.kv == s.kv && actions == old(actions) + s.actions && sentId == s.result
    {
      var group := db.GetDeviceGroup(imei);
      if !PresentId(group) {
        return None;
      }
      var g := group.value;
      var formatted := FormatSms(sender, content);
      var topic := db.GetThreadTopic(g, sender);
      if !PresentId(topic) {
        topic := CreateForumTopic(g, SmsTopicTitle(sender), response);
        if !PresentId(topic) {
          return None;
        }
        db.MapPhoneTopic(g, sender, topic.value, now);
      }
      actions := actions + [SendMessage(g, topic.value, formatted)];
      return sent;
    }

    /** `update_message_status`. `found` says whether `get_messages` found the original message. */
    method UpdateMessageStatus(messageId: string, status: string, found: bool)
      requires Valid()
      modifies this, db
      ensures Valid()
      ensures var s := UpdateStatusSpec(old(db.kv), messageId, status, found);
        db.kv == s.kv && actions == old(actions) + s.actions
    {
      var tracked := db.GetTrackedMessage(messageId);
      if tracked.None? {
        return;
      }
      if found {
        actions := actions + [SendMessage(tracked.value.groupId, tracked.value.msgId, status)];
      }
      db.DeleteTrackedMessage(messageId);
    }

    /** `_handle_sms_reply`. `smsId` is what the MQTT client's `send_sms` returns. */
    method HandleSmsReply(chat: int, topic: int, msgId: int, text: string, smsId: Option<string>)
      requires Valid()
      modifies this, db
      ensures Valid()
      ensures var s := SmsReplySpec(old(db.kv), chat, topic, msgId, text, smsId);
        db.kv == s.kv && actions == old(actions) + s.actions
    {
      var phone := db.GetPhoneFromTopic(chat, topic);
      if !PresentText(phone) {
        actions := actions + [SendMessage(chat, msgId, UnknownRecipient)];
        return;
      }
      var imei := db.GetGroupDevice(chat);
      if !PresentText(imei) {
        actions := actions + [SendMessage(chat, msgId, NoDeviceForReply)];
        return;
      }
      actions := actions + [SendSms(imei.value, phone.value, text)];
      if PresentText(smsId) {
        db.TrackMessage(smsId.value, chat, msgId);
      } else {
        actions := actions + [SendMessage(chat, msgId, SmsSendFailed)];
      }
    }

    /**
     * `handle_new_message`. Telethon calls it only for texts its `^[^/]+$`
     * pattern lets through, that is texts with `Matches(ReplyHandler, text)`;
     * commands never reach it and never become an SMS.
     */
    method HandleNewMessage(chat: int, msgId: int, text: string, replyTo: Option<ReplyHeader>, smsId: Option<string>)
      requires Valid()
      modifies this, db
      ensures Valid()
      ensures var s := NewMessageSpec(old(db.kv), chat, msgId, text, replyTo, smsId);
        db.kv == s.kv && actions == old(actions) + s.actions
    {
      var topic := ReplyTopic(replyTo);
      if topic.Some? {
        HandleSmsReply(chat, topic.value, msgId, text, smsId);
      }
    }
  }
}

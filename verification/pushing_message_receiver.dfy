/**
 * org.mokee.mkparts.push.PushingMessageReceiver: filters an incoming push
 * message (enabled, addressed to this device, with a title and something to
 * open) and decides which notification, if any, to post; it also performs
 * the notification's copy-to-clipboard action.
 */
module PushingMessageReceiver {
  import opened Wrappers
  import opened JavaText
  import opened PushingUtils

  /** `JPushInterface.ACTION_MESSAGE_RECEIVED`. */
  const ACTION_MESSAGE_RECEIVED := "cn.jpush.android.intent.MESSAGE_RECEIVED"
  const COPY_TO_CLIPBOARD_ACTION := "copy_to_clipboard_action"

  /** The wildcard target of the `device` and `type` members. */
  const ALL := "all"

  /** What the receiver reads from the system. */
  datatype PushEnv = PushEnv(
    languageSupported: bool,         // MoKeeUtils.isSupportLanguage(true)
    receivePushSetting: Option<int>, // MKSettings.System.RECEIVE_PUSH_NOTIFICATIONS
    product: string,                 // Build.PRODUCT
    releaseType: string)             // Build.RELEASE_TYPE

  datatype ContentAction = ViewUrl(url: string) | CopyToClipboard(text: string)

  datatype Notification = Notification(title: string, message: Option<string>, action: ContentAction)

  /** The parts of a received intent the receiver reads. */
  datatype Intent = Intent(
    action: Option<string>,
    message: Option<string>,   // JPushInterface.EXTRA_MESSAGE
    extra: Option<string>,     // JPushInterface.EXTRA_EXTRA, the custom JSON content
    msgId: Option<string>,     // JPushInterface.EXTRA_MSG_ID
    clipboard: Option<string>) // PushingUtils.KEY_CLIPBOARD

  datatype ReceiverEffect =
    | Notify(n: Notification)
    | ReportNotificationOpened(msgId: Option<string>)
    | SetPrimaryClip(text: Option<string>)
    | ShowCopiedToast

  /** The first filter of `onMessage`: content present, language supported, pushes switched on (default on). */
  function PushAccepted(custom: Option<string>, env: PushEnv): (accepted: bool)
    ensures accepted <==> custom.Some? && custom.value != "" && env.languageSupported
                          && (env.receivePushSetting == None || env.receivePushSetting == Some(1))
  {
    !IsEmpty(custom) && env.languageSupported && env.receivePushSetting.GetOr(1) == 1
  }

  /** The targeting condition of `onMessage`, as written. */
  function Targeted(device: string, kind: string, env: PushEnv): (targeted: bool)
    ensures device == ALL && kind == ALL ==> targeted
    ensures !VerifyPush(device, env.product) && device != ALL ==> !targeted
    ensures !VerifyPush(kind, env.releaseType) && kind != ALL ==> !targeted
  {
    var vd := VerifyPush(device, env.product);
    var vt := VerifyPush(kind, env.releaseType);
    (vd && vt) || (device == ALL && kind == ALL) || (vt && device == ALL) || (vd && kind == ALL)
  }

  /** Each of `device` and `type` must name this device or be the literal "all". */
  lemma TargetedFactorised(device: string, kind: string, env: PushEnv)
    ensures Targeted(device, kind, env) <==>
              (VerifyPush(device, env.product) || device == ALL)
              && (VerifyPush(kind, env.releaseType) || kind == ALL)
  {
  }

  /** `promptUser`: a url opens it; otherwise a clipboard text is offered for copying; otherwise nothing. */
  function PromptUser(url: Option<string>, title: string, message: Option<string>,
                      clipboard: Option<string>): (n: Option<Notification>)
    ensures n.Some? <==> !IsEmpty(url) || !IsEmpty(clipboard)
    ensures n.Some? ==> n.value.title == title && n.value.message == message
    ensures !IsEmpty(url) ==> n.Some? && n.value.action == ViewUrl(url.value)
    ensures IsEmpty(url) && n.Some? ==> n.value.action == CopyToClipboard(clipboard.value)
  {
    if !IsEmpty(url) then
      Some(Notification(title, message, ViewUrl(url.value)))
    else if IsEmpty(clipboard) then
      None
    else
      Some(Notification(title, message, CopyToClipboard(clipboard.value)))
  }

  /** The members `onMessage` reads from the custom content, with their defaults. */
  datatype PushFields = PushFields(
    title: Option<string>, device: string, kind: string,
    url: Option<string>, clipboard: Option<string>)

  function ReadFields(json: JsonObject): (f: PushFields)
    ensures f.title == GetStringFromJson(KEY_TITLE, json)
    ensures f.url == GetStringFromJson(KEY_URL, json)
    ensures f.clipboard == GetStringFromJson(KEY_CLIPBOARD, json)
    ensures f.device == (if KEY_DEVICE in json && json[KEY_DEVICE] != JsonNull
                         then GetStringFromJson(KEY_DEVICE, json).value else ALL)
    ensures f.kind == (if KEY_TYPE in json && json[KEY_TYPE] != JsonNull
                       then GetStringFromJson(KEY_TYPE, json).value else ALL)
  {
    PushFields(
      GetStringFromJson(KEY_TITLE, json),
      GetStringFromJsonOr(KEY_DEVICE, json, Some(ALL)).value,
      GetStringFromJsonOr(KEY_TYPE, json, Some(ALL)).value,
      GetStringFromJson(KEY_URL, json),
      GetStringFromJson(KEY_CLIPBOARD, json))
  }

  /**
   * `onMessage`. `parse` stands for `new JSONObject(text)`, `None` being a
   * JSONException (which the receiver swallows).
   */
  function OnMessage(env: PushEnv, message: Option<string>, custom: Option<string>,
                     parse: string -> Option<JsonObject>): (n: Option<Notification>)
    ensures !PushAccepted(custom, env) ==> n == None
    ensures PushAccepted(custom, env) && parse(custom.value) == None ==> n == None
    ensures n.Some? ==> n.value.message == message && n.value.title != ""
    ensures n.Some? ==> var f := ReadFields(parse(custom.value).value);
                        f.title.Some? && n == PromptUser(f.url, f.title.value, message, f.clipboard)
  {
    if !PushAccepted(custom, env) then None
    else
      match parse(custom.value)
      case None => None
      case Some(json) =>
        var f := ReadFields(json);
        if IsEmpty(f.title) then None
        else if Targeted(f.device, f.kind, env) then PromptUser(f.url, f.title.value, message, f.clipboard)
        else None
  }

  /** A notification is posted exactly when every filter of `onMessage` and `promptUser` passes. */
  lemma OnMessageExactly(env: PushEnv, message: Option<string>, custom: Option<string>,
                         parse: string -> Option<JsonObject>)
    ensures OnMessage(env, message, custom, parse).Some? <==>
              && PushAccepted(custom, env)
              && parse(custom.value).Some?
              && var f := ReadFields(parse(custom.value).value);
                 && !IsEmpty(f.title)
                 && (VerifyPush(f.device, env.product) || f.device == ALL)
                 && (VerifyPush(f.kind, env.releaseType) || f.kind == ALL)
                 && (!IsEmpty(f.url) || !IsEmpty(f.clipboard))
  {
    if PushAccepted(custom, env) && parse(custom.value).Some? {
      var f := ReadFields(parse(custom.value).value);
      TargetedFactorised(f.device, f.kind, env);
    }
  }

  /** A message without `device` and `type` members is addressed to every device. */
  lemma MissingTargetsMeanAll(env: PushEnv, json: JsonObject)
    requires KEY_DEVICE !in json && KEY_TYPE !in json
    ensures Targeted(ReadFields(json).device, ReadFields(json).kind, env)
  {
  }

  /** The broadcast the copy-to-clipboard action sends. */
  function CopyToClipboardIntent(text: string): (i: Intent)
    ensures i.action == Some(COPY_TO_CLIPBOARD_ACTION) && i.clipboard == Some(text)
  {
    Intent(Some(COPY_TO_CLIPBOARD_ACTION), None, None, None, Some(text))
  }

  /** `onReceive`. */
  function OnReceive(intent: Intent, env: PushEnv, parse: string -> Option<JsonObject>): (effects: seq<ReceiverEffect>)
    ensures intent.action == Some(ACTION_MESSAGE_RECEIVED) ==>
              |effects| >= 1 && effects[|effects| - 1] == ReportNotificationOpened(intent.msgId)
              && (|effects| == 2 <==> OnMessage(env, intent.message, intent.extra, parse).Some?)
              && (|effects| == 2 ==> effects[0] == Notify(OnMessage(env, intent.message, intent.extra, parse).value))
              && |effects| <= 2
    ensures intent.action == Some(COPY_TO_CLIPBOARD_ACTION) ==>
              effects == [SetPrimaryClip(intent.clipboard), ShowCopiedToast]
    ensures intent.action != Some(ACTION_MESSAGE_RECEIVED) && intent.action != Some(COPY_TO_CLIPBOARD_ACTION) ==>
              effects == []
  {
    if intent.action == Some(ACTION_MESSAGE_RECEIVED) then
      var posted := match OnMessage(env, intent.message, intent.extra, parse)
                    case None => []
                    case Some(n) => [Notify(n)];
      posted + [ReportNotificationOpened(intent.msgId)]
    else if intent.action == Some(COPY_TO_CLIPBOARD_ACTION) then
      [SetPrimaryClip(intent.clipboard), ShowCopiedToast]
    else
      []
  }

  /** Tapping a copy notification copies exactly the text it was built with. */
  lemma CopyActionCopiesExactly(env: PushEnv, parse: string -> Option<JsonObject>, n: Notification)
    requires n.action.CopyToClipboard?
    ensures OnReceive(CopyToClipboardIntent(n.action.text), env, parse)
            == [SetPrimaryClip(Some(n.action.text)), ShowCopiedToast]
  {
  }
}

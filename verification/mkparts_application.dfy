/**
 * org.mokee.mkparts.MKPartsApplication: on start-up in the main process it
 * registers the device with the push service under an alias (the device's
 * unique id) and a set of tags (product, codename, build user), each only
 * when it differs from what the last successful registration stored.
 * Registrations go through a message handler; the push SDK answers through
 * one callback for the alias and one for the tags.
 *
 * The SDK calls, the handler's queue and `SharedPreferences` are values
 * here: start-up and the callbacks return the messages they post and the
 * preferences they leave behind.
 */
module MKPartsApplication {
  import opened Wrappers
  import opened JavaText

  /** Name of the preference file the registrations are remembered in. */
  const MKPUSH_PREF := "mokee_push"
  const MKPUSH_ALIAS := "pref_alias"
  const MKPUSH_TAGS := "pref_tags"

  /** Handler message codes. */
  const MSG_SET_ALIAS := 1001
  const MSG_SET_TAGS := 1002

  /** Result codes of the push SDK's alias/tag callback. */
  const SUCCESS_CODE := 0
  const TIMEOUT_CODE := 6002

  /** A timed-out registration is retried after one minute. */
  const RETRY_DELAY_MILLIS := 1000 * 60

  /** The remembered registrations; `None` when the key is absent. */
  datatype PushPrefs = PushPrefs(alias: Option<string>, tags: Option<set<string>>)

  /** What start-up reads from the platform. */
  datatype AppEnv = AppEnv(
    processName: string,
    packageName: string,
    uniqueId: string,     // Build.getUniqueID
    product: string,      // Build.PRODUCT
    codename: string,     // VERSION.CODENAME
    user: string,         // android.os.Build.USER
    online: bool)

  /** The payload of a handler message: null, a `String` or a `Set<String>`. */
  datatype Obj = NoObj | StringObj(s: string) | SetObj(members: set<string>)

  datatype Message = Message(what: int, obj: Obj)

  /** A message posted to the handler, with its delay. */
  datatype Posted = Posted(msg: Message, delayMillis: nat)

  /** Which of the two SDK callbacks a registration reports to. */
  datatype Callback = AliasCallback | TagsCallback

  /** A `JPushInterface.setAliasAndTags` call; a null argument leaves that part alone. */
  datatype Request = Request(alias: Option<string>, tags: Option<set<string>>, callback: Callback)

  /** The outcome of `handleMessage`: an SDK call, a logged unknown code, or a failed cast. */
  datatype Dispatch = Register(request: Request) | Unhandled | ClassCastFailure

  /** A callback's effect: the preferences it leaves and the messages it posts. */
  datatype Answer = Answer(prefs: PushPrefs, posted: seq<Posted>)

  function AliasObj(alias: Option<string>): Obj {
    if alias.Some? then StringObj(alias.value) else NoObj
  }

  function TagsObj(tags: Option<set<string>>): Obj {
    if tags.Some? then SetObj(tags.value) else NoObj
  }

  /** The tag set of this device. */
  function DeviceTags(env: AppEnv): (tags: set<string>)
    ensures tags != {}
    ensures forall t :: t in tags <==> t == env.product || t == env.codename || t == env.user
  {
    {env.product, env.codename, env.user}
  }

  /** Registration of the alias is due: it is non-empty and not the one stored. */
  predicate AliasDue(env: AppEnv, prefs: PushPrefs) {
    prefs.alias != Some(env.uniqueId) && !IsEmpty(Some(env.uniqueId))
  }

  /** Registration of the tags is due: they are not the set stored. */
  predicate TagsDue(env: AppEnv, prefs: PushPrefs) {
    prefs.tags != Some(DeviceTags(env))
  }

  /**
   * `onCreate`: outside the main process nothing happens; in it, the alias
   * and then the tags are posted for registration when they are due.
   */
  function OnCreate(env: AppEnv, prefs: PushPrefs): (posted: seq<Posted>)
    ensures env.processName != env.packageName ==> posted == []
    ensures forall i :: 0 <= i < |posted| ==> posted[i].delayMillis == 0
    ensures (Posted(Message(MSG_SET_ALIAS, StringObj(env.uniqueId)), 0) in posted)
              <==> (env.processName == env.packageName && AliasDue(env, prefs))
    ensures (Posted(Message(MSG_SET_TAGS, SetObj(DeviceTags(env))), 0) in posted)
              <==> (env.processName == env.packageName && TagsDue(env, prefs))
    ensures forall i :: 0 <= i < |posted| ==>
              posted[i].msg == Message(MSG_SET_ALIAS, StringObj(env.uniqueId))
              || posted[i].msg == Message(MSG_SET_TAGS, SetObj(DeviceTags(env)))
    ensures |posted| == (if env.processName == env.packageName && AliasDue(env, prefs) then 1 else 0)
                        + (if env.processName == env.packageName && TagsDue(env, prefs) then 1 else 0)
    ensures |posted| == 2 ==> posted[0].msg.what == MSG_SET_ALIAS && posted[1].msg.what == MSG_SET_TAGS
  {
    if env.processName != env.packageName then []
    else
      var alias := if AliasDue(env, prefs)
                   then [Posted(Message(MSG_SET_ALIAS, StringObj(env.uniqueId)), 0)] else [];
      var tags := if TagsDue(env, prefs)
                  then [Posted(Message(MSG_SET_TAGS, SetObj(DeviceTags(env))), 0)] else [];
      alias + tags
  }

  /**
   * `handleMessage`: an alias message registers its string with the alias
   * callback, a tags message its set with the tags callback; other codes are
   * only logged. The handler casts the payload, so a payload of the other
   * kind fails.
   */
  function HandleMessage(m: Message): (r: Dispatch)
    ensures m.what != MSG_SET_ALIAS && m.what != MSG_SET_TAGS <==> r == Unhandled
    ensures m.what == MSG_SET_ALIAS && !m.obj.SetObj? ==>
              r == Register(Request(if m.obj.StringObj? then Some(m.obj.s) else None,
                                    None, AliasCallback))
    ensures m.what == MSG_SET_TAGS && !m.obj.StringObj? ==>
              r == Register(Request(None, if m.obj.SetObj? then Some(m.obj.members) else None,
                                    TagsCallback))
    ensures r == ClassCastFailure <==>
              (m.what == MSG_SET_ALIAS && m.obj.SetObj?) || (m.what == MSG_SET_TAGS && m.obj.StringObj?)
  {
    if m.what == MSG_SET_ALIAS then
      match m.obj
      case NoObj => Register(Request(None, None, AliasCallback))
      case StringObj(s) => Register(Request(Some(s), None, AliasCallback))
      case SetObj(_) => ClassCastFailure
    else if m.what == MSG_SET_TAGS then
      match m.obj
      case NoObj => Register(Request(None, None, TagsCallback))
      case SetObj(t) => Register(Request(None, Some(t), TagsCallback))
      case StringObj(_) => ClassCastFailure
    else Unhandled
  }

  /**
   * The alias callback: success stores the alias the SDK reports (a null one
   * removes the key); a timeout re-posts it after a minute when the device is
   * online; any other code is only logged.
   */
  function AliasGotResult(code: int, alias: Option<string>, online: bool, prefs: PushPrefs): (r: Answer)
    ensures code == SUCCESS_CODE ==> r == Answer(prefs.(alias := alias), [])
    ensures code != SUCCESS_CODE ==> r.prefs == prefs
    ensures code == TIMEOUT_CODE && online ==>
              r.posted == [Posted(Message(MSG_SET_ALIAS, AliasObj(alias)), RETRY_DELAY_MILLIS)]
    ensures !(code == TIMEOUT_CODE && online) ==> r.posted == []
    ensures r.prefs.tags == prefs.tags
  {
    if code == SUCCESS_CODE then Answer(prefs.(alias := alias), [])
    else if code == TIMEOUT_CODE && online then
      Answer(prefs, [Posted(Message(MSG_SET_ALIAS, AliasObj(alias)), RETRY_DELAY_MILLIS)])
    else Answer(prefs, [])
  }

  /** The tags callback, the same three cases for the tag set. */
  function TagsGotResult(code: int, tags: Option<set<string>>, online: bool, prefs: PushPrefs): (r: Answer)
    ensures code == SUCCESS_CODE ==> r == Answer(prefs.(tags := tags), [])
    ensures code != SUCCESS_CODE ==> r.prefs == prefs
    ensures code == TIMEOUT_CODE && online ==>
              r.posted == [Posted(Message(MSG_SET_TAGS, TagsObj(tags)), RETRY_DELAY_MILLIS)]
    ensures !(code == TIMEOUT_CODE && online) ==> r.posted == []
    ensures r.prefs.alias == prefs.alias
  {
    if code == SUCCESS_CODE then Answer(prefs.(tags := tags), [])
    else if code == TIMEOUT_CODE && online then
      Answer(prefs, [Posted(Message(MSG_SET_TAGS, TagsObj(tags)), RETRY_DELAY_MILLIS)])
    else Answer(prefs, [])
  }

  /**
   * What the SDK hands `gotResult` besides the code: the alias and tags it
   * reports. The callbacks store and re-post these, not the values that were
   * requested.
   */
  datatype Report = Report(alias: Option<string>, tags: Option<set<string>>)

  /** The report of an SDK that answers with exactly the values it was asked to set. */
  function Echo(req: Request): Report {
    Report(req.alias, req.tags)
  }

  /** The callback a registration reports to, applied to the result code and the reported values. */
  function GotResult(req: Request, code: int, reported: Report, online: bool, prefs: PushPrefs): (r: Answer)
    ensures req.callback == AliasCallback ==> r.prefs.tags == prefs.tags
    ensures req.callback == TagsCallback ==> r.prefs.alias == prefs.alias
    ensures code == SUCCESS_CODE ==>
              r.posted == []
              && r.prefs == (if req.callback == AliasCallback then prefs.(alias := reported.alias)
                             else prefs.(tags := reported.tags))
    ensures code != SUCCESS_CODE ==> r.prefs == prefs
  {
    match req.callback
    case AliasCallback => AliasGotResult(code, reported.alias, online, prefs)
    case TagsCallback => TagsGotResult(code, reported.tags, online, prefs)
  }

  /**
   * A message start-up posts dispatches to a request for exactly what
   * start-up compared against (the device's alias or tag set); success
   * stores what the SDK reports, which is that value when the SDK echoes
   * the request.
   */
  lemma SuccessStoresWhatWasPosted(env: AppEnv, prefs: PushPrefs, p: Posted, store: PushPrefs,
                                   reported: Report)
    requires p in OnCreate(env, prefs)
    ensures HandleMessage(p.msg).Register?
    ensures var req := HandleMessage(p.msg).request;
            var r := GotResult(req, SUCCESS_CODE, reported, env.online, store);
            && r.posted == []
            && (req.callback == AliasCallback ==>
                  req == Request(Some(env.uniqueId), None, AliasCallback)
                  && r.prefs == store.(alias := reported.alias))
            && (req.callback == TagsCallback ==>
                  req == Request(None, Some(DeviceTags(env)), TagsCallback)
                  && r.prefs == store.(tags := reported.tags))
            && (reported == Echo(req) ==>
                  (req.callback == AliasCallback ==> r.prefs == store.(alias := Some(env.uniqueId)))
                  && (req.callback == TagsCallback ==> r.prefs == store.(tags := Some(DeviceTags(env)))))
  {
  }

  /**
   * Registration is idempotent: once every message start-up posted has been
   * answered with success, the next start-up on the same device posts nothing.
   */
  lemma RegistrationConverges(env: AppEnv, prefs: PushPrefs)
    ensures var posted := OnCreate(env, prefs);
            var after := Replay(posted, env.online, prefs);
            OnCreate(env, after) == []
  {
    var posted := OnCreate(env, prefs);
    ReplayStores(posted, env, prefs);
  }

  /**
   * The preferences after every posted message is dispatched and succeeds,
   * in order, with the SDK echoing each request.
   */
  function Replay(posted: seq<Posted>, online: bool, prefs: PushPrefs): (r: PushPrefs)
    decreases |posted|
  {
    if posted == [] then prefs
    else
      var d := HandleMessage(posted[0].msg);
      var next := if d.Register? then GotResult(d.request, SUCCESS_CODE, Echo(d.request), online, prefs).prefs else prefs;
      Replay(posted[1..], online, next)
  }

  /** After the replay, whatever was due is stored; whatever was not due is untouched. */
  lemma {:induction false} ReplayStores(posted: seq<Posted>, env: AppEnv, prefs: PushPrefs)
    requires forall i :: 0 <= i < |posted| ==>
               posted[i].msg == Message(MSG_SET_ALIAS, StringObj(env.uniqueId))
               || posted[i].msg == Message(MSG_SET_TAGS, SetObj(DeviceTags(env)))
    ensures var r := Replay(posted, env.online, prefs);
            && (r.alias == prefs.alias || r.alias == Some(env.uniqueId))
            && (r.tags == prefs.tags || r.tags == Some(DeviceTags(env)))
            && ((exists i :: 0 <= i < |posted| && posted[i].msg.what == MSG_SET_ALIAS)
                  ==> r.alias == Some(env.uniqueId))
            && ((exists i :: 0 <= i < |posted| && posted[i].msg.what == MSG_SET_TAGS)
                  ==> r.tags == Some(DeviceTags(env)))
    decreases |posted|
  {
    if posted != [] {
      var d := HandleMessage(posted[0].msg);
      var next := GotResult(d.request, SUCCESS_CODE, Echo(d.request), env.online, prefs).prefs;
      ReplayStores(posted[1..], env, next);
      var r := Replay(posted, env.online, prefs);
      assert r == Replay(posted[1..], env.online, next);
      forall i | 0 <= i < |posted| && posted[i].msg.what == MSG_SET_ALIAS
        ensures r.alias == Some(env.uniqueId)
      {
        if i > 0 {
          assert posted[1..][i - 1] == posted[i];
        }
      }
      forall i | 0 <= i < |posted| && posted[i].msg.what == MSG_SET_TAGS
        ensures r.tags == Some(DeviceTags(env))
      {
        if i > 0 {
          assert posted[1..][i - 1] == posted[i];
        }
      }
    }
  }

  /**
   * A timed-out registration is retried with what the SDK reported, after a
   * minute and only online; when the SDK echoes the request, the re-posted
   * message dispatches to the very call that timed out.
   */
  lemma RetryRepeatsRequest(req: Request, reported: Report, online: bool, prefs: PushPrefs)
    requires req.callback == AliasCallback ==> req.tags.None?
    requires req.callback == TagsCallback ==> req.alias.None?
    ensures var r := GotResult(req, TIMEOUT_CODE, reported, online, prefs);
            && r.prefs == prefs
            && (online ==> |r.posted| == 1 && r.posted[0].delayMillis == RETRY_DELAY_MILLIS)
            && (online && req.callback == AliasCallback ==>
                  HandleMessage(r.posted[0].msg) == Register(Request(reported.alias, None, AliasCallback)))
            && (online && req.callback == TagsCallback ==>
                  HandleMessage(r.posted[0].msg) == Register(Request(None, reported.tags, TagsCallback)))
            && (online && reported == Echo(req) ==> HandleMessage(r.posted[0].msg) == Register(req))
            && (!online ==> r.posted == [])
  {
  }
}

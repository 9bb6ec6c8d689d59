/**
 * org.mokee.mkparts.push.PushingUtils: matching a push message's comma
 * separated target list against a device property, and reading optional
 * string members of the message's JSON payload.
 */
module PushingUtils {
  import opened Wrappers
  import opened JavaText

  const KEY_TITLE := "title"
  const KEY_DEVICE := "device"
  const KEY_TYPE := "type"
  const KEY_URL := "url"
  const KEY_CLIPBOARD := "clipboard"

  /** True when some entry of `parts` equals `v` ignoring letter case (the loop of `verifyPush`). */
  function AnyMatch(parts: seq<string>, v: string): (r: bool)
    ensures r <==> exists i :: 0 <= i < |parts| && ToLower(parts[i]) == ToLower(v)
  {
    if parts == [] then false
    else if ToLower(v) == ToLower(parts[0]) then true
    else
      var rest := AnyMatch(parts[1..], v);
      assert forall i :: 1 <= i < |parts| ==> parts[i] == parts[1..][i - 1];
      rest
  }

  /** `verifyPush(list, v)`: `v` is one of the entries of `list.split(",")`, ignoring case. */
  function VerifyPush(list: string, v: string): (r: bool)
    ensures r <==> exists i :: 0 <= i < |Split(list, ',')| && ToLower(Split(list, ',')[i]) == ToLower(v)
  {
    AnyMatch(Split(list, ','), v)
  }

  /** A list without a comma matches exactly the strings equal to it ignoring case. */
  lemma VerifyPushSingle(list: string, v: string)
    requires ',' !in list
    ensures VerifyPush(list, v) <==> ToLower(list) == ToLower(v)
  {
    assert Split(list, ',') == [list];
  }

  /** Neither argument's letter case matters. */
  lemma VerifyPushIgnoresCase(list: string, list': string, v: string, v': string)
    requires ToLower(list) == ToLower(list') && ToLower(v) == ToLower(v')
    ensures VerifyPush(list, v) == VerifyPush(list', v')
  {
    SplitLowerEq(list, list', ',');
  }

  /** Lower-casing either argument first changes nothing. */
  lemma VerifyPushOfLowered(list: string, v: string)
    ensures VerifyPush(ToLower(list), v) == VerifyPush(list, v)
    ensures VerifyPush(list, ToLower(v)) == VerifyPush(list, v)
  {
    LowerIdempotent(list);
    LowerIdempotent(v);
    VerifyPushIgnoresCase(ToLower(list), list, v, v);
    VerifyPushIgnoresCase(list, list, ToLower(v), v);
  }

  lemma LowerIdempotent(s: string)
    ensures ToLower(ToLower(s)) == ToLower(s)
  {
    LowerEqPointwise(ToLower(s), s);
  }

  /** Appending a further comma-separated entry to a non-empty list keeps every match. */
  lemma VerifyPushAppend(list: string, entry: string, v: string)
    requires list != ""
    requires VerifyPush(list, v)
    ensures VerifyPush(list + "," + entry, v)
  {
    var longer := list + "," + entry;
    assert longer == list + [','] + entry;
    assert ',' in longer by { assert longer[|list|] == ','; }
    PiecesAppend(list, ',', entry);
    DropTrailingEmptyPrefix(Pieces(list, ','), Pieces(entry, ','));
    if ',' !in list {
      PiecesOfSeparatorFree(list, ',');
      assert DropTrailingEmpty([list]) == [list];
    }
    assert Split(list, ',') <= Split(longer, ',');
  }

  /**
   * The one exception to `VerifyPushAppend`: `"".split(",")` is `[""]`, which
   * matches the empty string, but `",".split(",")` is empty.
   */
  lemma EmptyListQuirk()
    ensures VerifyPush("", "")
    ensures !VerifyPush(",", "")
  {
    assert Split("", ',') == [""];
    assert Pieces(",", ',') == ["", ""];
    assert Split(",", ',') == [];
  }

  /**
   * A JSON member value: JSON null, a string, or any other value together
   * with the text Android's `JSONObject.getString` renders it as.
   */
  datatype JsonValue = JsonNull | JsonString(s: string) | JsonOther(rendered: string)

  type JsonObject = map<string, JsonValue>

  /** `getStringFromJson(key, json, def)`: the member as text when present and not null, else `def`. */
  function GetStringFromJsonOr(key: string, json: JsonObject, def: Option<string>): (r: Option<string>)
    ensures key in json && json[key].JsonString? ==> r == Some(json[key].s)
    ensures key in json && json[key].JsonOther? ==> r == Some(json[key].rendered)
    ensures (key !in json || json[key] == JsonNull) ==> r == def
  {
    if key !in json then def
    else
      match json[key]
      case JsonNull => def
      case JsonString(s) => Some(s)
      case JsonOther(rendered) => Some(rendered)
  }

  /** `getStringFromJson(key, json)`: the same with a null default. */
  function GetStringFromJson(key: string, json: JsonObject): (r: Option<string>)
    ensures r.Some? <==> key in json && json[key] != JsonNull
    ensures r == GetStringFromJsonOr(key, json, None)
  {
    GetStringFromJsonOr(key, json, None)
  }
}

/** Values shared by the popup and the background script: the usage record
    kept per hostname, the messages the popup sends, the responses the
    background script gives, and the built-in block list. */
module Common {

  datatype Option<+T> = None | Some(value: T)

  /** `stored || fallback` where the stored value, when present, is an array or
      a boolean that was itself written by the extension: a present array is
      always truthy (also when empty), and `false || false` is `false`. */
  function OrDefault<T>(stored: Option<T>, fallback: T): T
  {
    match stored
    case Some(v) => v
    case None => fallback
  }

  /** The four sites both scripts fall back to when storage holds no list. */
  const DefaultSites: seq<string> := ["youtube.com", "tiktok.com", "instagram.com", "netflix.com"]

  /** No site occurs twice. */
  predicate Distinct<T(==)>(s: seq<T>)
  {
    forall i, j :: 0 <= i < j < |s| ==> s[i] != s[j]
  }

  /** A record of `usageData`: `{ visits, lastVisit }`, plus the `totalTime`
      field the popup reads with `|| 0`; the background script never writes it,
      but a record loaded from storage may carry one. */
  datatype UsageRecord = UsageRecord(visits: int, lastVisit: int, totalTime: Option<int>)

  /** The JavaScript values a message field can hold, as far as the
      listeners inspect them. */
  datatype JsValue = Undefined | Null | Bool(b: bool) | Number(n: int) | Str(s: string)

  /** JavaScript truthiness of such a value. */
  predicate Truthy(v: JsValue)
  {
    match v
    case Undefined => false
    case Null => false
    case Bool(b) => b
    case Number(n) => n != 0
    case Str(s) => s != ""
  }

  /** A runtime message as the background listener reads it. `blockedSites`
      is either absent or an array (arrays are always truthy). */
  datatype Message = Message(blockedSites: Option<seq<string>>, studyMode: JsValue, getUsageData: JsValue)

  /** The message `{ blockedSites }` that `updateRules` sends. */
  function SitesMessage(sites: seq<string>): Message
  {
    Message(Some(sites), Undefined, Undefined)
  }

  /** The message `{ studyMode }` that the power button sends. */
  function ModeMessage(mode: bool): Message
  {
    Message(None, Bool(mode), Undefined)
  }

  /** The message `{ getUsageData: true }` that the insights tab sends. */
  const UsageQuery: Message := Message(None, Undefined, Bool(true))

  /** What the background listener passes to `sendResponse`. */
  datatype Response = Status(text: string) | UsageData(usageData: map<string, UsageRecord>)
}

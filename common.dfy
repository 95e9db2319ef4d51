/** Shared vocabulary: optional values, JavaScript truthiness of strings,
    HTTP success, and the analysis record the pages read back from storage. */
module Common {

  datatype Option<+T> = None | Some(value: T)

  /** `!!s` for a string that may be `undefined`/`null`: absent and "" are falsy. */
  predicate Truthy(s: Option<string>)
  {
    s.Some? && s.value != ""
  }

  /** `process.env`: a variable that is not set has no entry. */
  type Environment = map<string, string>

  /** `process.env[name]`. */
  function Lookup(env: Environment, name: string): Option<string>
  {
    if name in env then Some(env[name]) else None
  }

  /** `Response.ok`: the status is in the 2xx range. */
  predicate IsOk(status: int)
  {
    200 <= status <= 299
  }

  /** A stored row of the `analyses` table as the dashboard and report pages
      declare it (interface `Analysis`). The score is a JavaScript number. */
  datatype Analysis = Analysis(
    id: string,
    skillGaps: seq<string>,
    suitableRole: string,
    projectSuggestions: seq<string>,
    learningRoadmap: seq<string>,
    score: real,
    createdAt: string)

  /** `window.open` of the print route: a window, `null` (a popup blocker), or an exception. */
  datatype WindowOpen = Opened | Blocked | OpenThrew

  datatype Toast = Toast(title: string, description: string)

  /** The toast `handleDownloadReport` shows on the dashboard and the report page:
      none when the window opened, "Popup Blocked" when it came back `null`,
      "Error" when opening threw. */
  function DownloadToast(open: WindowOpen): (t: Option<Toast>)
    ensures t.None? <==> open == Opened
    ensures open == Blocked ==> t == Some(Toast("Popup Blocked", "Please allow popups and try again"))
    ensures open == OpenThrew ==> t == Some(Toast("Error", "Failed to open print dialog"))
  {
    match open
    case Opened => None
    case Blocked => Some(Toast("Popup Blocked", "Please allow popups and try again"))
    case OpenThrew => Some(Toast("Error", "Failed to open print dialog"))
  }
}

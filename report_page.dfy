/** The report page: score colour and description bands, the numbering of
    project and roadmap cards, and the guards of its two handlers. */
module ReportPage {
  import opened Common

  const Green := "text-green-600"
  const Yellow := "text-yellow-600"
  const Red := "text-red-600"

  const Excellent := "Excellent profile! You're well-positioned for your target roles."
  const Good := "Good profile with room for improvement in key areas."
  const Weak := "Your profile needs significant development to match target roles."

  /** `getScoreColor`: green from 80 up, yellow from 60 up, red below. */
  function ScoreColor(score: real): (color: string)
    ensures color == Green <==> score >= 80.0
    ensures color == Yellow <==> 60.0 <= score < 80.0
    ensures color == Red <==> score < 60.0
  {
    if score >= 80.0 then Green
    else if score >= 60.0 then Yellow
    else Red
  }

  /** `getScoreDescription`. */
  function ScoreDescription(score: real): (text: string)
    ensures text == Excellent <==> score >= 80.0
    ensures text == Good <==> 60.0 <= score < 80.0
    ensures text == Weak <==> score < 60.0
  {
    if score >= 80.0 then Excellent
    else if score >= 60.0 then Good
    else Weak
  }

  /** Colour and description always describe the same band. */
  lemma ColorMatchesDescription(score: real)
    ensures ScoreColor(score) == Green <==> ScoreDescription(score) == Excellent
    ensures ScoreColor(score) == Yellow <==> ScoreDescription(score) == Good
    ensures ScoreColor(score) == Red <==> ScoreDescription(score) == Weak
  {
  }

  /** Red < yellow < green. */
  function ColorRank(color: string): nat
  {
    if color == Green then 2 else if color == Yellow then 1 else 0
  }

  /** A higher score never lands in a lower band. */
  lemma BandMonotone(s: real, t: real)
    requires s <= t
    ensures ColorRank(ScoreColor(s)) <= ColorRank(ScoreColor(t))
  {
  }

  /** A card on the page: the number in its badge and its text. */
  datatype Card = Card(number: nat, text: string)

  /** `items.map((item, index) => … index + 1 …)`. */
  function NumberedCards(items: seq<string>): (cards: seq<Card>)
    ensures |cards| == |items|
    ensures forall i :: 0 <= i < |items| ==> cards[i] == Card(i + 1, items[i])
  {
    seq(|items|, i requires 0 <= i < |items| => Card(i + 1, items[i]))
  }

  /** Every item gets one card carrying its text, numbered from 1 upwards
      without gaps, so the last card shows how many items there are. */
  lemma CardsNumberedInOrder(items: seq<string>)
    ensures |NumberedCards(items)| == |items|
    ensures |items| > 0 ==> NumberedCards(items)[0].number == 1
    ensures forall i :: 0 <= i < |items| - 1 ==>
      NumberedCards(items)[i + 1].number == NumberedCards(items)[i].number + 1
    ensures |items| > 0 ==> NumberedCards(items)[|items| - 1].number == |items|
    ensures forall i :: 0 <= i < |items| ==> NumberedCards(items)[i].text == items[i]
  {
  }

  /** Whether the roadmap step at `index` is followed by a connector line. */
  function HasConnector(index: nat, length: nat): bool
  {
    index + 1 < length
  }

  /** How many of the first `n` steps of a roadmap of `length` steps draw a connector. */
  function ConnectorsUpTo(n: nat, length: nat): nat
  {
    if n == 0 then 0 else ConnectorsUpTo(n - 1, length) + (if HasConnector(n - 1, length) then 1 else 0)
  }

  /** Numbers run 1..n without gaps, and a connector joins each pair of consecutive steps. */
  lemma {:induction false} RoadmapLayout(steps: seq<string>)
    requires |steps| > 0
    ensures NumberedCards(steps)[0].number == 1
    ensures NumberedCards(steps)[|steps| - 1].number == |steps|
    ensures !HasConnector(|steps| - 1, |steps|)
    ensures ConnectorsUpTo(|steps|, |steps|) == |steps| - 1
  {
    ConnectorsBeforeLast(|steps|, |steps|);
  }

  lemma {:induction false} ConnectorsBeforeLast(n: nat, length: nat)
    requires 0 < n <= length
    ensures ConnectorsUpTo(n, length) == if n == length then n - 1 else n
  {
    if n > 1 {
      ConnectorsBeforeLast(n - 1, length);
    }
  }

  datatype Query = QueryError | Found(row: Analysis)

  /** The email request: it threw, or it answered with `ok` set or not. */
  datatype SendResult = SendThrew | Answered(ok: bool)

  datatype EmailFeedback = NotSent | SuccessToast | Silent | ErrorToast

  /** The page's state: the `id` search parameter, the signed-in user's
      e-mail, and the React state `analysis` and `loading`. */
  class ReportView {
    const analysisId: Option<string>
    const userEmail: Option<string>
    var analysis: Option<Analysis>
    var loading: bool

    constructor(analysisId: Option<string>, userEmail: Option<string>)
      ensures this.analysisId == analysisId && this.userEmail == userEmail
      ensures analysis.None? && loading
    {
      this.analysisId := analysisId;
      this.userEmail := userEmail;
      analysis := None;
      loading := true;
    }

    /** `fetchAnalysis`: without an id nothing is queried and nothing changes. */
    method FetchAnalysis(query: Query) returns (queried: bool)
      modifies this
      ensures queried <==> Truthy(analysisId)
      ensures !queried ==> analysis == old(analysis) && loading == old(loading)
      ensures queried ==> !loading
      ensures queried ==> analysis == if query.Found? then Some(query.row) else old(analysis)
    {
      if !Truthy(analysisId) {
        return false;
      }
      queried := true;
      match query {
        case QueryError =>
        case Found(row) => analysis := Some(row);
      }
      loading := false;
    }

    /** `handleDownloadReport`: without an id no window is opened. */
    method HandleDownloadReport(open: WindowOpen) returns (launched: bool, toast: Option<Toast>)
      ensures launched <==> Truthy(analysisId)
      ensures toast == if launched then DownloadToast(open) else None
    {
      if !Truthy(analysisId) {
        return false, None;
      }
      launched := true;
      toast := DownloadToast(open);
    }

    /** `handleEmailReport`: nothing is sent without an id and an e-mail;
        a success toast only for an ok answer; an error toast when the request throws. */
    method HandleEmailReport(send: SendResult) returns (feedback: EmailFeedback)
      ensures feedback == NotSent <==> !Truthy(analysisId) || !Truthy(userEmail)
      ensures feedback == SuccessToast <==> Truthy(analysisId) && Truthy(userEmail) && send == Answered(true)
      ensures feedback == ErrorToast <==> Truthy(analysisId) && Truthy(userEmail) && send.SendThrew?
    {
      if !Truthy(analysisId) || !Truthy(userEmail) {
        return NotSent;
      }
      match send {
        case SendThrew => feedback := ErrorToast;
        case Answered(ok) => feedback := if ok then SuccessToast else Silent;
      }
    }
  }
}

/** The dashboard: the truncated previews on each analysis card, the
    e-mail button's outcome handling and the loading of the analyses list. */
module DashboardPage {
  import opened Common
  import opened Strings

  /** The entries shown and, when some are hidden, the number in the "+N" badge. */
  datatype Preview<T> = Preview(shown: seq<T>, badge: Option<nat>)

  /** `items.slice(0, limit)` plus the badge drawn when `items.length > limit`. */
  function PreviewOf<T>(items: seq<T>, limit: nat): (p: Preview<T>)
    ensures |p.shown| == if |items| < limit then |items| else limit
    ensures p.shown == items[..|p.shown|]
    ensures p.badge.Some? <==> |items| > limit
    ensures |p.shown| + (if p.badge.Some? then p.badge.value else 0) == |items|
  {
    Preview(if |items| < limit then items else items[..limit],
            if |items| > limit then Some(|items| - limit) else None)
  }

  /** Skill gaps: at most three, then "+N more". */
  function SkillGapPreview(gaps: seq<string>): Preview<string>
  {
    PreviewOf(gaps, 3)
  }

  /** Project ideas: at most two, then "+N more suggestions". */
  function ProjectPreview(projects: seq<string>): Preview<string>
  {
    PreviewOf(projects, 2)
  }

  /** The "+N…" badge a preview draws, when it draws one. */
  function BadgeText<T>(p: Preview<T>, suffix: string): Option<string>
  {
    if p.badge.Some? then Some("+" + NatToString(p.badge.value) + suffix) else None
  }

  /** A badge is drawn exactly when entries are hidden, and the number it
      shows between "+" and the suffix reads back as how many are hidden. */
  lemma BadgeCountsHidden<T>(items: seq<T>, limit: nat, suffix: string)
    ensures BadgeText(PreviewOf(items, limit), suffix).Some? <==> |items| > limit
    ensures BadgeText(PreviewOf(items, limit), suffix).Some? ==>
      var text := BadgeText(PreviewOf(items, limit), suffix).value;
      && |text| > 1 + |suffix| && text[0] == '+' && text[|text| - |suffix|..] == suffix
      && var digits := text[1..|text| - |suffix|];
         (forall i :: 0 <= i < |digits| ==> IsDigit(digits[i]))
         && DecimalValue(digits) == |items| - limit
  {
    if |items| > limit {
      var digits := NatToString(|items| - limit);
      var text := "+" + digits + suffix;
      assert text[1..|text| - |suffix|] == digits;
      DecimalRoundTrip(|items| - limit);
    }
  }

  /** `+{skill_gaps.length - 3} more`. */
  function SkillGapBadge(gaps: seq<string>): Option<string>
  {
    BadgeText(SkillGapPreview(gaps), " more")
  }

  /** `+{project_suggestions.length - 2} more suggestions`. */
  function ProjectBadge(projects: seq<string>): Option<string>
  {
    BadgeText(ProjectPreview(projects), " more suggestions")
  }

  /** A stored analysis (3 to 5 gaps, 3 projects) shows every gap up to three and two projects plus one. */
  lemma PreviewOfStoredShape(a: Analysis)
    requires 3 <= |a.skillGaps| <= 5 && |a.projectSuggestions| == 3
    ensures SkillGapPreview(a.skillGaps).shown == a.skillGaps[..3]
    ensures SkillGapPreview(a.skillGaps).badge == if |a.skillGaps| == 3 then None else Some(|a.skillGaps| - 3)
    ensures ProjectPreview(a.projectSuggestions).shown == a.projectSuggestions[..2]
    ensures ProjectPreview(a.projectSuggestions).badge == Some(1)
    ensures ProjectBadge(a.projectSuggestions) == Some("+1 more suggestions")
    ensures |a.skillGaps| == 3 <==> SkillGapBadge(a.skillGaps).None?
  {
    assert DigitChar(1) == '1';
    assert NatToString(1) == "1";
    assert "+" + "1" + " more suggestions" == "+1 more suggestions";
  }

  /** `fetchAnalyses`' query: it threw, Supabase reported an error, or it gave data (possibly `null`). */
  datatype AnalysesQuery = QueryThrew | QueryError | QueryData(rows: Option<seq<Analysis>>)

  /** `handleEmailReport`'s request: it (or reading its JSON) threw, or it answered. */
  datatype EmailResponse = RequestThrew | Responded(ok: bool, comingSoon: bool)

  /** The React state `analyses` and `showComingSoon`. */
  class Dashboard {
    var analyses: seq<Analysis>
    var showComingSoon: bool

    constructor()
      ensures analyses == [] && !showComingSoon
    {
      analyses := [];
      showComingSoon := false;
    }

    method FetchAnalyses(query: AnalysesQuery)
      modifies this`analyses
      ensures query.QueryError? ==> analyses == old(analyses)
      ensures query.QueryData? ==> analyses == if query.rows.Some? then query.rows.value else []
      ensures query.QueryThrew? ==> analyses == []
    {
      match query {
        case QueryThrew => analyses := [];
        case QueryError =>
        case QueryData(rows) => analyses := if rows.Some? then rows.value else [];
      }
    }

    /** The modal opens for a coming-soon answer, a failed answer or an
        exception; only an ok answer without `comingSoon` gives the success toast. */
    method HandleEmailReport(response: EmailResponse) returns (successToast: bool)
      modifies this`showComingSoon
      ensures showComingSoon == (old(showComingSoon) || response.RequestThrew? ||
                                 response.comingSoon || !response.ok)
      ensures successToast <==> response.Responded? && response.ok && !response.comingSoon
      ensures successToast ==> showComingSoon == old(showComingSoon)
    {
      successToast := false;
      match response {
        case RequestThrew => showComingSoon := true;
        case Responded(ok, comingSoon) =>
          if comingSoon {
            showComingSoon := true;
          } else if ok {
            successToast := true;
          } else {
            // the thrown "Failed to send email" error lands in the same catch
            showComingSoon := true;
          }
      }
    }
  }
}

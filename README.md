# CodeTrail core, modelled in Dafny

CodeTrail turns a résumé and a GitHub account into a career analysis. The
upload page sends the résumé and a GitHub user name through three server
routes: PDF text extraction, the GitHub profile aggregation
(`GET /api/github`) and the AI analysis (`POST /api/analyze`). The analysis
route asks a generative model for a JSON verdict and stores it in the
`analyses` table. The dashboard and report pages read those rows back. A
configuration banner and an environment check report missing credentials.

This project models:

- **`AnalyzeRoute`** (`app/api/analyze/route.ts`):
  - the request guard;
  - the exact prompt template;
  - the greedy `{…}` span extraction;
  - the decision between the parsed answer and the three canned analyses (generic, quota and default), or a rethrown error;
  - the insert and its two outcomes.
- **`GithubRoute`** (`app/api/github/route.ts`):
  - the user-name guard;
  - the status-to-message mapping;
  - the sequential loop that collects languages and topics into two insertion-ordered JavaScript `Set`s (`Added`, proved against a loop method);
  - the repository projection;
  - the request count.
- **`ReportPage`** (`app/report/page.tsx`):
  - the score colour and description bands;
  - the card numbering and the roadmap connectors;
  - the page state (`ReportView`) with its fetch, download and e-mail handlers.
- **`DashboardPage`** (`app/dashboard/page.tsx`):
  - the "+N more" previews;
  - the page state (`Dashboard`) with `fetchAnalyses` and the e-mail button's modal/toast outcome.
- **`UploadPage`** (`app/upload/page.tsx`):
  - the step captions;
  - the PDF-only file picker;
  - the submit run as a class (`UploadForm`) whose ghost `history` records the (step, progress) pair left by every `setStep` and `setProgress` call, down to the `finally` reset.
- **`ConfigurationStatus`** (`components/configuration-status.tsx`):
  - the placeholder detection;
  - the banner: nothing, or four green/red/amber indicators.
- **`Env`** (`lib/env.ts`):
  - the filter of missing required variables;
  - the thrown message;
  - the `NEXT_PUBLIC_APP_URL` default.
- **`Common` and `Strings`**: shared vocabulary:
  - JavaScript truthiness;
  - `Response.ok`;
  - the stored analysis record;
  - the download toast;
  - `join`, `includes` and decimal rendering of numbers, with their properties.

Network calls, the model SDK, `JSON.parse`, `JSON.stringify` and the database are parameters.
Their possible results (an answer, a status, an exception with its message) are datatypes.

The route does not validate the parsed answer: whatever object `JSON.parse` returns for the `{…}` span is stored as it is (app/api/analyze/route.ts:70, 149-153).
`AnalyzeRoute.ParsedAnswerNotValidated` exhibits a parsed object with a string score that is stored unchanged.
Only the three canned analyses are proved well shaped (`AnalyzeRoute.CannedAnalysesWellShaped`).

## Model

| member | source | states |
|---|---|---|
| AnalyzeRoute.Post | app/api/analyze/route.ts:14-168 | An unreadable body gives 500 with its message. A missing or falsy résumé, GitHub data or user id gives 400 "Missing required data", with no model call and no insert. Otherwise the exact prompt is sent. A rethrown model error gives 500 with its message and no insert. Otherwise the chosen analysis is inserted with the user id, and the result is 500 "Failed to save analysis" or the stored row. The default analysis is never taken. |
| AnalyzeRoute.Prompt | app/api/analyze/route.ts:23-55 | The template itself; what it promises is stated by the PromptEmbedsResume, PromptMentions… and PromptIgnoresOlderRepositories lemmas below. |
| AnalyzeRoute.DecideCases | app/api/analyze/route.ts:59-121 | 429 selects the quota analysis iff the model failed with 429; any other failure is rethrown with its message; the parsed object is used iff a `{…}` span exists and parses; otherwise the generic analysis. |
| AnalyzeRoute.Save | app/api/analyze/route.ts:143-162 | The insert sends the row built from the analysis and the user id. A storage error gives 500 "Failed to save analysis"; otherwise the stored row with its id and creation time. |
| AnalyzeRoute.AskModel | app/api/analyze/route.ts:57-121 | The inner try/catch assigns exactly the analysis `Decide` selects: parsed, generic or quota. Otherwise it rethrows the model error's message and assigns nothing. |
| AnalyzeRoute.Labels | app/api/analyze/route.ts:33-36 | One `name (language)` label per repository, in order. |
| AnalyzeRoute.RecentRepositories | app/api/analyze/route.ts:33-36 | The labels of the first min(5, n) repositories, in order. |
| AnalyzeRoute.PromptEmbedsResume | app/api/analyze/route.ts:23-27 | The résumé text appears verbatim right after the fixed introduction. |
| AnalyzeRoute.PromptMentionsLanguages | app/api/analyze/route.ts:31 | Every aggregated language occurs in the prompt. |
| AnalyzeRoute.PromptMentionsTopics | app/api/analyze/route.ts:32 | Every aggregated topic occurs in the prompt. |
| AnalyzeRoute.PromptMentionsRecentRepositories | app/api/analyze/route.ts:33-36 | Each of the first five repositories occurs in the prompt as `name (language)`. |
| AnalyzeRoute.PromptIgnoresOlderRepositories | app/api/analyze/route.ts:33-36 | Two GitHub data sets that agree on languages, topics and the first five repositories give the same prompt. |
| AnalyzeRoute.FirstIndex | app/api/analyze/route.ts:68 | The first position of a character, or none when it does not occur. |
| AnalyzeRoute.LastIndex | app/api/analyze/route.ts:68 | The last position of a character, or none when it does not occur. |
| AnalyzeRoute.ExtractSpan | app/api/analyze/route.ts:68-73 | A match exists iff some `{` is followed later by a `}`. The match runs from the first `{` to the last `}`. |
| AnalyzeRoute.GenericFallback | app/api/analyze/route.ts:74-93 | Well shaped; "Full Stack Developer", score 78, four skill gaps. |
| AnalyzeRoute.QuotaFallback | app/api/analyze/route.ts:98-116 | Well shaped; "Senior Full Stack Developer", score 82, four skill gaps. |
| AnalyzeRoute.DefaultFallback | app/api/analyze/route.ts:123-142 | Well shaped; "Software Developer", score 75, three skill gaps. |
| AnalyzeRoute.FallbacksDistinguishable | app/api/analyze/route.ts:76-141 | The three canned analyses differ pairwise in role and in score. |
| AnalyzeRoute.RowPreservesShape | app/api/analyze/route.ts:145-154 | The row `RowOf` builds carries the user id and, for each of the five analysis fields, the field's value when present and nothing when absent. It is well shaped iff the analysis is. |
| AnalyzeRoute.ModelErrorOutcomes | app/api/analyze/route.ts:94-120 | A model error with status 429 selects the quota analysis. Any other error is rethrown with its message. |
| AnalyzeRoute.NoSpanMeansGeneric | app/api/analyze/route.ts:68-93 | An answer with no `{` before a `}` selects the generic analysis, whatever the parser does. |
| AnalyzeRoute.CannedAnalysesWellShaped | app/api/analyze/route.ts:74-142 | When the stored analysis is not the parsed answer, the row is well shaped: 3–5 gaps, a role, 3 projects, 5 steps, whole score 0–100. |
| AnalyzeRoute.ParsedAnswerNotValidated | app/api/analyze/route.ts:69-70 | There is a parsed answer that is stored although it is not well shaped. |
| GithubRoute.Get | app/api/github/route.ts:3-96 | 400 without a user name and no request. A thrown request gives 500 with its message. A failed profile gives 500 with the status message. A failed repository list gives 500 "Failed to fetch repositories". Otherwise: profile, projection, languages and topics, with 2 + n requests. An error iff some step failed. |
| GithubRoute.ProfileErrorMessage | app/api/github/route.ts:27-33 | "User not found" iff status 404; the rate-limit message iff status 403; otherwise "GitHub API error: " followed by the status. |
| GithubRoute.ProfileErrorIdentifiesStatus | app/api/github/route.ts:27-33 | Different failure statuses give different messages (404, 403 and "GitHub API error: <status>"). |
| GithubRoute.Added | app/api/github/route.ts:47-57 | `Set.add` in turn: duplicate-free, contents are the union, earlier insertions keep their place. |
| GithubRoute.AddedAppend | app/api/github/route.ts:47-57 | Adding `a + b` equals adding `a` then `b`. |
| GithubRoute.AddAll | app/api/github/route.ts:54 | The `forEach(add)` loop computes `Added`. |
| GithubRoute.LanguageKeys | app/api/github/route.ts:49-55 | A key is in the collected sequence iff some repository's successful language map has it. |
| GithubRoute.TopicList | app/api/github/route.ts:49-57 | A topic is in the collected sequence iff some repository's `topics` array holds it. |
| GithubRoute.LanguagesAreUnion | app/api/github/route.ts:47-55 | `languages` is duplicate-free and holds exactly the keys of the successfully fetched language maps. |
| GithubRoute.TopicsAreUnion | app/api/github/route.ts:47-58 | `topics` is duplicate-free and holds exactly the topics of repositories that have a `topics` array. |
| GithubRoute.FailedLanguageFetchIsSkipped | app/api/github/route.ts:51-55 | A repository whose language request fails adds exactly what leaving it out would. |
| GithubRoute.TopiclessRepoIsSkipped | app/api/github/route.ts:57 | A repository without `topics` leaves the topic list as if it were absent. |
| GithubRoute.Aggregate | app/api/github/route.ts:47-58 | The sequential loop yields the ordered, duplicate-free union of languages and of topics. |
| GithubRoute.Project | app/api/github/route.ts:77-86 | Same length and order; each entry copies its repository field by field (`stars`, `forks` renamed). |
| ReportPage.ScoreColor | app/report/page.tsx:117-121 | Green iff score ≥ 80, yellow iff 60 ≤ score < 80, red iff score < 60. |
| ReportPage.ScoreDescription | app/report/page.tsx:123-127 | The three descriptions with the same thresholds, each iff. |
| ReportPage.ColorMatchesDescription | app/report/page.tsx:117-127 | Colour and description always fall in the same band. |
| ReportPage.BandMonotone | app/report/page.tsx:117-127 | A higher score never gets a lower band. |
| ReportPage.CardsNumberedInOrder | app/report/page.tsx:265-269 | For any list, one card per item with the item's text; the first is numbered 1, each next one 1 more, the last n. |
| ReportPage.RoadmapLayout | app/report/page.tsx:292-300 | Roadmap steps are numbered 1..n. The last step has no connector, and exactly n − 1 connectors are drawn. |
| ReportPage.ReportView.constructor | app/report/page.tsx:25-31 | No analysis, loading, id and e-mail as given. |
| ReportPage.ReportView.FetchAnalysis | app/report/page.tsx:51-67 | Without an id nothing changes. Otherwise loading ends, the analysis is set when found, and kept on a query error. |
| ReportPage.ReportView.HandleDownloadReport | app/report/page.tsx:69-90 | Opens the print route iff there is an id, with the matching toast. |
| ReportPage.ReportView.HandleEmailReport | app/report/page.tsx:92-115 | Nothing is sent iff the id or e-mail is missing. Success toast iff the answer is ok. Error toast iff the request threw. |
| Common.DownloadToast | app/dashboard/page.tsx:75-94 | No toast iff the window opened; "Popup Blocked" when `null`; "Error" when opening threw. |
| DashboardPage.PreviewOf | app/dashboard/page.tsx:239-264 | Shows the first min(n, limit) items. A badge appears iff n > limit. Shown + badge = n. |
| DashboardPage.BadgeCountsHidden | app/dashboard/page.tsx:244-247 | For any list and limit, the "+N…" badge is drawn iff items are hidden; it starts with "+", ends with its suffix, and the digits between read back as the number hidden. |
| DashboardPage.PreviewOfStoredShape | app/dashboard/page.tsx:239-264 | For a stored analysis (3–5 gaps, 3 projects): three gaps plus a badge for the rest, none iff exactly three; two projects and the badge "+1 more suggestions". |
| DashboardPage.Dashboard.constructor | app/dashboard/page.tsx:27-29 | No analyses, modal closed. |
| DashboardPage.Dashboard.FetchAnalyses | app/dashboard/page.tsx:55-68 | An error keeps the list; data replaces it (`[]` for null); an exception clears it. |
| DashboardPage.Dashboard.HandleEmailReport | app/dashboard/page.tsx:96-121 | The modal opens on coming-soon, on a non-ok answer or on an exception. Success toast iff ok and not coming-soon. |
| UploadPage.StepDescription | app/upload/page.tsx:149-161 | Steps 1–4 map to their captions; any other step to "Processing...". |
| UploadPage.CaptionsDistinct | app/upload/page.tsx:149-161 | The four step captions are pairwise distinct and differ from the fallback. |
| UploadPage.StagesPassed | app/upload/page.tsx:69-124 | The number of stages passed before the first failure; 4 iff all succeed. |
| UploadPage.FailureMessage | app/upload/page.tsx:79-139 | Never empty. An upload error or an exception shows its own message, or "An error occurred during analysis" when that is empty. A stage answering not-ok shows its fixed message. |
| UploadPage.ProgressMonotone | app/upload/page.tsx:66-145 | From the first `setStep(1)` to the last setter call before `finally`, neither step nor progress decreases. The trace starts at progress 0 and ends with (last step, 0) then (1, 0). A full run reaches (4, 100). |
| UploadPage.FailureSkipsLaterStages | app/upload/page.tsx:69-124 | A failed run stops right after the failing stage's `setStep`/`setProgress` pair, below 100 and at no later step. |
| UploadPage.UploadForm.constructor | app/upload/page.tsx:19-23 | No file, empty user name, not loading, progress 0, step 1. |
| UploadPage.UploadForm.HandleFileChange | app/upload/page.tsx:42-53 | Only a PDF replaces the file; anything else leaves it and shows an error toast. |
| UploadPage.UploadForm.HandleSubmit | app/upload/page.tsx:55-147 | Without a file or user name nothing changes. Otherwise the history gains exactly the setter calls of the run, from `setProgress(0)` to the `finally` block's reset. It ends not loading, at progress 0 and step 1. It succeeds iff all stages pass, else fails with that stage's message. |
| UploadPage.UploadForm.RunStages | app/upload/page.tsx:69-141 | The `try`/`catch` block records the setter calls up to the first failing stage, stops at that stage's step, and yields success or that stage's message. |
| UploadPage.UploadForm.SetStep | app/upload/page.tsx:23 | `setStep` changes the step and records it with the current progress. |
| UploadPage.UploadForm.SetProgress | app/upload/page.tsx:22 | `setProgress` changes the progress and records it with the current step. |
| ConfigurationStatus.Configured | components/configuration-status.tsx:19-22 | Configured iff the value is set, non-empty and does not contain the placeholder. |
| ConfigurationStatus.CheckConfig | components/configuration-status.tsx:14-24 | Supabase needs both variables free of their placeholders; each other service needs its key free of "your_actual". |
| ConfigurationStatus.Every | components/configuration-status.tsx:27 | `every(Boolean)` holds iff every value is true. |
| ConfigurationStatus.AllConfigured | components/configuration-status.tsx:27 | The conjunction of the four flags. |
| ConfigurationStatus.Panel | components/configuration-status.tsx:29-62 | Nothing is rendered iff all are configured. Otherwise there are four named indicators. Each is green iff configured, red iff unconfigured Supabase or Gemini, amber iff unconfigured e-mail or GitHub. |
| ConfigurationStatus.PlaceholderGeminiKeyShowsRed | components/configuration-status.tsx:20-51 | A Gemini key still holding the placeholder keeps the banner up and shows Gemini red. |
| Env.Missing | lib/env.ts:24 | An in-order sub-list of the names, holding exactly those whose value is unset or empty. |
| Env.MissingVars | lib/env.ts:24 | The required names, in declared order, whose value is unset or empty, and only those. |
| Env.OptionalVarsNeverRequired | lib/env.ts:17-24 | `GITHUB_TOKEN` and `NEXT_PUBLIC_APP_URL` are never reported. At most four names are reported. |
| Env.ValidateEnv | lib/env.ts:16-30 | Throws iff a required variable is unset or empty. The message contains the comma-joined list of missing variables, and so names each of them. |
| Env.MissingMessageNames | lib/env.ts:27-29 | The thrown message holds the `join(", ")` of the missing names, and each name. |
| Env.AppUrl | lib/env.ts:12 | The variable when set and non-empty, otherwise "http://localhost:3000"; never empty. |
| Strings.Contains | components/configuration-status.tsx:19 | `includes` holds iff the text occurs at some position. |
| Strings.Join | app/api/analyze/route.ts:31-32 | `join` of nothing is empty; otherwise the result starts with the first element, ends with the last, and the separator follows the first when there are two or more. |
| Strings.JoinContainsAll | app/api/analyze/route.ts:31-32 | Each joined element occurs in the result of `join`. |
| Strings.NatToString | app/dashboard/page.tsx:246 | The decimal rendering of a count is a non-empty string of digits. |
| Strings.DecimalRoundTrip | app/dashboard/page.tsx:246 | Reading the rendered digits back gives the count. |
| Strings.IntToStringInjective | app/api/github/route.ts:32 | Different statuses render differently in the template literal. |

## Left out

- Network, SDK and database calls are inputs of the model, not computed: GitHub, the Gemini SDK, Supabase auth, storage and tables, and the internal `fetch`es. The `GITHUB_TOKEN` authorisation header only changes such a call, so it is not modelled.
- The `JSON.parse` grammar is not modelled: it is a partial function parameter on the extracted span. `JSON.stringify` of the profile is a function parameter too. The regular expression is modelled only as first-`{`-to-last-`}` selection.
- The model's answer text comes from `response.text()`. Any exception thrown while producing it is folded into the model error with its optional `status`.
- GithubRoute.Get: an exception thrown by a per-repository language request is not modelled. Only the profile and repository-list requests can throw in the model. Repository entries are assumed well-formed, and the profile is taken as the selected fields.
- AnalyzeRoute.Post: malformed `githubData` (for example missing `languages`) would throw inside the template. The model types it as complete GitHub data instead.
- Scores are real numbers. `NaN` and infinite JavaScript numbers are not modelled.
- UploadPage.UploadForm.HandleSubmit: `user` being `null` is folded into a failed upload with that error's message. The redirect after one second, the toasts and the file name built from `Date.now()` are UI side effects. The history records every `setStep`/`setProgress` call in order, as the (step, progress) pair it leaves; `setLoading` is not recorded, and React's batching of renders is not modelled.
- `checkUser` on every page, sign-out and router pushes are left out, because they are navigation side effects.
- Several routes and pages are not part of this model. `app/api/generate-pdf` is presentation templating. `app/api/send-email` is a stub that always answers "coming soon". `app/api/extract-pdf` returns a fixed string. `app/api/test-db` is a connectivity probe. The static pages and modals have no logic.
- JSX rendering beyond the helpers and state updates listed above is not modelled.

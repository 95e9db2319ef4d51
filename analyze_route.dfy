/** The `POST /api/analyze` route: checks the request, renders the prompt,
    asks the generative model, pulls a `{…}` span out of its answer, parses
    it, falls back to one of the canned analyses when needed and stores the
    chosen analysis with the user's id. The model call, `JSON.parse`,
    `JSON.stringify` and the database are parameters of the model. */
module AnalyzeRoute {
  import opened Common
  import opened Strings
  import GithubRoute

  /** A JSON value (RFC 8259); numbers are JavaScript numbers. */
  datatype Json =
    | JNull
    | JBool(b: bool)
    | JNum(n: real)
    | JStr(s: string)
    | JArr(items: seq<Json>)
    | JObj(fields: map<string, Json>)

  type JsonObject = map<string, Json>

  /** The destructured request body; `Malformed` when `request.json()` throws. */
  datatype Request =
    | Malformed(message: string)
    | Body(resumeText: Option<string>, githubData: Option<GithubRoute.GithubData>, userId: Option<string>)

  /** What the model call produced: its text, or the error it threw (with its `status`, if any). */
  datatype ModelReply = Text(text: string) | ApiError(status: Option<int>, message: string)

  /** What the insert into the `analyses` table returned. */
  datatype Storage = StoreFailed | Stored(id: string, createdAt: string)

  /** The row inserted into `analyses`; `None` where the chosen object has no such field. */
  datatype Row = Row(
    userId: string,
    skillGaps: Option<Json>,
    suitableRole: Option<Json>,
    projectSuggestions: Option<Json>,
    learningRoadmap: Option<Json>,
    score: Option<Json>)

  datatype Response =
    | ErrorResponse(status: int, error: string)
    | RowResponse(row: Row, id: string, createdAt: string)

  // ----- the prompt -----

  const Intro := "\nYou are an AI career coach. Analyze the following user data and provide detailed career guidance:\n\nRESUME DATA:\n"

  // The instructions after the GitHub data, piece by piece: the requested
  // JSON shape, the guidelines for each field and the closing advice.
  const AskForJson := "\n\nPlease analyze this data and return a JSON response with the following structure:\n"
  const ShapeGaps := "{\n  \"skill_gaps\": [\"skill1\", \"skill2\", \"skill3\"],\n"
  const ShapeRole := "  \"suitable_role\": \"Best matching role title\",\n"
  const ShapeProjects := "  \"project_suggestions\": [\"project1\", \"project2\", \"project3\"],\n"
  const ShapeRoadmap := "  \"learning_roadmap\": [\"step1\", \"step2\", \"step3\", \"step4\", \"step5\"],\n"
  const ShapeScore := "  \"score\": 85\n}\n"
  const GuidelinesHeader := "\nGuidelines:\n"
  const GuideGaps := "- skill_gaps: List 3-5 key skills missing for target roles\n"
  const GuideRole := "- suitable_role: Single best role match (e.g., \"Full Stack Developer\", \"Backend Engineer\", \"ML Engineer\")\n"
  const GuideProjects := "- project_suggestions: 3 specific project ideas to build\n"
  const GuideRoadmap := "- learning_roadmap: 5 actionable learning steps\n"
  const GuideScore := "- score: Overall profile score out of 100\n"
  const Focus := "\nFocus on practical, actionable advice. Consider current market trends and in-demand skills.\n"

  const Instructions :=
    AskForJson + ShapeGaps + ShapeRole + ShapeProjects + ShapeRoadmap + ShapeScore
    + GuidelinesHeader + GuideGaps + GuideRole + GuideProjects + GuideRoadmap + GuideScore + Focus

  /** How a template literal prints a repository's `language` (`null` when GitHub has none). */
  function LanguageText(language: Option<string>): string
  {
    match language
    case None => "null"
    case Some(l) => l
  }

  function RepoLabel(r: GithubRoute.Repository): string
  {
    r.name + " (" + LanguageText(r.language) + ")"
  }

  function Labels(repos: seq<GithubRoute.Repository>): (labels: seq<string>)
    ensures |labels| == |repos|
    ensures forall i :: 0 <= i < |repos| ==> labels[i] == RepoLabel(repos[i])
  {
    if repos == [] then [] else [RepoLabel(repos[0])] + Labels(repos[1..])
  }

  /** `repositories.slice(0, 5).map(...)`. */
  function RecentRepositories(repos: seq<GithubRoute.Repository>): (labels: seq<string>)
    ensures |labels| == if |repos| < 5 then |repos| else 5
    ensures forall i :: 0 <= i < |labels| ==> labels[i] == RepoLabel(repos[i])
  {
    Labels(if |repos| < 5 then repos else repos[..5])
  }

  /** The template: the introduction, the résumé, the GitHub data, then the instructions. */
  function Prompt(resumeText: string, profileJson: string, g: GithubRoute.GithubData): string
  {
    Assemble(Intro, resumeText, ProfileLine(profileJson), LanguagesLine(g), TopicsLine(g), RepositoriesLine(g),
             Instructions)
  }

  /** The seven pieces of the template, in order. */
  function Assemble(intro: string, resume: string, profile: string, languages: string, topics: string,
                    repositories: string, instructions: string): string
  {
    intro + resume + profile + languages + topics + repositories + instructions
  }

  function ProfileLine(profileJson: string): string
  {
    "\n\nGITHUB DATA:\nProfile: " + profileJson
  }

  function LanguagesLine(g: GithubRoute.GithubData): string
  {
    "\nLanguages: " + Join(", ", g.languages)
  }

  function TopicsLine(g: GithubRoute.GithubData): string
  {
    "\nTopics: " + Join(", ", g.topics)
  }

  function RepositoriesLine(g: GithubRoute.GithubData): string
  {
    "\nRecent Repositories: " + Join(", ", RecentRepositories(g.repositories))
  }

  /** The résumé text sits verbatim right after the fixed introduction. */
  lemma PromptEmbedsResume(resumeText: string, profileJson: string, g: GithubRoute.GithubData)
    ensures Prompt(resumeText, profileJson, g)[|Intro|..|Intro| + |resumeText|] == resumeText
  {
    AssembleKeepsResume(Intro, resumeText, ProfileLine(profileJson), LanguagesLine(g), TopicsLine(g),
                        RepositoriesLine(g), Instructions);
  }

  lemma AssembleKeepsResume(intro: string, resume: string, profile: string, languages: string, topics: string,
                            repositories: string, instructions: string)
    ensures |intro| + |resume| <= |Assemble(intro, resume, profile, languages, topics, repositories, instructions)|
    ensures Assemble(intro, resume, profile, languages, topics, repositories, instructions)[|intro|..|intro| + |resume|]
      == resume
  {
    var rest := profile + languages + topics + repositories + instructions;
    assert Assemble(intro, resume, profile, languages, topics, repositories, instructions) == intro + resume + rest;
  }

  /** Every language appears in the prompt. */
  lemma PromptMentionsLanguages(resumeText: string, profileJson: string, g: GithubRoute.GithubData)
    ensures forall l :: l in g.languages ==> IsSubstring(l, Prompt(resumeText, profileJson, g))
  {
    var p := Prompt(resumeText, profileJson, g);
    var before := Intro + resumeText + ProfileLine(profileJson);
    var after := TopicsLine(g) + RepositoriesLine(g) + Instructions;
    AssembleAround(Intro, resumeText, ProfileLine(profileJson), LanguagesLine(g), TopicsLine(g),
                   RepositoriesLine(g), Instructions);
    JoinContainsAll(", ", g.languages);
    forall l | l in g.languages
      ensures IsSubstring(l, p)
    {
      SubstringOfLine(l, "\nLanguages: ", Join(", ", g.languages), before, after);
    }
  }

  /** Every topic appears in the prompt. */
  lemma PromptMentionsTopics(resumeText: string, profileJson: string, g: GithubRoute.GithubData)
    ensures forall t :: t in g.topics ==> IsSubstring(t, Prompt(resumeText, profileJson, g))
  {
    var p := Prompt(resumeText, profileJson, g);
    var before := Intro + resumeText + ProfileLine(profileJson) + LanguagesLine(g);
    var after := RepositoriesLine(g) + Instructions;
    AssembleAround(Intro, resumeText, ProfileLine(profileJson), LanguagesLine(g), TopicsLine(g),
                   RepositoriesLine(g), Instructions);
    JoinContainsAll(", ", g.topics);
    forall t | t in g.topics
      ensures IsSubstring(t, p)
    {
      SubstringOfLine(t, "\nTopics: ", Join(", ", g.topics), before, after);
    }
  }

  /** Each of the first five repositories appears in the prompt as `name (language)`. */
  lemma PromptMentionsRecentRepositories(resumeText: string, profileJson: string, g: GithubRoute.GithubData)
    ensures forall i :: 0 <= i < |g.repositories| && i < 5 ==>
      IsSubstring(RepoLabel(g.repositories[i]), Prompt(resumeText, profileJson, g))
  {
    var p := Prompt(resumeText, profileJson, g);
    var before := Intro + resumeText + ProfileLine(profileJson) + LanguagesLine(g) + TopicsLine(g);
    var recent := Join(", ", RecentRepositories(g.repositories));
    AssembleAround(Intro, resumeText, ProfileLine(profileJson), LanguagesLine(g), TopicsLine(g),
                   RepositoriesLine(g), Instructions);
    forall i | 0 <= i < |g.repositories| && i < 5
      ensures IsSubstring(RepoLabel(g.repositories[i]), p)
    {
      JoinContains(", ", RecentRepositories(g.repositories), i);
      SubstringOfLine(RepoLabel(g.repositories[i]), "\nRecent Repositories: ", recent, before, Instructions);
    }
  }

  /** The template split around each of its GitHub lines. */
  lemma AssembleAround(intro: string, resume: string, profile: string, languages: string, topics: string,
                       repositories: string, instructions: string)
    ensures var s := Assemble(intro, resume, profile, languages, topics, repositories, instructions);
      && s == (intro + resume + profile) + languages + (topics + repositories + instructions)
      && s == (intro + resume + profile + languages) + topics + (repositories + instructions)
      && s == (intro + resume + profile + languages + topics) + repositories + instructions
  {
  }

  /** Repositories after the fifth never reach the prompt. */
  lemma PromptIgnoresOlderRepositories(resumeText: string, profileJson: string,
                                       g1: GithubRoute.GithubData, g2: GithubRoute.GithubData)
    requires g1.languages == g2.languages && g1.topics == g2.topics
    requires |g1.repositories| >= 5 && |g2.repositories| >= 5
    requires g1.repositories[..5] == g2.repositories[..5]
    ensures Prompt(resumeText, profileJson, g1) == Prompt(resumeText, profileJson, g2)
  {
    var r1, r2 := RecentRepositories(g1.repositories), RecentRepositories(g2.repositories);
    forall i | 0 <= i < 5
      ensures r1[i] == r2[i]
    {
      assert g1.repositories[i] == g1.repositories[..5][i];
      assert g2.repositories[i] == g2.repositories[..5][i];
    }
  }

  // ----- the `{…}` span: the regular expression /\{[\s\S]*\}/ -----

  function FirstIndex(s: string, c: char): (r: Option<nat>)
    ensures r.Some? ==> r.value < |s| && s[r.value] == c && forall k :: 0 <= k < r.value ==> s[k] != c
    ensures r.None? ==> forall k :: 0 <= k < |s| ==> s[k] != c
  {
    if s == [] then None
    else if s[0] == c then Some(0)
    else
      match FirstIndex(s[1..], c)
      case None => None
      case Some(k) => Some(k + 1)
  }

  function LastIndex(s: string, c: char): (r: Option<nat>)
    ensures r.Some? ==> r.value < |s| && s[r.value] == c && forall k :: r.value < k < |s| ==> s[k] != c
    ensures r.None? ==> forall k :: 0 <= k < |s| ==> s[k] != c
  {
    if s == [] then None
    else if s[|s| - 1] == c then Some(|s| - 1)
    else LastIndex(s[..|s| - 1], c)
  }

  /** `i` is the first `{` of `text` and `j` the last `}`, and `j` comes after `i`. */
  ghost predicate SpanBounds(text: string, i: int, j: int)
  {
    && 0 <= i < j < |text|
    && text[i] == '{' && text[j] == '}'
    && (forall k :: 0 <= k < i ==> text[k] != '{')
    && (forall k :: j < k < |text| ==> text[k] != '}')
  }

  /** The regular expression's match: from the first `{` to the last `}`, when a `}` follows that `{`. */
  function ExtractSpan(text: string): (r: Option<string>)
    ensures r.Some? <==> exists i, j :: 0 <= i < j < |text| && text[i] == '{' && text[j] == '}'
    ensures forall i, j :: SpanBounds(text, i, j) ==> r == Some(text[i..j + 1])
  {
    match FirstIndex(text, '{')
    case None => None
    case Some(i) =>
      match LastIndex(text, '}')
      case None => None
      case Some(j) =>
        if i < j then Some(text[i..j + 1]) else None
  }

  // ----- the analyses the route can store -----

  function StringArray(xs: seq<string>): (v: Json)
    ensures v.JArr? && |v.items| == |xs|
    ensures forall i :: 0 <= i < |xs| ==> v.items[i] == JStr(xs[i])
  {
    JArr(seq(|xs|, i requires 0 <= i < |xs| => JStr(xs[i])))
  }

  function Payload(gaps: seq<string>, role: string, projects: seq<string>, roadmap: seq<string>, score: real): JsonObject
  {
    map[
      "skill_gaps" := StringArray(gaps),
      "suitable_role" := JStr(role),
      "project_suggestions" := StringArray(projects),
      "learning_roadmap" := StringArray(roadmap),
      "score" := JNum(score)]
  }

  predicate IsStringArray(v: Json, lo: nat, hi: nat)
  {
    v.JArr? && lo <= |v.items| <= hi && forall i :: 0 <= i < |v.items| ==> v.items[i].JStr?
  }

  /** The shape the prompt asks for: 3 to 5 skill gaps, a non-empty role,
      3 projects, 5 roadmap steps and a whole-number score in [0, 100]. */
  predicate WellShaped(o: JsonObject)
  {
    && "skill_gaps" in o && IsStringArray(o["skill_gaps"], 3, 5)
    && "suitable_role" in o && o["suitable_role"].JStr? && o["suitable_role"].s != ""
    && "project_suggestions" in o && IsStringArray(o["project_suggestions"], 3, 3)
    && "learning_roadmap" in o && IsStringArray(o["learning_roadmap"], 5, 5)
    && "score" in o && o["score"].JNum?
    && 0.0 <= o["score"].n <= 100.0 && o["score"].n == o["score"].n.Floor as real
  }

  /** Stored when the model's answer holds no parsable `{…}` span. */
  function GenericFallback(): (o: JsonObject)
    ensures WellShaped(o)
    ensures o["suitable_role"] == JStr("Full Stack Developer") && o["score"] == JNum(78.0)
    ensures |o["skill_gaps"].items| == 4
  {
    Payload(
      ["Docker", "Kubernetes", "System Design", "GraphQL"],
      "Full Stack Developer",
      ["Build a microservices architecture with Docker and Kubernetes",
       "Create a real-time chat application with WebSocket",
       "Develop a GraphQL API with authentication and authorization"],
      ["Master containerization with Docker",
       "Learn Kubernetes for orchestration",
       "Study system design principles",
       "Build projects with GraphQL",
       "Practice coding interviews and system design"],
      78.0)
  }

  /** Stored when the model call fails with status 429. */
  function QuotaFallback(): (o: JsonObject)
    ensures WellShaped(o)
    ensures o["suitable_role"] == JStr("Senior Full Stack Developer") && o["score"] == JNum(82.0)
    ensures |o["skill_gaps"].items| == 4
  {
    Payload(
      ["Advanced TypeScript", "System Design", "Cloud Architecture", "Testing"],
      "Senior Full Stack Developer",
      ["Build a scalable e-commerce platform with microservices",
       "Create a real-time collaboration tool",
       "Develop a comprehensive testing framework"],
      ["Master advanced TypeScript patterns",
       "Study system design at scale",
       "Learn cloud architecture patterns",
       "Implement comprehensive testing strategies",
       "Practice technical leadership skills"],
      82.0)
  }

  /** Stored if no analysis had been chosen by the time the model step ends. */
  function DefaultFallback(): (o: JsonObject)
    ensures WellShaped(o)
    ensures o["suitable_role"] == JStr("Software Developer") && o["score"] == JNum(75.0)
    ensures |o["skill_gaps"].items| == 3
  {
    Payload(
      ["Technical Skills", "Communication", "Project Management"],
      "Software Developer",
      ["Build a personal portfolio website",
       "Create a full-stack application",
       "Contribute to open source projects"],
      ["Strengthen core programming skills",
       "Learn modern frameworks and tools",
       "Practice system design",
       "Improve communication skills",
       "Build a professional network"],
      75.0)
  }

  /** The three canned analyses can be told apart by role and by score. */
  lemma FallbacksDistinguishable()
    ensures GenericFallback()["suitable_role"] != QuotaFallback()["suitable_role"]
    ensures GenericFallback()["suitable_role"] != DefaultFallback()["suitable_role"]
    ensures QuotaFallback()["suitable_role"] != DefaultFallback()["suitable_role"]
    ensures GenericFallback()["score"] != QuotaFallback()["score"]
    ensures GenericFallback()["score"] != DefaultFallback()["score"]
    ensures QuotaFallback()["score"] != DefaultFallback()["score"]
  {
  }

  // ----- the decision -----

  /** Which analysis the model step settles on, or the error it rethrows. */
  datatype Decision = UseParsed(obj: JsonObject) | UseGeneric | UseQuota | Rethrow(message: string)

  function Decide(reply: ModelReply, parse: string -> Option<JsonObject>): Decision
  {
    match reply
    case Text(text) =>
      (match ExtractSpan(text)
       case None => UseGeneric
       case Some(span) =>
         match parse(span)
         case None => UseGeneric
         case Some(o) => UseParsed(o))
    case ApiError(status, message) =>
      if status == Some(429) then UseQuota else Rethrow(message)
  }

  function DataOf(d: Decision): JsonObject
    requires !d.Rethrow?
  {
    match d
    case UseParsed(o) => o
    case UseGeneric => GenericFallback()
    case UseQuota => QuotaFallback()
  }

  function Field(o: JsonObject, key: string): Option<Json>
  {
    if key in o then Some(o[key]) else None
  }

  /** The insert: the analysis' five fields, as they are, plus the user id. */
  function RowOf(userId: string, o: JsonObject): (r: Row)
    ensures r.userId == userId
  {
    Row(userId, Field(o, "skill_gaps"), Field(o, "suitable_role"),
        Field(o, "project_suggestions"), Field(o, "learning_roadmap"), Field(o, "score"))
  }

  /** The five analysis fields the insert copies. */
  const Keys: set<string> := {"skill_gaps", "suitable_role", "project_suggestions", "learning_roadmap", "score"}

  /** The row's column for an analysis field. */
  function Column(r: Row, key: string): Option<Json>
    requires key in Keys
  {
    if key == "skill_gaps" then r.skillGaps
    else if key == "suitable_role" then r.suitableRole
    else if key == "project_suggestions" then r.projectSuggestions
    else if key == "learning_roadmap" then r.learningRoadmap
    else r.score
  }

  predicate RowWellShaped(r: Row)
  {
    && r.skillGaps.Some? && IsStringArray(r.skillGaps.value, 3, 5)
    && r.suitableRole.Some? && r.suitableRole.value.JStr? && r.suitableRole.value.s != ""
    && r.projectSuggestions.Some? && IsStringArray(r.projectSuggestions.value, 3, 3)
    && r.learningRoadmap.Some? && IsStringArray(r.learningRoadmap.value, 5, 5)
    && r.score.Some? && r.score.value.JNum?
    && 0.0 <= r.score.value.n <= 100.0 && r.score.value.n == r.score.value.n.Floor as real
  }

  /** The row keeps the analysis verbatim: each of the five fields is copied
      when present and left empty when absent, so the row is well shaped
      exactly when the analysis is. */
  lemma RowPreservesShape(userId: string, o: JsonObject)
    ensures RowOf(userId, o).userId == userId
    ensures forall key :: key in Keys ==> (key in o <==> Column(RowOf(userId, o), key).Some?)
    ensures forall key :: key in Keys && key in o ==> Column(RowOf(userId, o), key) == Some(o[key])
    ensures RowWellShaped(RowOf(userId, o)) <==> WellShaped(o)
  {
  }

  /** The four outcomes: 429 selects the quota analysis, any other model
      failure is rethrown with its message, an answer whose span parses is
      used as parsed, and every other answer gives the generic analysis. */
  lemma DecideCases(reply: ModelReply, parse: string -> Option<JsonObject>)
    ensures Decide(reply, parse).UseQuota? <==> reply.ApiError? && reply.status == Some(429)
    ensures Decide(reply, parse).Rethrow? <==> reply.ApiError? && reply.status != Some(429)
    ensures Decide(reply, parse).Rethrow? ==> Decide(reply, parse).message == reply.message
    ensures Decide(reply, parse).UseParsed? <==>
      reply.Text? && ExtractSpan(reply.text).Some? && parse(ExtractSpan(reply.text).value).Some?
    ensures Decide(reply, parse).UseParsed? ==> Some(Decide(reply, parse).obj) == parse(ExtractSpan(reply.text).value)
    ensures Decide(reply, parse).UseGeneric? <==>
      reply.Text? && (ExtractSpan(reply.text).None? || parse(ExtractSpan(reply.text).value).None?)
  {
  }

  /** A model failure other than 429 is rethrown; 429 always selects the quota analysis. */
  lemma ModelErrorOutcomes(status: Option<int>, message: string, parse: string -> Option<JsonObject>)
    ensures Decide(ApiError(status, message), parse) ==
      if status == Some(429) then UseQuota else Rethrow(message)
  {
  }

  /** An answer without a `{` followed later by a `}` gives the generic analysis. */
  lemma NoSpanMeansGeneric(text: string, parse: string -> Option<JsonObject>)
    requires forall i, j :: 0 <= i < j < |text| && text[i] == '{' ==> text[j] != '}'
    ensures Decide(Text(text), parse) == UseGeneric
  {
  }

  /** Whatever happens, an analysis that is not the parsed answer is well shaped. */
  lemma CannedAnalysesWellShaped(userId: string, reply: ModelReply, parse: string -> Option<JsonObject>)
    requires !Decide(reply, parse).Rethrow? && !Decide(reply, parse).UseParsed?
    ensures RowWellShaped(RowOf(userId, DataOf(Decide(reply, parse))))
  {
    RowPreservesShape(userId, DataOf(Decide(reply, parse)));
  }

  /** The parsed answer is stored unchecked: a `{…}` span that parses to an
      object with a string score is stored with that score. */
  lemma ParsedAnswerNotValidated()
    ensures var parse := (s: string) => Some(map["score" := JStr("high")]);
      var d := Decide(Text("Here: {}"), parse);
      d.UseParsed? && !RowWellShaped(RowOf("u", DataOf(d)))
  {
    var text := "Here: {}";
    assert SpanBounds(text, 6, 7);
  }

  /** The model call and the parse of its answer (the inner `try`/`catch`
      blocks): the analysis assigned so far, or the error rethrown to the handler. */
  method AskModel(reply: ModelReply, parse: string -> Option<JsonObject>)
    returns (analysisData: Option<JsonObject>, rethrown: Option<string>)
    ensures rethrown.Some? <==> Decide(reply, parse).Rethrow?
    ensures rethrown.Some? ==> rethrown.value == Decide(reply, parse).message && analysisData.None?
    ensures rethrown.None? ==> analysisData == Some(DataOf(Decide(reply, parse)))
  {
    analysisData, rethrown := None, None;
    match reply {
      case Text(text) =>
        var span := ExtractSpan(text);
        if span.Some? && parse(span.value).Some? {
          analysisData := parse(span.value);
        } else {
          analysisData := Some(GenericFallback());
        }
      case ApiError(status, message) =>
        if status == Some(429) {
          analysisData := Some(QuotaFallback());
        } else {
          rethrown := Some(message);
        }
    }
  }

  /** The handler. `prompt` is the text sent to the model (`None` when no call
      is made); `inserted` is the row sent to storage (`None` when nothing is
      stored); `usedDefault` records whether the default analysis was taken. */
  method Post(request: Request, stringify: GithubRoute.Profile -> string, reply: ModelReply,
              parse: string -> Option<JsonObject>, storage: Storage)
    returns (response: Response, prompt: Option<string>, inserted: Option<Row>, ghost usedDefault: bool)
    ensures request.Malformed? ==>
      response == ErrorResponse(500, request.message) && prompt.None? && inserted.None?
    ensures request.Body? && !Complete(request) ==>
      response == ErrorResponse(400, "Missing required data") && prompt.None? && inserted.None?
    ensures Complete(request) ==>
      var g := request.githubData.value;
      prompt == Some(Prompt(request.resumeText.value, stringify(g.profile), g))
    ensures Complete(request) && Decide(reply, parse).Rethrow? ==>
      response == ErrorResponse(500, Decide(reply, parse).message) && inserted.None?
    ensures Complete(request) && !Decide(reply, parse).Rethrow? ==>
      && inserted == Some(RowOf(request.userId.value, DataOf(Decide(reply, parse))))
      && response == match storage
                     case StoreFailed => ErrorResponse(500, "Failed to save analysis")
                     case Stored(id, at) => RowResponse(inserted.value, id, at)
    ensures !usedDefault
  {
    usedDefault := false;
    if request.Malformed? {
      return ErrorResponse(500, request.message), None, None, usedDefault;
    }
    if !Truthy(request.resumeText) || request.githubData.None? || !Truthy(request.userId) {
      return ErrorResponse(400, "Missing required data"), None, None, usedDefault;
    }
    var g := request.githubData.value;
    prompt := Some(Prompt(request.resumeText.value, stringify(g.profile), g));

    var analysisData, rethrown := AskModel(reply, parse);
    if rethrown.Some? {
      return ErrorResponse(500, rethrown.value), prompt, None, usedDefault;
    }

    if analysisData.None? {
      analysisData := Some(DefaultFallback());
      usedDefault := true;
    }

    response, inserted := Save(request.userId.value, analysisData.value, storage);
  }

  /** The insert into `analyses` and the answer built from its outcome. */
  method Save(userId: string, analysis: JsonObject, storage: Storage) returns (response: Response, inserted: Option<Row>)
    ensures inserted == Some(RowOf(userId, analysis))
    ensures storage.StoreFailed? ==> response == ErrorResponse(500, "Failed to save analysis")
    ensures storage.Stored? ==> response == RowResponse(inserted.value, storage.id, storage.createdAt)
  {
    var row := RowOf(userId, analysis);
    inserted := Some(row);
    match storage {
      case StoreFailed => response := ErrorResponse(500, "Failed to save analysis");
      case Stored(id, at) => response := RowResponse(row, id, at);
    }
  }

  /** The résumé text, the GitHub data and the user id are all present and truthy. */
  predicate Complete(request: Request)
  {
    request.Body? && Truthy(request.resumeText) && request.githubData.Some? && Truthy(request.userId)
  }
}

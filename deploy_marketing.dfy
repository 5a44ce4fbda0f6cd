/** The marketing deployment route (src/routes/deployMarketing.js): the base URL, the
    deployment URLs, and the marketing page built from the project and its analysis, with
    the template's rules (at most six feature cards, icons cycling through eight, a tech
    section only for a non-empty stack) and JavaScript's rules for the values it reads. */
module DeployMarketing {
  import opened JsText
  import opened JsonValues

  // ---------------------------------------------------------------------------
  // URLs
  // ---------------------------------------------------------------------------

  const DefaultBaseUrl: string := "http://localhost:4004"

  /** `(process.env.BASE_URL || 'http://localhost:4004').replace(/\/$/, '')`, for the value of
      `BASE_URL` (`""` when it is unset). */
  function BaseUrl(env: string): string {
    var url := if env != "" then env else DefaultBaseUrl;
    if |url| > 0 && Last(url) == '/' then Init(url) else url
  }

  /** One trailing `/` is dropped and only one: a URL ending in `//` keeps one. */
  lemma BaseUrlSpec(b: string)
    ensures BaseUrl(b + "/") == b
    ensures (|b| > 0 && Last(b) != '/') ==> BaseUrl(b) == b
    ensures BaseUrl("") == DefaultBaseUrl
  {
    assert Init(b + "/") == b;
    assert Last(DefaultBaseUrl) != '/';
  }

  function MarketingUrl(base: string, projectId: string): string {
    base + "/preview/marketing-" + projectId + "/"
  }

  function AppUrl(base: string, projectId: string): string {
    base + "/preview/app-" + projectId + "/"
  }

  /** Under one base URL, different projects get different URLs, and a marketing URL is
      never an application URL. */
  lemma UrlsDistinct(base: string, a: string, b: string)
    ensures MarketingUrl(base, a) == MarketingUrl(base, b) <==> a == b
    ensures AppUrl(base, a) == AppUrl(base, b) <==> a == b
    ensures MarketingUrl(base, a) != AppUrl(base, b)
  {
    var n := |base + "/preview/"|;
    assert MarketingUrl(base, a)[n] == 'm' && AppUrl(base, b)[n] == 'a';
    if MarketingUrl(base, a) == MarketingUrl(base, b) {
      var m := |base + "/preview/marketing-"|;
      assert a == MarketingUrl(base, a)[m..|MarketingUrl(base, a)| - 1];
      assert b == MarketingUrl(base, b)[m..|MarketingUrl(base, b)| - 1];
    }
    if AppUrl(base, a) == AppUrl(base, b) {
      var m := |base + "/preview/app-"|;
      assert a == AppUrl(base, a)[m..|AppUrl(base, a)| - 1];
      assert b == AppUrl(base, b)[m..|AppUrl(base, b)| - 1];
    }
  }

  // ---------------------------------------------------------------------------
  // JavaScript values in the template
  // ---------------------------------------------------------------------------

  /** JavaScript truthiness of a JSON value (`x || default` keeps a truthy `x`). */
  predicate Truthy(j: Json) {
    match j
    case JNull => false
    case JBool(b) => b
    case JNumber(n) => n != 0
    case JString(s) => s != ""
    case JArray(_) => true
    case JObject(_) => true
  }

  function IntToString(n: int): string {
    if n < 0 then "-" + NatToString(-n) else NatToString(n)
  }

  /** `${x}` in a template literal: strings as they are, numbers in decimal, arrays joined
      with `,` (a null item as empty text), objects as `[object Object]`. */
  function Interpolate(j: Json): string
    decreases j
  {
    match j
    case JNull => "null"
    case JBool(b) => if b then "true" else "false"
    case JNumber(n) => IntToString(n)
    case JString(s) => s
    case JArray(items) =>
      Join(seq(|items|, k requires 0 <= k < |items| => if items[k].JNull? then "" else Interpolate(items[k])), ",")
    case JObject(_) => "[object Object]"
  }

  /** The value of `obj.key || default`: the member when it is truthy. */
  function OrDefault(v: Option<Json>, default: Json): Json {
    if v.Some? && Truthy(v.value) then v.value else default
  }

  // ---------------------------------------------------------------------------
  // The marketing page
  // ---------------------------------------------------------------------------

  const Icons: seq<string> := ["\U{2728}", "\U{1F680}", "\U{1F4A1}", "\U{1F3AF}", "\U{26A1}", "\U{1F512}", "\U{1F4CA}", "\U{1F31F}"]

  /** `getFeatureIcon(index)`: the icons in turn, starting again after the eighth. */
  function FeatureIcon(index: nat): string {
    Icons[index % |Icons|]
  }

  lemma FeatureIconCycles(index: nat)
    ensures FeatureIcon(index + 8) == FeatureIcon(index)
    ensures index < 8 ==> FeatureIcon(index) == Icons[index]
  {
  }

  const MaxFeatureCards: nat := 6

  datatype FeatureCard = FeatureCard(icon: string, feature: string)

  /** The page `generateMarketingWebsite` writes, as the values its template shows: the
      title and the description (in the head and in the hero), the Try Demo link, the feature
      cards, the tech badges (`None` when the section is left out) and the Launch link. */
  datatype MarketingPage = MarketingPage(
    title: string,
    description: string,
    tryDemo: string,
    cards: seq<FeatureCard>,
    techBadges: Option<seq<string>>,
    launch: string)

  /** The project row with the analysis joined to it (`None` for a null `analysis_data`). */
  datatype ProjectRow = ProjectRow(id: nat, name: string, analysisData: Option<Json>)

  datatype Result<T> = Ok(value: T) | Err(message: string)

  datatype PageResult = Page(page: MarketingPage) | PageError(message: string)

  function Cards(features: seq<Json>): (cs: seq<FeatureCard>)
    ensures |cs| == |features|
    ensures forall k :: 0 <= k < |features| ==> cs[k] == FeatureCard(FeatureIcon(k), Interpolate(features[k]))
  {
    seq(|features|, k requires 0 <= k < |features| => FeatureCard(FeatureIcon(k), Interpolate(features[k])))
  }

  function Badges(stack: seq<Json>): (bs: seq<string>)
    ensures |bs| == |stack| && forall k :: 0 <= k < |stack| ==> bs[k] == Interpolate(stack[k])
  {
    seq(|stack|, k requires 0 <= k < |stack| => Interpolate(stack[k]))
  }

  /** `features.slice(0, 6).map(...)`: the first six of an array; a string has `slice` but its
      slice has no `map`, and other values have no `slice`. */
  function FeatureCards(features: Json): Result<seq<FeatureCard>> {
    match features
    case JArray(items) =>
      Ok(Cards(items[..if |items| <= MaxFeatureCards then |items| else MaxFeatureCards]))
    case JString(_) => Err("features.slice(...).map is not a function")
    case _ => Err("features.slice is not a function")
  }

  /** `techStack.length > 0 ? ...techStack.map(...)... : ''`: an array gives one badge per
      entry when it is not empty; a non-empty string has a length but no `map`; the section is
      left out for other values (an object with a positive `length` member, which would throw,
      included). */
  function TechBadges(techStack: Json): Result<Option<seq<string>>> {
    match techStack
    case JArray(items) => Ok(if |items| > 0 then Some(Badges(items)) else None)
    case JString(s) => if |s| > 0 then Err("techStack.map is not a function") else Ok(None)
    case _ => Ok(None)
  }

  /** The analysis the template reads: the row's analysis when it is truthy, else `{}`. */
  function TemplateAnalysis(project: ProjectRow): Json {
    if project.analysisData.Some? && Truthy(project.analysisData.value) then project.analysisData.value else JObject([])
  }

  /** `generateMarketingWebsite(project, analysisData, baseUrl)` */
  function MarketingWebsite(project: ProjectRow, base: string): PageResult {
    var analysis := TemplateAnalysis(project);
    var title := if project.name != "" then project.name else "Your Application";
    var description := Interpolate(OrDefault(Get(analysis, "summary"), JString("A powerful application built with AI")));
    var appUrl := AppUrl(base, NatToString(project.id));
    var cards := FeatureCards(OrDefault(Get(analysis, "features"), JArray([])));
    var badges := TechBadges(OrDefault(Get(analysis, "recommended_tech_stack"), JArray([])));
    if cards.Err? then PageError(cards.message)
    else if badges.Err? then PageError(badges.message)
    else Page(MarketingPage(title, description, appUrl, cards.value, badges.value, appUrl))
  }

  /** The page's rules: both links lead to the application, at most six cards show the first
      features in order with the icons in turn, and there is a tech section exactly when the
      stack is a non-empty array, with one badge per entry. */
  lemma MarketingPageSpec(project: ProjectRow, base: string, features: seq<Json>, stack: seq<Json>)
    requires project.analysisData.Some? && project.analysisData.value.JObject?
    requires OrDefault(Get(project.analysisData.value, "features"), JArray([])) == JArray(features)
    requires OrDefault(Get(project.analysisData.value, "recommended_tech_stack"), JArray([])) == JArray(stack)
    ensures var r := MarketingWebsite(project, base);
      r.Page?
      && r.page.tryDemo == r.page.launch == AppUrl(base, NatToString(project.id))
      && |r.page.cards| == (if |features| <= MaxFeatureCards then |features| else MaxFeatureCards)
      && (forall k :: 0 <= k < |r.page.cards| ==>
            r.page.cards[k].feature == Interpolate(features[k]) && r.page.cards[k].icon == Icons[k % 8])
      && (r.page.techBadges.Some? <==> |stack| > 0)
      && (r.page.techBadges.Some? ==>
            |r.page.techBadges.value| == |stack|
            && forall k :: 0 <= k < |stack| ==> r.page.techBadges.value[k] == Interpolate(stack[k]))
  {
  }

  /** The two defaults apply independently: a project without a name is titled `Your
      Application`, and an analysis whose summary is missing or falsy (no analysis at all
      included) is described as `A powerful application built with AI`. Without an analysis
      the page has no cards and no tech section. */
  lemma MarketingPageDefaults(project: ProjectRow, base: string)
    ensures var r := MarketingWebsite(project, base);
      var summary := if project.analysisData.Some? then Get(project.analysisData.value, "summary") else None;
      r.Page? ==>
        (project.name == "" ==> r.page.title == "Your Application")
        && (project.name != "" ==> r.page.title == project.name)
        && (summary.None? || !Truthy(summary.value) ==> r.page.description == "A powerful application built with AI")
        && (summary.Some? && Truthy(summary.value) ==> r.page.description == Interpolate(summary.value))
    ensures project.analysisData.None? ==>
      MarketingWebsite(project, base).Page?
      && MarketingWebsite(project, base).page.cards == []
      && MarketingWebsite(project, base).page.techBadges.None?
  {
    assert Get(JObject([]), "summary") == None;
    assert Get(JObject([]), "features") == None;
    assert Get(JObject([]), "recommended_tech_stack") == None;
  }

  // ---------------------------------------------------------------------------
  // The handler
  // ---------------------------------------------------------------------------

  /** `{ success: false, message }`, the body of this route's refusals. */
  function RefusalBody(message: string): Json {
    JObject([("success", JBool(false)), ("message", JString(message))])
  }

  function UrlsJson(base: string, projectId: string): Json {
    JObject([
      ("marketing", JString(MarketingUrl(base, projectId))),
      ("app", JString(AppUrl(base, projectId))),
      ("status", JString("deployed"))])
  }

  /** The reply, the page written to `index.html`, and the metadata merged into the project
      row. */
  datatype DeployOutcome = DeployOutcome(reply: HttpReply, page: Option<MarketingPage>, metadata: Option<Json>)

  /** The catch block's reply: 500 with the JavaScript error message. */
  function DeployFailure(message: string): HttpReply {
    HttpReply(500, JObject([
      ("success", JBool(false)),
      ("message", JString("Failed to deploy marketing website")),
      ("error", JString(message))]))
  }

  /** `POST /api/deploy-marketing` for the request field `projectId` (`""` when missing), the
      value of `BASE_URL` and the project row found for that id. */
  function DeployRoute(projectId: string, env: string, project: Option<ProjectRow>): DeployOutcome {
    if projectId == "" then DeployOutcome(HttpReply(400, RefusalBody("Project ID is required")), None, None)
    else if project.None? then DeployOutcome(HttpReply(404, RefusalBody("Project not found")), None, None)
    else
      var base := BaseUrl(env);
      match MarketingWebsite(project.value, base)
      case PageError(message) => DeployOutcome(DeployFailure(message), None, None)
      case Page(page) =>
        DeployOutcome(HttpReply(200, JObject([
          ("success", JBool(true)),
          ("message", JString("Marketing website deployed successfully")),
          ("urls", UrlsJson(base, projectId))])),
          Some(page), Some(JObject([("deployment", UrlsJson(base, projectId))])))
  }

  /** A deployment records and returns the marketing and application URLs under the base
      URL, with status `deployed`; the page links to the same application URL whenever the
      request's id is the row's id written in decimal. */
  lemma DeploymentUrls(projectId: string, env: string, project: Option<ProjectRow>)
    requires DeployRoute(projectId, env, project).reply.status == 200
    ensures var out := DeployRoute(projectId, env, project);
      var urls := UrlsJson(BaseUrl(env), projectId);
      projectId != "" && project.Some? && out.page.Some?
      && out.metadata == Some(JObject([("deployment", urls)]))
      && Get(out.reply.body, "urls") == Some(urls)
      && (NatToString(project.value.id) == projectId ==>
            out.page.value.launch == AppUrl(BaseUrl(env), projectId)
            && Get(urls, "app") == Some(JString(out.page.value.launch)))
  {
    var out := DeployRoute(projectId, env, project);
    GetMember(out.reply.body.members, 2, "urls");
    GetMember(UrlsJson(BaseUrl(env), projectId).members, 1, "app");
  }

  /** Analysis values the template cannot render end in the 500 reply with the JavaScript
      error: truthy features that are not an array (a string has `slice` but its slice has no
      `map`; other values have no `slice`), and, beside renderable features, a stack that is a
      non-empty string. Every other analysis is deployed. */
  lemma UnrenderableAnalysis(projectId: string, env: string, project: ProjectRow)
    requires projectId != ""
    ensures var a := TemplateAnalysis(project);
      var features := OrDefault(Get(a, "features"), JArray([]));
      var stack := OrDefault(Get(a, "recommended_tech_stack"), JArray([]));
      var reply := DeployRoute(projectId, env, Some(project)).reply;
      (features.JString? ==> reply == DeployFailure("features.slice(...).map is not a function"))
      && (!features.JArray? && !features.JString? ==> reply == DeployFailure("features.slice is not a function"))
      && (features.JArray? && stack.JString? && stack.s != "" ==> reply == DeployFailure("techStack.map is not a function"))
      && (reply.status == 500 <==> !features.JArray? || (stack.JString? && stack.s != ""))
  {
  }

  /** A non-empty string of features is refused; an empty one is deployed. */
  lemma StringFeaturesRefused(projectId: string, env: string, project: ProjectRow, s: string)
    requires projectId != "" && project.analysisData == Some(JObject([("features", JString(s))]))
    ensures s != "" ==>
      DeployRoute(projectId, env, Some(project)).reply == DeployFailure("features.slice(...).map is not a function")
    ensures s == "" ==> DeployRoute(projectId, env, Some(project)).reply.status == 200
  {
    var a := project.analysisData.value;
    GetMember(a.members, 0, "features");
    assert Get(a, "summary") == None;
    assert Get(a, "recommended_tech_stack") == None;
    UnrenderableAnalysis(projectId, env, project);
  }

  /** The id is checked before anything else, then the project must exist. */
  lemma DeployRefusals(projectId: string, env: string, project: Option<ProjectRow>)
    ensures projectId == "" ==>
      DeployRoute(projectId, env, project) == DeployOutcome(HttpReply(400, RefusalBody("Project ID is required")), None, None)
    ensures projectId != "" && project.None? ==>
      DeployRoute(projectId, env, project) == DeployOutcome(HttpReply(404, RefusalBody("Project not found")), None, None)
  {
  }
}

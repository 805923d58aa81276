/**
 * The API client (src/ApiClient.php): the request each remote operation
 * sends, separated from the HTTP exchange, and the signer that adds the
 * `nonce`, `clientid`, `timestamp` and `authorization` headers.
 *
 * The client's static methods (template browsing, the trial project) never
 * see the credentials and send the two default headers only; its instance
 * methods pass every request through `SetAuthorization` first. The model
 * keeps that split in the types: `PublicOperation` requests are built by a
 * static function, `AccountOperation` requests by an instance function.
 */
module Client {
  import opened PhpValues
  import opened PhpStrings
  import opened PhpForeign
  import opened Signing

  const SdkVersion: string := "0.3.13"
  const UserAgent: string := "renderforest/sdk-php/" + SdkVersion
  const ApiEndpoint: string := "https://api.renderforest.com"

  // Path constants, as the class declares them (the `%s`/`%d` ones are
  // sprintf formats and are also sent, unformatted, as `endpoint`).
  const ProjectsPath: string := "/api/v1/projects"
  const DuplicateProjectPath: string := "/api/v1/projects/%d/duplicate"
  const DeleteProjectVideosPath: string := "/api/v1/projects/%d/videos/%d"
  const ApplyTemplatePresetPath: string := "/api/v1/projects/%d/apply-template-preset"
  const RenderProjectPath: string := "/api/v1/projects/%d/render"
  const ProjectDataPath: string := "/api/v5/project-data"
  const TrialProjectPath: string := "/api/v1/projects/trial"
  const SupportPath: string := "/api/v1/supports/ticket"
  const CurrentUserPath: string := "/api/v1/users/current"
  const RecommendedCustomColorsPath: string := "/api/v1/templates/%s/recommended-custom-colors"
  const TemplatesPathPrefix: string := "/api/v1"
  const TemplatesPath: string := "/api/v1/templates"
  const TemplateCategoriesPath: string := "/api/v1/templates/categories"
  const TemplatePresetsPath: string := "/api/v1/templates/%d/template-presets"
  const PluggableScreensPath: string := "/api/v1/templates/%d/pluggable-screens"
  const TemplateThemePath: string := "/api/v1/templates/%s/theme"
  const TemplateTransitionsPath: string := "/api/v1/templates/%s/transitions"
  const ColorPresetsPath: string := "/api/v1/templates/%s/color-presets"
  const FontsPath: string := "/api/v1/fonts"

  /** A one-entry array literal `[$k => $v]`. */
  function Single(k: string, v: Value): (a: PhpArray)
    ensures a.Valid() && a.keys == [k] && Lookup(a, k) == Some(v)
  {
    PhpArray([k], map[k := v])
  }

  /** The headers every operation starts from. */
  function DefaultHeaders(): (h: PhpArray)
    ensures h.Valid() && h.keys == ["Accept", "User-Agent"]
    ensures Lookup(h, "Accept") == Some(Str("application/json"))
    ensures Lookup(h, "User-Agent") == Some(Str(UserAgent))
  {
    PhpArray(["Accept", "User-Agent"],
             map["Accept" := Str("application/json"), "User-Agent" := Str(UserAgent)])
  }

  /** What an operation asks Guzzle for, before any signing: the HTTP
      method, the `endpoint` entry, the URI as the part after the API host
      (every operation builds its URI as `API_ENDPOINT` followed by a path and
      query), and the body when there is one. */
  datatype Descriptor = Descriptor(verb: string, endpoint: string, target: string, json: Option<Value>)
  {
    /** The `uri` entry. */
    function Uri(): string
    {
      ApiEndpoint + target
    }
  }

  /** `(x ? [k] : [])`: the key when the parameter is given. */
  function IfGiven(given: bool, k: string): seq<string>
  {
    if given then [k] else []
  }

  /** The options array an operation builds, its keys in the order the array
      literal writes them; `json` is present only for operations that send a
      body. */
  function Options(d: Descriptor): (opts: PhpArray)
    ensures opts.Valid()
    ensures opts.keys == ["method", "headers", "endpoint", "uri"] + IfGiven(d.json.Some?, "json")
  {
    var m := map["method" := Str(d.verb), "headers" := Arr(DefaultHeaders()),
                 "endpoint" := Str(d.endpoint), "uri" := Str(d.Uri())];
    match d.json
    case None => PhpArray(["method", "headers", "endpoint", "uri"], m)
    case Some(body) => PhpArray(["method", "headers", "endpoint", "uri", "json"], m["json" := body])
  }

  /** `'?' . http_build_query(['language' => $code])` when a language is given. */
  function LanguageQuery(f: Foreign, languageIsoCode: Option<string>): (q: string)
    ensures languageIsoCode.None? <==> q == ""
  {
    match languageIsoCode
    case None => ""
    case Some(code) => "?" + f.buildQuery(Single("language", Str(code)))
  }

  /** The operations the client offers as static methods. */
  datatype PublicOperation =
    | GetTemplatesCategories(languageIsoCode: Option<string>)
    | GetTemplateRecommendedCustomColors(templateId: int)
    | GetTemplatePresets(templateId: int)
    | GetTemplateTheme(templateId: int)
    | GetTemplatePluggableScreens(templateId: int)
    | GetTemplateTransitions(templateId: int)
    | GetTemplateColorPresets(templateId: int)
    | GetAllTemplates
    | GetTemplate(templateId: int, languageIsoCode: Option<string>)
    | GetTrialProject(templateId: int)

  /** The unsigned request of each static operation. */
  function DescribePublic(op: PublicOperation, f: Foreign): (d: Descriptor)
    ensures d.verb == "GET" && d.json.None?
  {
    match op
    case GetTemplatesCategories(code) =>
      Descriptor("GET", TemplateCategoriesPath,
                 TemplateCategoriesPath + LanguageQuery(f, code), None)
    case GetTemplateRecommendedCustomColors(id) =>
      Descriptor("GET", RecommendedCustomColorsPath,
                 "/api/v1/templates/" + Stringify(Int(id)) + "/recommended-custom-colors", None)
    case GetTemplatePresets(id) =>
      Descriptor("GET", TemplatePresetsPath,
                 "/api/v1/templates/" + FormatD(Int(id)) + "/template-presets", None)
    case GetTemplateTheme(id) =>
      Descriptor("GET", TemplateThemePath,
                 "/api/v1/templates/" + Stringify(Int(id)) + "/theme", None)
    case GetTemplatePluggableScreens(id) =>
      Descriptor("GET", PluggableScreensPath,
                 "/api/v1/templates/" + FormatD(Int(id)) + "/pluggable-screens", None)
    case GetTemplateTransitions(id) =>
      Descriptor("GET", TemplateTransitionsPath,
                 "/api/v1/templates/" + Stringify(Int(id)) + "/transitions", None)
    case GetTemplateColorPresets(id) =>
      Descriptor("GET", ColorPresetsPath,
                 "/api/v1/templates/" + Stringify(Int(id)) + "/color-presets", None)
    case GetAllTemplates =>
      Descriptor("GET", TemplatesPathPrefix, TemplatesPath, None)
    case GetTemplate(id, code) =>
      Descriptor("GET", TemplatesPathPrefix,
                 TemplatesPath + "/" + Stringify(Int(id)) + LanguageQuery(f, code), None)
    case GetTrialProject(id) =>
      Descriptor("GET", TrialProjectPath,
                 TrialProjectPath + "?" + f.buildQuery(Single("templateId", Int(id))), None)
  }

  /** The operations the client offers as instance methods. */
  datatype AccountOperation =
    | UpdateProjectData(projectId: int, projectData: Value)
    | AddProject(templateId: int)
    | UpdateProject(projectId: int, customTitle: Option<string>)
    | DeleteSpecificProject(projectId: int)
    | DeleteSpecificProjectVideos(projectId: int, videoQuality: Option<int>)
    | ApplyTemplatePresetOnProject(projectId: int, templatePresetId: int)
    | DuplicateProject(projectId: int)
    | RenderProject(projectId: int, quality: int, watermarkImageUrl: Option<string>)
    | GetCurrentUser
    | GetTemplateAvailableFonts(templateId: int)
    | CreateSupportTicket(supportTicket: Value)
    | GetProjectData(projectId: int)
    | GetAllProjects(limit: Option<int>, offset: Option<int>, includeApiProjects: Option<bool>,
                     order: Option<string>, orderBy: Option<string>, search: Option<string>)
    | GetProject(projectId: int)

  /** `r` is `a` after `if (false === is_null($v)) { $a[k] = $v; }`. */
  ghost predicate GivenStep(a: PhpArray, r: PhpArray, k: string, v: Option<Value>)
  {
    && r.vals == (if v.Some? then a.vals[k := v.value] else a.vals)
    && (k !in a.vals ==> r.keys == a.keys + IfGiven(v.Some?, k))
  }

  /** `if (false === is_null($x)) { $a[k] = $x; }`: the array gains or
      updates `k` when the parameter is given and is left alone otherwise. */
  function PutGiven(a: PhpArray, k: string, v: Option<Value>): (r: PhpArray)
    ensures GivenStep(a, r, k, v)
    ensures v.None? ==> r == a
    ensures k in a.vals ==> r.keys == a.keys
    ensures a.Valid() ==> r.Valid()
  {
    if v.Some? then
      PutValid(a, k, v.value);
      Put(a, k, v.value)
    else
      assert a.keys + [] == a.keys;
      a
  }

  /** A given parameter is stored under its name, every other key is kept. */
  lemma PutGivenLookup(a: PhpArray, k: string, v: Option<Value>)
    ensures Lookup(PutGiven(a, k, v), k) == if v.Some? then v else Lookup(a, k)
    ensures forall j :: j != k ==> Lookup(PutGiven(a, k, v), j) == Lookup(a, j)
  {
  }

  function IntParam(x: Option<int>): (v: Option<Value>)
    ensures v.Some? == x.Some?
  {
    if x.Some? then Some(Int(x.value)) else None
  }

  function StrParam(x: Option<string>): (v: Option<Value>)
    ensures v.Some? == x.Some?
  {
    if x.Some? then Some(Str(x.value)) else None
  }

  /** `$includeApiProjects ? 'true' : 'false'`. */
  function FlagParam(x: Option<bool>): (v: Option<Value>)
    ensures v.Some? == x.Some?
    ensures x.Some? ==> v == Some(Str(if x.value then "true" else "false"))
  {
    if x.Some? then Some(Str(if x.value then "true" else "false")) else None
  }

  /** `$updateParams` of `updateProject`: `customTitle` only when given. */
  function UpdateProjectParams(customTitle: Option<string>): (params: PhpArray)
    ensures params.Valid()
    ensures params.keys == IfGiven(customTitle.Some?, "customTitle")
    ensures Lookup(params, "customTitle") == StrParam(customTitle)
  {
    PutGiven(EmptyArray, "customTitle", StrParam(customTitle))
  }

  /** `$postData` of `renderProject`: `quality`, then `watermark` only when given. */
  function RenderPostData(quality: int, watermarkImageUrl: Option<string>): (post: PhpArray)
    ensures post.Valid()
    ensures post.keys == ["quality"] + IfGiven(watermarkImageUrl.Some?, "watermark")
    ensures Lookup(post, "quality") == Some(Int(quality))
    ensures Lookup(post, "watermark") == StrParam(watermarkImageUrl)
  {
    PutGiven(Single("quality", Int(quality)), "watermark", StrParam(watermarkImageUrl))
  }

  /** `$queryParams` of `getAllProjects`: the given parameters only, the flag
      as the word 'true' or 'false'. */
  function ProjectListQuery(limit: Option<int>, offset: Option<int>, includeApiProjects: Option<bool>,
                            order: Option<string>, orderBy: Option<string>, search: Option<string>)
    : PhpArray
  {
    var q1 := PutGiven(EmptyArray, "limit", IntParam(limit));
    var q2 := PutGiven(q1, "offset", IntParam(offset));
    var q3 := PutGiven(q2, "includeApiProjects", FlagParam(includeApiProjects));
    var q4 := PutGiven(q3, "order", StrParam(order));
    var q5 := PutGiven(q4, "orderBy", StrParam(orderBy));
    PutGiven(q5, "search", StrParam(search))
  }

  /** Six conditional assignments under six different names: each name ends
      up holding its own parameter when given, and nothing otherwise. */
  lemma ProjectListChain(q1: PhpArray, q2: PhpArray, q3: PhpArray, q4: PhpArray, q5: PhpArray,
                         q6: PhpArray, v1: Option<Value>, v2: Option<Value>, v3: Option<Value>,
                         v4: Option<Value>, v5: Option<Value>, v6: Option<Value>)
    requires GivenStep(EmptyArray, q1, "limit", v1) && GivenStep(q1, q2, "offset", v2)
    requires GivenStep(q2, q3, "includeApiProjects", v3) && GivenStep(q3, q4, "order", v4)
    requires GivenStep(q4, q5, "orderBy", v5) && GivenStep(q5, q6, "search", v6)
    ensures Lookup(q6, "limit") == v1 && Lookup(q6, "offset") == v2
    ensures Lookup(q6, "includeApiProjects") == v3 && Lookup(q6, "order") == v4
    ensures Lookup(q6, "orderBy") == v5 && Lookup(q6, "search") == v6
  {
  }

  /** The same six assignments append the given names, in assignment order. */
  lemma ProjectListChainKeys(q1: PhpArray, q2: PhpArray, q3: PhpArray, q4: PhpArray, q5: PhpArray,
                             q6: PhpArray, v1: Option<Value>, v2: Option<Value>, v3: Option<Value>,
                             v4: Option<Value>, v5: Option<Value>, v6: Option<Value>)
    requires GivenStep(EmptyArray, q1, "limit", v1) && GivenStep(q1, q2, "offset", v2)
    requires GivenStep(q2, q3, "includeApiProjects", v3) && GivenStep(q3, q4, "order", v4)
    requires GivenStep(q4, q5, "orderBy", v5) && GivenStep(q5, q6, "search", v6)
    ensures q6.keys == IfGiven(v1.Some?, "limit") + IfGiven(v2.Some?, "offset")
      + IfGiven(v3.Some?, "includeApiProjects") + IfGiven(v4.Some?, "order")
      + IfGiven(v5.Some?, "orderBy") + IfGiven(v6.Some?, "search")
  {
    assert "offset" !in q1.vals;
    assert "includeApiProjects" !in q2.vals;
    assert "order" !in q3.vals;
    assert "orderBy" !in q4.vals;
    assert "search" !in q5.vals;
    assert [] + IfGiven(v1.Some?, "limit") == IfGiven(v1.Some?, "limit");
  }

  /** Each parameter is stored under its own name exactly when it is given,
      the flag as the word 'true' or 'false'. */
  lemma ProjectListEntries(limit: Option<int>, offset: Option<int>, includeApiProjects: Option<bool>,
                           order: Option<string>, orderBy: Option<string>, search: Option<string>)
    ensures var q := ProjectListQuery(limit, offset, includeApiProjects, order, orderBy, search);
      && Lookup(q, "limit") == IntParam(limit)
      && Lookup(q, "offset") == IntParam(offset)
      && Lookup(q, "includeApiProjects") == FlagParam(includeApiProjects)
      && Lookup(q, "order") == StrParam(order)
      && Lookup(q, "orderBy") == StrParam(orderBy)
      && Lookup(q, "search") == StrParam(search)
  {
    var q1 := PutGiven(EmptyArray, "limit", IntParam(limit));
    var q2 := PutGiven(q1, "offset", IntParam(offset));
    var q3 := PutGiven(q2, "includeApiProjects", FlagParam(includeApiProjects));
    var q4 := PutGiven(q3, "order", StrParam(order));
    var q5 := PutGiven(q4, "orderBy", StrParam(orderBy));
    ProjectListChain(q1, q2, q3, q4, q5, PutGiven(q5, "search", StrParam(search)),
                     IntParam(limit), IntParam(offset), FlagParam(includeApiProjects),
                     StrParam(order), StrParam(orderBy), StrParam(search));
  }

  /** The query lists the given parameters, each once, in the order
      limit, offset, includeApiProjects, order, orderBy, search. */
  lemma ProjectListLayout(limit: Option<int>, offset: Option<int>, includeApiProjects: Option<bool>,
                          order: Option<string>, orderBy: Option<string>, search: Option<string>)
    ensures var q := ProjectListQuery(limit, offset, includeApiProjects, order, orderBy, search);
      && q.Valid()
      && q.keys == IfGiven(limit.Some?, "limit") + IfGiven(offset.Some?, "offset")
        + IfGiven(includeApiProjects.Some?, "includeApiProjects") + IfGiven(order.Some?, "order")
        + IfGiven(orderBy.Some?, "orderBy") + IfGiven(search.Some?, "search")
  {
    var q1 := PutGiven(EmptyArray, "limit", IntParam(limit));
    var q2 := PutGiven(q1, "offset", IntParam(offset));
    var q3 := PutGiven(q2, "includeApiProjects", FlagParam(includeApiProjects));
    var q4 := PutGiven(q3, "order", StrParam(order));
    var q5 := PutGiven(q4, "orderBy", StrParam(orderBy));
    ProjectListChainKeys(q1, q2, q3, q4, q5, PutGiven(q5, "search", StrParam(search)),
                         IntParam(limit), IntParam(offset), FlagParam(includeApiProjects),
                         StrParam(order), StrParam(orderBy), StrParam(search));
  }

  /** With no filter at all the URI still ends in `?` followed by the query
      of the empty array. */
  lemma UnfilteredProjectListUri(f: Foreign)
    ensures DescribeAccount(GetAllProjects(None, None, None, None, None, None), f).Uri()
      == ApiEndpoint + ProjectsPath + "?" + f.buildQuery(EmptyArray)
  {
    var q1 := PutGiven(EmptyArray, "limit", None);
    var q2 := PutGiven(q1, "offset", None);
    var q3 := PutGiven(q2, "includeApiProjects", None);
    var q4 := PutGiven(q3, "order", None);
    var q5 := PutGiven(q4, "orderBy", None);
    assert ProjectListQuery(None, None, None, None, None, None) == EmptyArray;
  }

  /** The URI path of `deleteSpecificProjectVideos` as the source computes it:
      a missing quality is replaced by '' and then formatted with `%d`. */
  function DeleteVideosPathAsWritten(projectId: int, quality: Option<int>): (path: string)
    ensures path == "/api/v1/projects/" + IntToString(projectId) + "/videos/"
                    + IntToString(if quality.Some? then quality.value else 0)
  {
    var q := if quality.None? then Str("") else Int(quality.value);
    "/api/v1/projects/" + FormatD(Int(projectId)) + "/videos/" + FormatD(q)
  }

  /** The path the '' substitution evidently aims at: an empty quality
      segment when no quality is given. */
  function DeleteVideosPath(projectId: int, quality: Option<int>): (path: string)
    ensures path == "/api/v1/projects/" + IntToString(projectId) + "/videos/"
                    + (if quality.Some? then IntToString(quality.value) else "")
  {
    var q := if quality.None? then "" else FormatD(Int(quality.value));
    "/api/v1/projects/" + FormatD(Int(projectId)) + "/videos/" + q
  }

  /** As written, "no quality" cannot be told from quality 0: `%d` turns ''
      into 0. */
  lemma DeleteVideosNullIsZero(projectId: int)
    ensures DeleteVideosPathAsWritten(projectId, None) == DeleteVideosPathAsWritten(projectId, Some(0))
    ensures DeleteVideosPathAsWritten(projectId, None)
      == "/api/v1/projects/" + IntToString(projectId) + "/videos/0"
  {
    assert StringToInt("") == 0;
  }

  /** The corrected path names the quality unambiguously: two requests for
      the same project have the same path exactly when they ask for the same
      quality, and it agrees with the code whenever a quality is given. */
  lemma DeleteVideosPathDistinguishes(projectId: int, q1: Option<int>, q2: Option<int>)
    ensures DeleteVideosPath(projectId, q1) == DeleteVideosPath(projectId, q2) <==> q1 == q2
    ensures q1.Some? ==> DeleteVideosPath(projectId, q1) == DeleteVideosPathAsWritten(projectId, q1)
  {
    var pre := "/api/v1/projects/" + FormatD(Int(projectId)) + "/videos/";
    var s1 := if q1.None? then "" else FormatD(Int(q1.value));
    var s2 := if q2.None? then "" else FormatD(Int(q2.value));
    assert DeleteVideosPath(projectId, q1) == pre + s1;
    assert DeleteVideosPath(projectId, q2) == pre + s2;
    assert q1.Some? ==> |s1| >= 1;
    assert q2.Some? ==> |s2| >= 1;
    if pre + s1 == pre + s2 {
      assert s1 == (pre + s1)[|pre|..];
      assert s2 == (pre + s2)[|pre|..];
      if q1.Some? && q2.Some? {
        IntToStringInjective(q1.value, q2.value);
      }
    }
  }

  /** The unsigned request of each instance operation. */
  function DescribeAccount(op: AccountOperation, f: Foreign): (d: Descriptor)
    ensures d.verb in {"GET", "POST", "PATCH", "DELETE"}
    ensures d.verb in {"GET", "DELETE"} ==> d.json.None?
  {
    match op
    case UpdateProjectData(id, data) =>
      Descriptor("PATCH", ProjectDataPath, ProjectDataPath + "/" + Stringify(Int(id)),
                 Some(Arr(Single("data", data))))
    case AddProject(templateId) =>
      Descriptor("POST", ProjectsPath, ProjectsPath,
                 Some(Arr(Single("templateId", Int(templateId)))))
    case UpdateProject(id, title) =>
      Descriptor("PATCH", ProjectsPath, ProjectsPath + "/" + Stringify(Int(id)),
                 Some(Arr(UpdateProjectParams(title))))
    case DeleteSpecificProject(id) =>
      Descriptor("DELETE", ProjectsPath, ProjectsPath + "/" + Stringify(Int(id)), None)
    case DeleteSpecificProjectVideos(id, quality) =>
      Descriptor("DELETE", DeleteProjectVideosPath, DeleteVideosPathAsWritten(id, quality), None)
    case ApplyTemplatePresetOnProject(id, presetId) =>
      Descriptor("POST", ApplyTemplatePresetPath,
                 "/api/v1/projects/" + FormatD(Int(id)) + "/apply-template-preset",
                 Some(Arr(Single("presetId", Int(presetId)))))
    case DuplicateProject(id) =>
      Descriptor("POST", DuplicateProjectPath,
                 "/api/v1/projects/" + FormatD(Int(id)) + "/duplicate", None)
    case RenderProject(id, quality, watermark) =>
      Descriptor("POST", RenderProjectPath,
                 "/api/v1/projects/" + FormatD(Int(id)) + "/render",
                 Some(Arr(RenderPostData(quality, watermark))))
    case GetCurrentUser =>
      Descriptor("GET", CurrentUserPath, CurrentUserPath, None)
    case GetTemplateAvailableFonts(templateId) =>
      Descriptor("GET", FontsPath,
                 FontsPath + "?" + f.buildQuery(Single("templateId", Int(templateId))), None)
    case CreateSupportTicket(ticket) =>
      Descriptor("POST", SupportPath, SupportPath, Some(ticket))
    case GetProjectData(id) =>
      Descriptor("GET", ProjectDataPath + "/" + Stringify(Int(id)),
                 ProjectDataPath + "/" + Stringify(Int(id)), None)
    case GetAllProjects(limit, offset, inc, order, orderBy, search) =>
      Descriptor("GET", ProjectsPath,
                 ProjectsPath + "?"
                   + f.buildQuery(ProjectListQuery(limit, offset, inc, order, orderBy, search)), None)
    case GetProject(id) =>
      Descriptor("GET", ProjectsPath + "/" + Stringify(Int(id)),
                 ProjectsPath + "/" + Stringify(Int(id)), None)
  }

  /** As written, `deleteSpecificProjectVideos($id)` sends exactly the
      request `deleteSpecificProjectVideos($id, 0)` sends, to `/videos/0`. */
  lemma DeleteVideosRequest(projectId: int, f: Foreign)
    ensures DescribeAccount(DeleteSpecificProjectVideos(projectId, None), f)
         == DescribeAccount(DeleteSpecificProjectVideos(projectId, Some(0)), f)
    ensures DescribeAccount(DeleteSpecificProjectVideos(projectId, None), f).Uri()
         == ApiEndpoint + "/api/v1/projects/" + IntToString(projectId) + "/videos/0"
  {
    DeleteVideosNullIsZero(projectId);
  }

  /** The `path` entry of the hash input (src/ApiClient.php:1163, 1167): a
      truthy query is appended to the path after a `?`, and a falsy result
      becomes "". */
  function SignedPath(parsed: Option<UrlParts>): (path: string)
    ensures path != "0"
    ensures TruthyString(QueryOf(parsed)) ==>
      |QueryOf(parsed)| < |path| && path[|path| - |QueryOf(parsed)| - 1..] == "?" + QueryOf(parsed)
  {
    var query := QueryOf(parsed);
    var path := if TruthyString(query) then Str(Stringify(PathOf(parsed)) + "?" + query)
                else PathOf(parsed);
    Stringify(OrElse(path, Str("")))
  }

  /** The `qs` entry of the hash input (src/ApiClient.php:1168). */
  function SignedQuery(parsed: Option<UrlParts>): (qs: string)
    ensures qs == "" || (TruthyString(qs) && qs == QueryOf(parsed))
  {
    Stringify(OrElse(Str(QueryOf(parsed)), Str("")))
  }

  /** With a truthy query `q`, the query is signed twice: once after the
      path and once as the query string. */
  lemma QueryIsSignedTwice(parsed: Option<UrlParts>, p: string, q: string)
    requires parsed == Some(UrlParts(Some(p), Some(q)))
    requires TruthyString(q)
    ensures SignedPath(parsed) + SignedQuery(parsed) == p + "?" + q + q
  {
  }

  /** Without a truthy query the path is signed alone and the query string is
      empty; a falsy path ("" or "0") is signed as "". */
  lemma FalsyQueryIsNotSigned(parsed: Option<UrlParts>)
    requires !TruthyString(QueryOf(parsed))
    ensures SignedQuery(parsed) == ""
    ensures SignedPath(parsed) == if Truthy(PathOf(parsed)) then Stringify(PathOf(parsed)) else ""
  {
  }

  /** The flags `setAuthorization` encodes the body with:
      JSON_UNESCAPED_SLASHES | JSON_UNESCAPED_UNICODE (two distinct bits). */
  const SigningJsonFlags: int := JSON_UNESCAPED_SLASHES + JSON_UNESCAPED_UNICODE

  /** The entries of every options array. */
  lemma OptionsEntries(d: Descriptor)
    ensures Lookup(Options(d), "method") == Some(Str(d.verb))
    ensures Lookup(Options(d), "headers") == Some(Arr(DefaultHeaders()))
    ensures Lookup(Options(d), "endpoint") == Some(Str(d.endpoint))
    ensures Lookup(Options(d), "uri") == Some(Str(d.Uri()))
    ensures Lookup(Options(d), "json") == d.json
  {
  }

  /** The headers every options array starts from. */
  lemma DescriptorHeaders(d: Descriptor)
    ensures HeadersOf(Options(d)) == DefaultHeaders()
  {
    OptionsEntries(d);
  }

  /** The default headers are none of the four a signer adds. */
  lemma DefaultHeadersUnsigned()
    ensures !IsAuthHeader("Accept") && !IsAuthHeader("User-Agent")
    ensures "nonce" !in DefaultHeaders().keys && "clientid" !in DefaultHeaders().keys
    ensures "timestamp" !in DefaultHeaders().keys && "authorization" !in DefaultHeaders().keys
  {
  }

  /** The order of the headers a signed request sends. */
  lemma SignedHeaderOrder()
    ensures DefaultHeaders().keys + AuthHeaderNames ==
      ["Accept", "User-Agent", "nonce", "clientid", "timestamp", "authorization"]
  {
  }

  /** The body segment a descriptor's options sign: "{}" without a body
      and, since `isset` treats a null as unset, for a null body too;
      otherwise the encoding of the body, even of an empty array. */
  lemma DescriptorBody(d: Descriptor, f: Foreign)
    ensures var body := SignedBody(f, Options(d), "json", SigningJsonFlags);
      && (d.json.None? || d.json == Some(Null) ==> body == Str("{}"))
      && (d.json.Some? && d.json.value != Null ==>
            body == match f.jsonEncode(d.json.value, SigningJsonFlags)
                    case Some(text) => Str(text)
                    case None => Bool(false))
  {
    OptionsEntries(d);
  }

  /** `updateProject` without a title sends `json => []`, which is signed as
      the encoding of the empty array rather than as "{}". */
  lemma UntitledUpdateSignsEmptyArray(projectId: int, f: Foreign)
    ensures var d := DescribeAccount(UpdateProject(projectId, None), f);
      && d.json == Some(Arr(EmptyArray))
      && SignedBody(f, Options(d), "json", SigningJsonFlags) ==
           match f.jsonEncode(Arr(EmptyArray), SigningJsonFlags)
           case Some(text) => Str(text)
           case None => Bool(false)
  {
    var d := DescribeAccount(UpdateProject(projectId, None), f);
    assert UpdateProjectParams(None) == EmptyArray;
    DescriptorBody(d, f);
  }

  class ApiClient {
    const apiKey: string
    const clientId: string

    constructor (apiKey: string, clientId: string)
      ensures this.apiKey == apiKey && this.clientId == clientId
    {
      this.apiKey := apiKey;
      this.clientId := clientId;
    }

    /** The string the `authorization` header is the HMAC of, for options
        `opts` signed with the readings `clock`: client id, path, query
        string, body, nonce and timestamp, with no separator. */
    function SigningSource(f: Foreign, opts: PhpArray, clock: Clock): string
    {
      var parsed := f.parseUrl(UriOf(opts));
      clientId + SignedPath(parsed) + SignedQuery(parsed)
        + Stringify(SignedBody(f, opts, "json", SigningJsonFlags))
        + GenerateNonce(clock.nonceMillis, clock.rand) + TimestampString(clock.stampMillis)
    }

    /** The hash input `setAuthorization` assembles, the nonce and timestamp
        read back from the stamped headers. */
    function SigningInput(f: Foreign, opts: PhpArray, stamped: PhpArray): HashInput
    {
      var parsed := f.parseUrl(UriOf(opts));
      HashInput(Str(clientId), Str(SignedPath(parsed)), Str(SignedQuery(parsed)),
                SignedBody(f, opts, "json", SigningJsonFlags),
                Get(stamped, "nonce"), Get(stamped, "timestamp"))
    }

    /** The headers after the nonce, client id and timestamp assignments. */
    function Stamped(opts: PhpArray, clock: Clock): (h: PhpArray)
      ensures Lookup(h, "nonce") == Some(Str(GenerateNonce(clock.nonceMillis, clock.rand)))
      ensures Lookup(h, "clientid") == Some(Str(clientId))
      ensures Lookup(h, "timestamp") == Some(Float(clock.stampMillis))
      ensures forall k :: !IsAuthHeader(k) ==> Lookup(h, k) == Lookup(HeadersOf(opts), k)
    {
      StampHeaders(HeadersOf(opts), Str(GenerateNonce(clock.nonceMillis, clock.rand)),
                   Str(clientId), Float(clock.stampMillis))
    }

    /** The nonce and timestamp the hash receives are the ones stored in the
        headers, so the signed source is the client's signing source. */
    lemma SigningInputSource(f: Foreign, opts: PhpArray, clock: Clock)
      ensures HashSource(SigningInput(f, opts, Stamped(opts, clock))) == SigningSource(f, opts, clock)
    {
      var h := Stamped(opts, clock);
      assert Get(h, "nonce") == Str(GenerateNonce(clock.nonceMillis, clock.rand));
      assert Get(h, "timestamp") == Float(clock.stampMillis);
    }

    /** The `authorization` header `setAuthorization` computes for `opts`. */
    function AuthorizationOf(f: Foreign, opts: PhpArray, clock: Clock): string
    {
      GenerateHash(f, SigningInput(f, opts, Stamped(opts, clock)), apiKey)
    }

    /** `setAuthorization($options)`: the headers gain an `authorization`
        that is the HMAC, under the API key, of the signing source. */
    function SetAuthorization(options: Value, f: Foreign, clock: Clock): (opts: PhpArray)
      requires SignableOptions(options)
      ensures Lookup(opts, "headers") == Some(Arr(SentHeaders(opts)))
      ensures Lookup(SentHeaders(opts), "authorization") ==
        Some(Str(f.hmacSha512(SigningSource(f, ArrayOrEmpty(options), clock), apiKey)))
    {
      var opts := ArrayOrEmpty(options);
      var stamped := Stamped(opts, clock);
      SigningInputSource(f, opts, clock);
      SignedHeaders(opts, HeadersOf(opts), Str(GenerateNonce(clock.nonceMillis, clock.rand)),
                    Str(clientId), Float(clock.stampMillis), Str(AuthorizationOf(f, opts, clock)));
      Authorize(opts, stamped, Str(AuthorizationOf(f, opts, clock)))
    }

    /** Signing changes only `headers`; every header other than the four it
        sets keeps its value, and the first three hold the nonce, the client
        id and the timestamp. */
    lemma SetAuthorizationHeaders(options: Value, f: Foreign, clock: Clock)
      requires SignableOptions(options)
      ensures var opts := SetAuthorization(options, f, clock);
        && (forall k :: k != "headers" ==> Lookup(opts, k) == Lookup(ArrayOrEmpty(options), k))
        && (forall k :: !IsAuthHeader(k) ==>
              Lookup(SentHeaders(opts), k) == Lookup(HeadersOf(ArrayOrEmpty(options)), k))
        && Lookup(SentHeaders(opts), "nonce") ==
             Some(Str(GenerateNonce(clock.nonceMillis, clock.rand)))
        && Lookup(SentHeaders(opts), "clientid") == Some(Str(clientId))
        && Lookup(SentHeaders(opts), "timestamp") == Some(Float(clock.stampMillis))
    {
      var opts := ArrayOrEmpty(options);
      SignedHeaders(opts, HeadersOf(opts), Str(GenerateNonce(clock.nonceMillis, clock.rand)),
                    Str(clientId), Float(clock.stampMillis), Str(AuthorizationOf(f, opts, clock)));
    }

    /** On a proper options array whose headers carry none of the four, the
        options keep their keys (`headers` appended if it was missing) and the
        headers gain exactly the four, after the existing ones. */
    lemma SetAuthorizationKeys(options: Value, f: Foreign, clock: Clock)
      requires SignableOptions(options)
      requires ArrayOrEmpty(options).Valid() && HeadersOf(ArrayOrEmpty(options)).Valid()
      requires "nonce" !in HeadersOf(ArrayOrEmpty(options)).keys
      requires "clientid" !in HeadersOf(ArrayOrEmpty(options)).keys
      requires "timestamp" !in HeadersOf(ArrayOrEmpty(options)).keys
      requires "authorization" !in HeadersOf(ArrayOrEmpty(options)).keys
      ensures var opts := SetAuthorization(options, f, clock);
        && opts.Valid()
        && opts.keys == (if "headers" in ArrayOrEmpty(options).keys then ArrayOrEmpty(options).keys
                         else ArrayOrEmpty(options).keys + ["headers"])
        && SentHeaders(opts).Valid()
        && SentHeaders(opts).keys == HeadersOf(ArrayOrEmpty(options)).keys + AuthHeaderNames
    {
      var opts := ArrayOrEmpty(options);
      var h0 := HeadersOf(opts);
      SignedKeys(opts, h0, Str(GenerateNonce(clock.nonceMillis, clock.rand)),
                 Str(clientId), Float(clock.stampMillis), Str(AuthorizationOf(f, opts, clock)));
    }

    /** Signing the options of any descriptor keeps its method, endpoint, URI
        and body. */
    lemma SignedDescriptorEntries(d: Descriptor, f: Foreign, clock: Clock)
      ensures SignableOptions(Arr(Options(d)))
      ensures var sent := SetAuthorization(Arr(Options(d)), f, clock);
        && Lookup(sent, "method") == Some(Str(d.verb))
        && Lookup(sent, "endpoint") == Some(Str(d.endpoint))
        && Lookup(sent, "uri") == Some(Str(d.Uri()))
        && Lookup(sent, "json") == d.json
    {
      OptionsEntries(d);
      SetAuthorizationHeaders(Arr(Options(d)), f, clock);
    }

    /** A signed descriptor carries the two default headers and the nonce,
        client id and timestamp of the clock readings. */
    lemma SignedDescriptorHeaders(d: Descriptor, f: Foreign, clock: Clock)
      ensures SignableOptions(Arr(Options(d)))
      ensures var headers := SentHeaders(SetAuthorization(Arr(Options(d)), f, clock));
        && Lookup(headers, "Accept") == Some(Str("application/json"))
        && Lookup(headers, "User-Agent") == Some(Str(UserAgent))
        && Lookup(headers, "nonce") == Some(Str(GenerateNonce(clock.nonceMillis, clock.rand)))
        && Lookup(headers, "clientid") == Some(Str(clientId))
        && Lookup(headers, "timestamp") == Some(Float(clock.stampMillis))
    {
      DefaultHeadersUnsigned();
      OptionsEntries(d);
      DescriptorHeaders(d);
      SetAuthorizationHeaders(Arr(Options(d)), f, clock);
    }

    /** The `authorization` of a signed descriptor is the HMAC of the signing
        source of its own options. */
    lemma SignedDescriptorAuthorization(d: Descriptor, f: Foreign, clock: Clock)
      ensures SignableOptions(Arr(Options(d)))
      ensures Lookup(SentHeaders(SetAuthorization(Arr(Options(d)), f, clock)), "authorization") ==
        Some(Str(f.hmacSha512(SigningSource(f, Options(d), clock), apiKey)))
    {
      OptionsEntries(d);
    }

    /** The headers of a signed descriptor are the two default headers followed
        by the four signing headers, each once. */
    lemma SignedDescriptorKeys(d: Descriptor, f: Foreign, clock: Clock)
      ensures SignableOptions(Arr(Options(d)))
      ensures var headers := SentHeaders(SetAuthorization(Arr(Options(d)), f, clock));
        && headers.Valid()
        && headers.keys == DefaultHeaders().keys + AuthHeaderNames
    {
      DefaultHeadersUnsigned();
      OptionsEntries(d);
      DescriptorHeaders(d);
      SetAuthorizationKeys(Arr(Options(d)), f, clock);
    }

    /** The options an instance operation hands to Guzzle: its descriptor's
        options, signed. */
    function AccountRequest(op: AccountOperation, f: Foreign, clock: Clock): (sent: PhpArray)
      ensures Lookup(sent, "headers") == Some(Arr(SentHeaders(sent)))
    {
      OptionsEntries(DescribeAccount(op, f));
      SetAuthorization(Arr(Options(DescribeAccount(op, f))), f, clock)
    }

    /** Every instance operation sends its descriptor's options signed: the
        client id of the constructor and the HMAC, under the API key, of the
        signing source of those options. */
    lemma AccountRequestSigned(op: AccountOperation, f: Foreign, clock: Clock)
      ensures var headers := SentHeaders(AccountRequest(op, f, clock));
        && Lookup(headers, "clientid") == Some(Str(clientId))
        && Lookup(headers, "authorization") ==
             Some(Str(f.hmacSha512(SigningSource(f, Options(DescribeAccount(op, f)), clock), apiKey)))
    {
      SignedDescriptorHeaders(DescribeAccount(op, f), f, clock);
      SignedDescriptorAuthorization(DescribeAccount(op, f), f, clock);
    }

    /** The options a static operation hands to Guzzle: never signed. */
    static function PublicRequest(op: PublicOperation, f: Foreign): (sent: PhpArray)
      ensures sent.Valid() && "headers" in sent.keys
      ensures Lookup(sent, "headers") == Some(Arr(DefaultHeaders()))
    {
      OptionsEntries(DescribePublic(op, f));
      Options(DescribePublic(op, f))
    }

    /** A static operation sends exactly the two default headers, none of the
        four signing headers: no credential leaves the client. */
    static lemma PublicRequestUnsigned(op: PublicOperation, f: Foreign)
      ensures var sent := PublicRequest(op, f);
        && Lookup(sent, "method") == Some(Str("GET"))
        && Lookup(sent, "json").None?
        && Lookup(sent, "headers") == Some(Arr(DefaultHeaders()))
        && DefaultHeaders().keys == ["Accept", "User-Agent"]
        && (forall k :: IsAuthHeader(k) ==> Lookup(DefaultHeaders(), k).None?)
    {
      OptionsEntries(DescribePublic(op, f));
    }
  }
}

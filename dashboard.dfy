/**
 * The dashboard's orchestration state: a bounded execution log, the one
 * current task record, and the handlers that start a pipeline run, generate
 * content, publish it and clear the log.
 */
module Dashboard {
  import opened Wrappers
  import Config
  import Http
  import WpPublisher
  import AiEngine

  /** Capacity of the execution log. */
  const MaxLogs := 100
  /** Number of log entries the status view shows. */
  const StatusLogCount := 20

  datatype LogEntry = LogEntry(timestamp: string, level: string, message: string)

  /** The last `n` elements of `s` (all of `s` when it is shorter): Python's `s[-n:]`. */
  function Last<T>(s: seq<T>, n: nat): (r: seq<T>)
    ensures |r| == if |s| <= n then |s| else n
    ensures r == s[|s| - |r|..]
  {
    if |s| <= n then s else s[|s| - n..]
  }

  /** Appending to a buffer cut to its last `n` and cutting again keeps the last `n` of everything. */
  lemma LastOfLastAppend<T>(s: seq<T>, t: seq<T>, n: nat)
    ensures Last(Last(s, n) + t, n) == Last(s + t, n)
  {
    if |s| > n {
      var st, u := s + t, Last(s, n) + t;
      assert u == st[|s| - n..];
      assert |u| == n + |t|;
      if |t| > 0 {
        assert Last(u, n) == u[|t|..];
        assert u[|t|..] == st[|s| - n + |t|..];
        assert Last(st, n) == st[|st| - n..];
      }
    }
  }

  /** Keeping the last `m` of the last `n`, for `m <= n`, keeps the last `m`. */
  lemma LastOfLast<T>(s: seq<T>, m: nat, n: nat)
    requires m <= n
    ensures Last(Last(s, n), m) == Last(s, m)
  {
  }

  /** `add_log` on the list: append, then drop the oldest entry if the list is over capacity. */
  function PushBounded(logs: seq<LogEntry>, e: LogEntry): (r: seq<LogEntry>)
    requires |logs| <= MaxLogs
    ensures |r| <= MaxLogs
    ensures |r| == if |logs| < MaxLogs then |logs| + 1 else MaxLogs
    ensures r[|r| - 1] == e
    ensures |logs| < MaxLogs ==> r[..|logs|] == logs
    ensures |logs| == MaxLogs ==> r[..|r| - 1] == logs[1..]
  {
    var appended := logs + [e];
    if |appended| > MaxLogs then appended[1..] else appended
  }

  /** The log after `add_log` of each entry of `es` in turn. */
  function PushAll(logs: seq<LogEntry>, es: seq<LogEntry>): seq<LogEntry>
    requires |logs| <= MaxLogs
    decreases |es|
  {
    if es == [] then logs else PushAll(PushBounded(logs, es[0]), es[1..])
  }

  /** One `add_log` keeps the newest 100 of the old buffer and the new entry. */
  lemma PushBoundedIsLast(logs: seq<LogEntry>, e: LogEntry)
    requires |logs| <= MaxLogs
    ensures PushBounded(logs, e) == Last(logs + [e], MaxLogs)
  {
  }

  /** However many entries are logged, the buffer holds exactly the newest 100 of all of them, in order. */
  lemma {:induction false} PushAllKeepsNewest(logs: seq<LogEntry>, es: seq<LogEntry>)
    requires |logs| <= MaxLogs
    ensures PushAll(logs, es) == Last(logs + es, MaxLogs)
    decreases |es|
  {
    if es == [] {
      assert logs + es == logs;
    } else {
      var next := PushBounded(logs, es[0]);
      calc {
        PushAll(logs, es);
        PushAll(next, es[1..]);
        { PushAllKeepsNewest(next, es[1..]); }
        Last(next + es[1..], MaxLogs);
        { PushBoundedIsLast(logs, es[0]); }
        Last(Last(logs + [es[0]], MaxLogs) + es[1..], MaxLogs);
        { LastOfLastAppend(logs + [es[0]], es[1..], MaxLogs); }
        Last(logs + [es[0]] + es[1..], MaxLogs);
        { assert logs + [es[0]] + es[1..] == logs + es; }
        Last(logs + es, MaxLogs);
      }
    }
  }

  /** The status view of a log that started empty shows the 20 newest entries ever logged. */
  lemma StatusShowsNewestLogged(es: seq<LogEntry>)
    ensures Last(PushAll([], es), StatusLogCount) == Last(es, StatusLogCount)
  {
    PushAllKeepsNewest([], es);
    assert [] + es == es;
    LastOfLast(es, StatusLogCount, MaxLogs);
  }

  datatype TaskStatus = Running | Completed | Failed
  datatype TaskType = Demo | Production

  /** What the pipeline returns; the pipeline itself is not part of this model. */
  datatype PipelineResults = PipelineResults(summary: string)

  /** The outcome of the pipeline call: its results, or the message of the exception it raised. */
  datatype PipelineOutcome = Returned(results: PipelineResults) | Raised(error: string)

  /** The `current_task` dictionary. */
  datatype TaskRecord = TaskRecord(
    id: string,
    status: TaskStatus,
    startedAt: string,
    kind: TaskType,
    results: Option<PipelineResults>,
    completedAt: Option<string>,
    error: Option<string>)

  /** A running task has no outcome yet; a completed one has results and an end time; a failed one an error. */
  predicate WellFormedTask(t: TaskRecord) {
    match t.status
    case Running => t.results.None? && t.completedAt.None? && t.error.None?
    case Completed => t.results.Some? && t.completedAt.Some? && t.error.None?
    case Failed => t.error.Some? && t.results.None? && t.completedAt.None?
  }

  /** `current_task and current_task.get('status') == 'running'`. */
  predicate IsBusy(task: Option<TaskRecord>) {
    task.Some? && task.value.status == Running
  }

  /** An email as a dictionary of its fields. */
  type Email = map<string, string>

  /** The JSON body of a run request; a missing field is `None`. */
  datatype RunRequest = RunRequest(demo: Option<bool>, email: Option<Email>)

  /** What the background run captures from its request. */
  datatype Job = Job(customEmail: Option<Email>, useDemo: bool)

  /** The answer to an accepted run request. */
  datatype RunStarted = RunStarted(message: string, taskId: string)

  /** `data.get('demo', True)`. */
  function UseDemo(r: RunRequest): bool {
    r.demo.GetOr(true)
  }

  /** True for a custom email Python treats as true: present and non-empty. */
  predicate HasCustomEmail(job: Job) {
    job.customEmail.Some? && job.customEmail.value != map[]
  }

  /** Which pipeline a run executes. */
  datatype Branch = CustomEmailRun(email: Email) | DemoRun | InboxRun

  /** A custom email wins over the demo flag, and the demo flag over reading the inbox. */
  function SelectBranch(job: Job): (b: Branch)
    ensures b.CustomEmailRun? <==> HasCustomEmail(job)
    ensures b.CustomEmailRun? ==> Some(b.email) == job.customEmail
    ensures b.DemoRun? <==> !HasCustomEmail(job) && job.useDemo
    ensures b.InboxRun? <==> !HasCustomEmail(job) && !job.useDemo
  {
    if HasCustomEmail(job) then CustomEmailRun(job.customEmail.value)
    else if job.useDemo then DemoRun
    else InboxRun
  }

  const StartMessage := "\U{1F680} Starting content automation pipeline..."
  const CompletedMessage := "✅ Pipeline completed successfully!"
  const BusyError := "A task is already running"
  const ClearedMessage := "\U{1F9F9} Logs cleared"

  /** The log message that announces a branch. */
  function BranchMessage(b: Branch): string {
    match b
    case CustomEmailRun(email) =>
      "\U{1F4E7} Processing custom email: " + (if "subject" in email then email["subject"] else "N/A")
    case DemoRun => "\U{1F3AE} Running in demo mode with sample data"
    case InboxRun => "\U{1F4E9} Checking for new emails..."
  }

  /** The log entry that ends a run. */
  function FinalEntry(outcome: PipelineOutcome, now: string): LogEntry {
    match outcome
    case Returned(_) => LogEntry(now, "success", CompletedMessage)
    case Raised(e) => LogEntry(now, "error", "❌ Pipeline failed: " + e)
  }

  /** The content types the generate handler knows. */
  datatype ContentType = BlogPostType | CaseStudyType | SocialPostType | ProductDescriptionType

  function ContentTypeTag(t: ContentType): string {
    match t
    case BlogPostType => "blog_post"
    case CaseStudyType => "case_study"
    case SocialPostType => "social_post"
    case ProductDescriptionType => "product_description"
  }

  /** Closed dispatch on the `type` string: the four known tags, and nothing else. */
  function ContentTypeOf(tag: string): (t: Option<ContentType>)
    ensures t.Some? <==> tag in {"blog_post", "case_study", "social_post", "product_description"}
    ensures t.Some? ==> ContentTypeTag(t.value) == tag
  {
    if tag == "blog_post" then Some(BlogPostType)
    else if tag == "case_study" then Some(CaseStudyType)
    else if tag == "social_post" then Some(SocialPostType)
    else if tag == "product_description" then Some(ProductDescriptionType)
    else None
  }

  /** Every content type is recognised by its own tag. */
  lemma ContentTypeRoundTrip(t: ContentType)
    ensures ContentTypeOf(ContentTypeTag(t)) == Some(t)
  {
  }

  /** The method of the content generator the handler calls for a type. */
  function GeneratorName(t: ContentType): string {
    "generate_" + ContentTypeTag(t)
  }

  /** `str(e)` of the AttributeError raised when that method does not exist. */
  function MissingGeneratorError(t: ContentType): string {
    "'AIEngine' object has no attribute '" + GeneratorName(t) + "'"
  }

  /** The JSON body of a generate request. */
  datatype GenerateRequest = GenerateRequest(contentType: Option<string>, request: Option<string>, platform: Option<string>)

  /** The destinations the publish handler knows. */
  datatype Platform = WordPress | LinkedIn | Twitter

  function PlatformTag(p: Platform): string {
    match p
    case WordPress => "wordpress"
    case LinkedIn => "linkedin"
    case Twitter => "twitter"
  }

  /** Closed dispatch on the `platform` string: the three known tags, and nothing else. */
  function PlatformOf(tag: string): (p: Option<Platform>)
    ensures p.Some? <==> tag in {"wordpress", "linkedin", "twitter"}
    ensures p.Some? ==> PlatformTag(p.value) == tag
  {
    if tag == "wordpress" then Some(WordPress)
    else if tag == "linkedin" then Some(LinkedIn)
    else if tag == "twitter" then Some(Twitter)
    else None
  }

  /** Every platform is recognised by its own tag. */
  lemma PlatformRoundTrip(p: Platform)
    ensures PlatformOf(PlatformTag(p)) == Some(p)
  {
  }

  /** The JSON body of a publish request. */
  datatype PublishRequest = PublishRequest(platform: Option<string>, content: Option<map<string, string>>)

  /** The result of a publish: a WordPress link, or the `None` the social-media stubs return. */
  datatype PublishResult = WordPressLink(link: string) | NoResult

  /** `d.get(key, default)` on a string dictionary. */
  function Get(d: map<string, string>, key: string, default: string): string {
    if key in d then d[key] else default
  }

  /** One integration as the status view shows it. */
  datatype Integration = Integration(connected: bool, name: string)

  /** The answer of the status handler. */
  datatype StatusView = StatusView(
    status: string,
    demoMode: bool,
    integrations: map<string, Integration>,
    currentTask: Option<TaskRecord>,
    logs: seq<LogEntry>)

  /** The dashboard's process-wide state: the configuration, the log and the current task. */
  class AppState {
    const config: Config.Settings
    var logs: seq<LogEntry>
    var currentTask: Option<TaskRecord>

    ghost predicate Valid()
      reads this
    {
      |logs| <= MaxLogs && (currentTask.Some? ==> WellFormedTask(currentTask.value))
    }

    constructor (config: Config.Settings)
      ensures Valid()
      ensures this.config == config && logs == [] && currentTask == None
    {
      this.config := config;
      logs := [];
      currentTask := None;
    }

    /** `add_log`: the entry goes last, and the oldest entry is dropped once there are more than 100. */
    method AddLog(message: string, level: string, now: string)
      requires Valid()
      modifies this`logs
      ensures Valid()
      ensures logs == PushBounded(old(logs), LogEntry(now, level, message))
    {
      logs := logs + [LogEntry(now, level, message)];
      if |logs| > MaxLogs {
        logs := logs[1..];
      }
    }

    /** `get_logs`: the whole log, oldest first, never more than 100 entries. */
    function GetLogs(): (r: seq<LogEntry>)
      reads this
      requires Valid()
      ensures |r| <= MaxLogs
    {
      logs
    }

    /** `get_status`: the snapshot of the integrations, the current task and the 20 newest log entries. */
    function GetStatus(): (v: StatusView)
      reads this
      ensures v.demoMode == config.demoMode && v.currentTask == currentTask
      ensures v.integrations.Keys == {"openai", "wordpress", "gmail", "linkedin", "twitter"}
      ensures v.integrations["openai"].connected == Config.IsOpenAiConfigured(config)
      ensures v.integrations["wordpress"].connected == Config.IsWordPressConfigured(config)
      ensures v.integrations["gmail"].connected == Config.IsSmtpConfigured(config)
      ensures v.integrations["linkedin"].connected == Config.IsLinkedInConfigured(config)
      ensures v.integrations["twitter"].connected == Config.IsTwitterConfigured(config)
      ensures |v.logs| == if |logs| <= StatusLogCount then |logs| else StatusLogCount
      ensures v.logs == logs[|logs| - |v.logs|..]
    {
      var status := Config.GetStatus(config);
      StatusView(
        "online",
        status["demo_mode"],
        map[
          "openai" := Integration(status["openai"], "OpenAI GPT-4"),
          "wordpress" := Integration(status["wordpress"], "WordPress"),
          "gmail" := Integration(status["smtp"], "Gmail/SMTP"),
          "linkedin" := Integration(status["linkedin"], "LinkedIn"),
          "twitter" := Integration(status["twitter"], "Twitter/X")],
        currentTask,
        Last(logs, StatusLogCount))
    }

    /**
     * `run_automation`: while a task is running the request is refused with
     * 400 and nothing changes; otherwise a fresh running task replaces the old
     * record, the start is logged, and the job the background run executes is
     * returned.
     */
    method RunAutomation(data: RunRequest, taskId: string, now: string)
      returns (resp: Reply<RunStarted>, job: Option<Job>)
      requires Valid()
      modifies this`logs, this`currentTask
      ensures Valid()
      ensures old(IsBusy(currentTask)) ==>
        && resp == Err(400, BusyError) && job == None
        && currentTask == old(currentTask) && logs == old(logs)
      ensures !old(IsBusy(currentTask)) ==>
        && resp == Ok(RunStarted("Pipeline started", taskId))
        && job == Some(Job(data.email, UseDemo(data)))
        && currentTask == Some(TaskRecord(taskId, Running, now, if UseDemo(data) then Demo else Production, None, None, None))
        && logs == PushBounded(old(logs), LogEntry(now, "info", StartMessage))
    {
      var useDemo := UseDemo(data);
      if IsBusy(currentTask) {
        return Err(400, BusyError), None;
      }
      currentTask := Some(TaskRecord(taskId, Running, now, if useDemo then Demo else Production, None, None, None));
      AddLog(StartMessage, "info", now);
      resp := Ok(RunStarted("Pipeline started", taskId));
      job := Some(Job(data.email, useDemo));
    }

    /**
     * `execute_pipeline`, run to completion as one step: the branch is logged,
     * and the task ends completed with its results and end time, or failed
     * with the error; it never stays running.
     */
    method ExecutePipeline(job: Job, outcome: PipelineOutcome, now: string)
      requires Valid()
      requires IsBusy(currentTask)
      modifies this`logs, this`currentTask
      ensures Valid()
      ensures currentTask.Some? && !IsBusy(currentTask)
      ensures outcome.Returned? ==> currentTask == Some(old(currentTask.value).(
                status := Completed, results := Some(outcome.results), completedAt := Some(now)))
      ensures outcome.Raised? ==> currentTask == Some(old(currentTask.value).(
                status := Failed, error := Some(outcome.error)))
      ensures logs == PushBounded(PushBounded(old(logs),
                LogEntry(now, "info", BranchMessage(SelectBranch(job)))), FinalEntry(outcome, now))
    {
      AddLog(BranchMessage(SelectBranch(job)), "info", now);
      var task := currentTask.value;
      match outcome
      case Returned(results) =>
        currentTask := Some(task.(status := Completed, results := Some(results), completedAt := Some(now)));
        AddLog(CompletedMessage, "success", now);
      case Raised(e) =>
        currentTask := Some(task.(status := Failed, error := Some(e)));
        AddLog("❌ Pipeline failed: " + e, "error", now);
    }

    /** `preview_content`: the request always has a subject, so the package is always generated. */
    method PreviewContent(subject: Option<string>, body: Option<string>, now: string)
      returns (resp: Reply<AiEngine.ContentPackage>)
      requires Valid()
      modifies this`logs
      ensures Valid()
      ensures resp.Ok? && resp.body.blogPost.title != "" && resp.body.socialPost != ""
      ensures logs == PushBounded(PushBounded(old(logs),
                LogEntry(now, "info", "\U{1F441}️ Generating preview for: " + subject.GetOr("Preview Request"))),
                LogEntry(now, "success", "✅ Preview generated successfully"))
    {
      var emailData := map[
        "id" := "preview",
        "sender" := "preview@dashboard.local",
        "subject" := subject.GetOr("Preview Request"),
        "body" := body.GetOr("Generate sample content"),
        "thread_id" := "preview_thread"];
      AddLog("\U{1F441}️ Generating preview for: " + emailData["subject"], "info", now);
      var content := AiEngine.GenerateContentPackage(emailData);
      match content
      case Success(package) =>
        AddLog("✅ Preview generated successfully", "success", now);
        resp := Ok(package);
      case Failure(e) =>
        // The subject is always present, so the generator cannot fail here.
        assert false;
        resp := Err(500, e);
    }

    /**
     * `generate_single`: an empty request is refused with 400 before anything
     * is logged; an unknown type is refused with 400 after the announcement;
     * a known type calls a generator method the content generator does not
     * define, so it ends in the 500 answer with the AttributeError's message.
     */
    method GenerateSingle(data: GenerateRequest, now: string) returns (resp: Reply<()>)
      requires Valid()
      modifies this`logs
      ensures Valid()
      ensures data.request.GetOr("") == "" ==> resp == Err(400, "Request text is required") && logs == old(logs)
      ensures data.request.GetOr("") != "" ==>
        var tag := data.contentType.GetOr("blog_post");
        var announced := PushBounded(old(logs), LogEntry(now, "info", "\U{1F4DD} Generating " + tag + "..."));
        match ContentTypeOf(tag)
        case None => resp == Err(400, "Unknown content type: " + tag) && logs == announced
        case Some(t) =>
          && resp == Err(500, MissingGeneratorError(t))
          && logs == PushBounded(announced, LogEntry(now, "error", "❌ Generation failed: " + MissingGeneratorError(t)))
    {
      var contentType := data.contentType.GetOr("blog_post");
      var requestText := data.request.GetOr("");
      if requestText == "" {
        return Err(400, "Request text is required");
      }
      AddLog("\U{1F4DD} Generating " + contentType + "...", "info", now);
      match ContentTypeOf(contentType)
      case None =>
        resp := Err(400, "Unknown content type: " + contentType);
      case Some(t) =>
        var e := MissingGeneratorError(t);
        AddLog("❌ Generation failed: " + e, "error", now);
        resp := Err(500, e);
    }

    /**
     * `publish_content`: "wordpress" builds a new publisher (which makes its
     * own mode decision) and creates a draft titled "Untitled" and with an
     * empty body unless the content says otherwise; the social platforms
     * return nothing; an unknown platform is refused with 400. The request
     * is logged first in every case.
     */
    method PublishContent(data: PublishRequest, probe: Http.Outcome<()>,
                          created: Http.Outcome<WpPublisher.CreatedPost>, mockId: int, now: string)
      returns (resp: Reply<PublishResult>, sent: seq<Http.HttpRequest>)
      requires Valid()
      requires 1000 <= mockId <= 9999
      modifies this`logs
      ensures Valid()
      ensures var platform, content := data.platform.GetOr(""), data.content.GetOr(map[]);
        var announced := PushBounded(old(logs), LogEntry(now, "info", "\U{1F4E4} Publishing to " + platform + "..."));
        var useRealApi := WpPublisher.ChooseRealApi(config, probe);
        match PlatformOf(platform)
        case None =>
          resp == Err(400, "Unknown platform: " + platform) && sent == [] && logs == announced
        case Some(p) =>
          && logs == PushBounded(announced, LogEntry(now, "success", "✅ Published to " + platform))
          && (p == WordPress ==>
                && resp == Ok(WordPressLink(WpPublisher.CreateLink(useRealApi, config.wpUrl, "draft", created, mockId)))
                && sent == WpPublisher.ProbeRequest(config).ToSeq()
                           + if useRealApi
                             then [WpPublisher.PostRequest(config.wpUrl, Get(content, "title", "Untitled"),
                                                           Get(content, "content", ""), "", "draft")]
                             else [])
          && (p != WordPress ==> resp == Ok(NoResult) && sent == [])
    {
      var platform := data.platform.GetOr("");
      var content := data.content.GetOr(map[]);
      AddLog("\U{1F4E4} Publishing to " + platform + "...", "info", now);
      var result;
      match PlatformOf(platform) {
        case None =>
          return Err(400, "Unknown platform: " + platform), [];
        case Some(WordPress) =>
          var wp := new WpPublisher.WordPressPublisher(config, probe);
          var link, postSent;
          link, postSent := wp.CreateDraft(Get(content, "title", "Untitled"), Get(content, "content", ""), "", created, mockId);
          sent := wp.probeSent.ToSeq() + postSent.ToSeq();
          result := WordPressLink(link);
        case Some(_) =>
          result, sent := NoResult, [];
      }
      AddLog("✅ Published to " + platform, "success", now);
      resp := Ok(result);
    }

    /** `clear_logs`: afterwards the log holds exactly the one "Logs cleared" entry. */
    method ClearLogs(now: string) returns (resp: Reply<string>)
      requires Valid()
      modifies this`logs
      ensures Valid()
      ensures logs == [LogEntry(now, "info", ClearedMessage)]
      ensures resp == Ok("cleared")
    {
      logs := [];
      AddLog(ClearedMessage, "info", now);
      resp := Ok("cleared");
    }
  }

  /** A second run is refused while the first is running, and accepted again once it has ended. */
  method SingleFlightScenario(cfg: Config.Settings, outcome: PipelineOutcome) {
    var app := new AppState(cfg);
    var first, job := app.RunAutomation(RunRequest(None, None), "1", "t1");
    assert first.Ok? && job == Some(Job(None, true));
    var before := app.currentTask;
    var second, none := app.RunAutomation(RunRequest(Some(false), None), "2", "t2");
    assert second == Err(400, BusyError) && none == None && app.currentTask == before;
    app.ExecutePipeline(job.value, outcome, "t3");
    assert app.currentTask.value.status != Running;
    var third, _ := app.RunAutomation(RunRequest(Some(false), None), "3", "t4");
    assert third.Ok? && app.currentTask.value.kind == Production;
  }

  /**
   * Demo mode, no credentials: publishing to WordPress sends nothing and
   * answers with a demo-site preview link.
   */
  method DemoPublishScenario(probe: Http.Outcome<()>, created: Http.Outcome<WpPublisher.CreatedPost>, mockId: int)
    requires 1000 <= mockId <= 9999
  {
    var app := new AppState(Config.Load(map[]));
    var resp, sent := app.PublishContent(PublishRequest(Some("wordpress"), Some(map["title" := "T", "content" := "B"])),
                                         probe, created, mockId, "t");
    assert sent == [];
    WpPublisher.MockDraftLinkShape("", mockId);
    assert resp.Ok? && resp.body.link[..|WpPublisher.DemoDomain|] == WpPublisher.DemoDomain;
  }
}

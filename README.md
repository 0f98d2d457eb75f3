# Auto-Content-Bot: capability registry, WordPress publishers and dashboard state

This project models the parts of Auto-Content-Bot that have behaviour worth stating:

- **The capability registry** (`Config`). It turns the environment into settings, decides per integration whether it is configured, and builds the status snapshot.
- **The WordPress publisher with real-API fallback** (`WpPublisher`). It decides once, at construction, whether to use the REST API: the site must be configured, demo mode must be off, and the connection probe must answer 200. Every create operation that fails on the real API falls back to a templated mock link, so the caller always gets a link. It also models the update, list and media operations.
- **The pure-mock WordPress publisher** (`WbPublisher`) and **the content generator** (`AiEngine`). Both return constant or templated results.
- **The dashboard's orchestration state** (`Dashboard.AppState`). It holds the log buffer, capped at 100 entries, that drops its oldest entry when full. It holds the single-flight `current_task` record, which goes from running to completed or failed. It also holds the handlers that dispatch on the `type` and `platform` strings.

Shared helpers live in `Wrappers` (Option, Result, handler replies), `Strings` (the `str` operations the source uses) and `Http` (the boundary to the HTTP library).

No request is performed. An operation that would call the network returns the requests it would send (`sent`: an `Option`, or a sequence in order, empty when no call is made). The caller supplies what the call produced, as an `Http.Outcome`: a response with a status code and a decoded body, or a raised exception. Random ids are supplied too, as parameters required to lie in the range the source draws from. Clock readings are parameters (`now`, `taskId`).

The background thread of a run is modelled in two steps. `RunAutomation` accepts or refuses the request and returns the `Job` that the thread's closure captures. `ExecutePipeline` is the thread body, run to completion as one step; other handler calls may come between the two.

Because the model is made of functions of its inputs, `Config.GetStatus` returns equal snapshots for equal settings by construction. Likewise, no operation of `WpPublisher.WordPressPublisher` except the constructor and `VerifyConnection` may change `useRealApi`: they have no `modifies` clause.

Three behaviours of the dashboard code are worth knowing when reading the model:

- A run requested while another is running is answered with 400 (dashboard.py:73-74).
- A failed run records its error but no end time; only a completed run sets `completed_at` (dashboard.py:98-106).
- The generate handler calls `generate_blog_post`, `generate_case_study`, `generate_social_post` and `generate_product_description` on the content generator (dashboard.py:162-170). services/ai_engine.py defines none of them, so every recognised content type raises an AttributeError and the handler answers 500 with that error's message. `Dashboard.AppState.GenerateSingle` states exactly that.

## Model

| member | source | states |
|---|---|---|
| Config.ParseDemoMode | config.py:14 | demo mode is on exactly when the setting is the four letters of "true", each in either case |
| Config.Getenv | config.py:14-38 | the value is the environment's value for the key when it is set, the default otherwise |
| Config.Load | config.py:14-38 | each setting is its variable's value when set and its default otherwise: "" for the credentials, "credentials.json" for the Gmail path; demo mode is on when `DEMO_MODE` is unset and otherwise iff its lower-cased value is "true" |
| Config.LoadReadsOnlySettingKeys | config.py:14-38 | environments that agree on the fifteen setting variables give the same settings |
| Config.IsOpenAiConfigured | config.py:40-43 | configured iff the key has at least three characters and begins with "sk-" |
| Config.IsWordPressConfigured | config.py:45-48 | configured iff URL, user and application password are all non-empty |
| Config.IsSmtpConfigured | config.py:50-53 | configured iff email and password are both non-empty |
| Config.IsLinkedInConfigured | config.py:55-58 | configured iff the access token is non-empty |
| Config.LinkedInIgnoresClientCredentials | config.py:55-58 | changing the client id and secret never changes the LinkedIn state |
| Config.IsTwitterConfigured | config.py:60-68 | configured iff all four Twitter credentials are non-empty |
| Config.GetStatus | config.py:70-80 | the snapshot has exactly the six keys, each equal to the flag or predicate of that name |
| WpPublisher.WordPressPublisher.constructor | services/wp_publisher.py:18-27 | `useRealApi` iff WordPress is configured, demo mode is off and the probe answered 200; `auth` is set, and the probe request recorded in `probeSent`, exactly when WordPress is configured and demo mode is off; `baseUrl` is the configured URL |
| WpPublisher.ProbeRequest | services/wp_publisher.py:23-36 | a probe is sent exactly when WordPress is configured and demo mode is off, and it is a GET of `<WP_URL>/users/me` |
| WpPublisher.WordPressPublisher.VerifyConnection | services/wp_publisher.py:29-44 | probes `users/me`; a 200 answer turns the real API on, any other status or an exception leaves the flag as it was |
| WpPublisher.WordPressPublisher.CreateDraft | services/wp_publisher.py:46-58 | in real mode sends the create request with status "draft", otherwise sends nothing; the link is `CreateLink` for a draft; the flag is not changed |
| WpPublisher.WordPressPublisher.PublishPost | services/wp_publisher.py:60-71 | the same as a draft, with status "publish" |
| WpPublisher.WordPressPublisher.CreateRealPost | services/wp_publisher.py:73-111 | sends the post payload; a 200/201 answer gives the server's link, any other status or an exception gives the mock link of the same status, never an error |
| WpPublisher.PostRequest | services/wp_publisher.py:76-89 | a POST to `<WP_URL>/posts` whose payload holds exactly the five keys title, content, excerpt, status and format: the given title, content and status, the excerpt as `ExcerptSent` gives it, and format "standard" |
| WpPublisher.CreateLink | services/wp_publisher.py:91-111 | outside real mode or after a failed real create, the link is the mock link; after a real success a draft gets the server link plus "?preview=true" and a published post the server link unchanged |
| WpPublisher.ExcerptSent | services/wp_publisher.py:79 | a non-empty excerpt is sent as it is; otherwise the first 150 characters of the content (or all of it, if shorter) followed by "..." |
| WpPublisher.MockBaseDomain | services/wp_publisher.py:118 | an empty base URL gives `https://demo.wordpress.com` |
| WpPublisher.MockBaseDomainOfApiUrl | services/wp_publisher.py:118 | a URL that ends in `/wp-json/wp/v2` and holds it nowhere else gives the address before that suffix |
| WpPublisher.MockBaseDomainDropsApiPath | services/wp_publisher.py:118 | a URL whose first `/wp-json/wp/v2` is followed by more text loses that occurrence: the site address is kept and the rest follows, with its own occurrences removed too |
| Strings.RemoveAllFirst | services/wp_publisher.py:118 | removing every occurrence of a pattern keeps the text before its first occurrence and continues after it |
| WpPublisher.MockBaseDomainOfSiteUrl | services/wp_publisher.py:118 | a non-empty URL without `/wp-json/wp/v2` is used unchanged |
| WpPublisher.MockPostLink | services/wp_publisher.py:113-130 | the link starts with the mock base domain; a draft link is that base plus "/?p=", four digits and "&preview=true" in length and ends with "&preview=true"; any other link is the base plus "/post-", four digits and "/" in length and ends with "/" |
| WpPublisher.MockDraftLinkShape | services/wp_publisher.py:117-121 | a mock draft link is the base, "/?p=", four digits that read back as the id, and "&preview=true" |
| WpPublisher.MockPublishLinkShape | services/wp_publisher.py:117-124 | any other mock link is the base, "/post-", four digits that read back as the id, and "/" |
| WpPublisher.WordPressPublisher.UpdatePost | services/wp_publisher.py:132-165 | the payload holds exactly the truthy fields among title, content and status; in real mode the result is true iff the answer was 200 (false on an exception, with no fallback); in demo mode the result is always true and nothing is sent |
| WpPublisher.WordPressPublisher.GetPosts | services/wp_publisher.py:167-191 | `per_page` is always sent and a status filter only when it is not "any"; the server's list is returned only on a 200 answer in real mode, the two mock posts otherwise |
| WpPublisher.WordPressPublisher.UploadMedia | services/wp_publisher.py:193-230 | the file is sent under its last path segment; the server's id and URL are returned only when the file opened, the answer was 200/201 and both fields were present, the mock media with an id in 100..999 otherwise |
| Strings.LastSegment | services/wp_publisher.py:203 | the result is the longest suffix of the path without '/': no '/' in it, and a '/' right before it when it is not the whole path |
| WpPublisher.Disposition | services/wp_publisher.py:203-206 | the header is `attachment; filename="`, the last '/'-free segment of the path, and a closing quote |
| WbPublisher.WordPressPublisher.constructor | services/wb_publisher.py:10-12 | `baseUrl` is fixed at construction (a constant: no operation changes it) |
| WbPublisher.WordPressPublisher.CreateDraft | services/wb_publisher.py:14-34 | the link is `https://anotherway0.wordpress.com/?p=`, four digits that read back as the id, and `&preview=true` |
| WbPublisher.DraftLinkIgnoresPost | services/wb_publisher.py:14-28 | two drafts with the same id get the same link, whatever their titles and contents |
| AiEngine.GenerateContentPackage | services/ai_engine.py:8-34 | fails with the KeyError's message exactly when the input has no subject; otherwise the package's title, content and social post are non-empty |
| AiEngine.PackageIgnoresInput | services/ai_engine.py:12-31 | every input with a subject gets the same package |
| Dashboard.PushBounded | dashboard.py:26-36 | after one `add_log` the buffer holds at most 100 entries and the new entry is last; the old entries are kept below capacity, and exactly the oldest is dropped at capacity |
| Dashboard.PushBoundedIsLast | dashboard.py:33-36 | one `add_log` leaves the newest 100 of the old buffer followed by the new entry |
| Dashboard.PushAllKeepsNewest | dashboard.py:33-36 | after any number of `add_log` calls the buffer is exactly the newest 100 of everything logged, in order |
| Dashboard.AppState.constructor | dashboard.py:22-23 | the dashboard starts with an empty log and no current task |
| Dashboard.AppState.AddLog | dashboard.py:26-36 | the new log is the capped append of the entry to the old one |
| Dashboard.AppState.GetLogs | dashboard.py:220-223 | the logs handed out never number more than 100 |
| Dashboard.AppState.GetStatus | dashboard.py:45-61 | the view has the five integrations, with "gmail" reporting the SMTP state, the current task, and the last 20 log entries in order |
| Dashboard.StatusShowsNewestLogged | dashboard.py:60 | for a log that started empty, the status view shows the 20 newest entries ever logged, even after older ones were dropped |
| Dashboard.AppState.RunAutomation | dashboard.py:64-115 | while a task is running: a 400 answer, with the task and the log unchanged; otherwise a fresh running task of type demo iff the demo flag (default true) is set, one start entry logged, and the captured job returned |
| Dashboard.SelectBranch | dashboard.py:88-96 | a non-empty custom email runs first, then demo mode, then the inbox |
| Dashboard.AppState.ExecutePipeline | dashboard.py:85-106 | the task ends completed, with results and an end time, or failed with the error, and never stays running; the branch entry and the final entry are logged |
| Dashboard.AppState.PreviewContent | dashboard.py:118-144 | a preview always succeeds, with a non-empty title and social post, and logs its two entries |
| Dashboard.ContentTypeOf | dashboard.py:162-172 | exactly the four known type tags are recognised, each as the type with that tag |
| Dashboard.ContentTypeRoundTrip | dashboard.py:162-172 | each content type is recognised by its own tag |
| Dashboard.AppState.GenerateSingle | dashboard.py:147-179 | an empty request gives 400 before any log entry; an unknown type gives 400 after the announcement; a known type gives 500 with the missing method's AttributeError |
| Dashboard.PlatformOf | dashboard.py:192-210 | exactly "wordpress", "linkedin" and "twitter" are recognised |
| Dashboard.PlatformRoundTrip | dashboard.py:192-210 | each platform is recognised by its own tag |
| Dashboard.AppState.PublishContent | dashboard.py:182-217 | the announcement is always logged; an unknown platform gives 400; "wordpress" creates a draft titled "Untitled" with an empty body unless the content gives them, and answers with its link as a fresh publisher computes it; it reports, in order, the probe request the fresh publisher makes and the create request it sends in real mode; the social platforms answer with no result and send nothing |
| Dashboard.AppState.ClearLogs | dashboard.py:226-232 | afterwards the log holds exactly the one "Logs cleared" entry |

## Left out

- HTTP calls (`requests.get`, `post`, `patch`), JSON decoding and basic-auth headers. Their outcome is a supplied `Http.Outcome`. A body that fails to decode is a `Raised` outcome, and so is a timeout. A JSON `null` link, or a `null` media `id` or `source_url`, is not modelled: the model has no present-but-null field, so a 200/201 upload answer with a null field gives the mock media where the source returns that null.
- `time.sleep`, `print` and `datetime.now()`. These are latency, console output and clock readings. Each handler step takes one `now` string for all its timestamps, and the task id is a parameter.
- `random.randint`. The id is a parameter required to lie in the range the source draws from.
- Flask routing, `jsonify`, `render_template`, CORS, the `/` page and the `__main__` block. These are web-framework plumbing and server start-up.
- `threading.Thread`. The run body is one sequential step. The check-then-set race between concurrent run requests is not modelled.
- `open` in `upload_media`. File I/O becomes the `fileOpens` flag. The media `title` argument is unused, as in the source.
- `main.run_pipeline` and `main.demo_mode`. main.py is not part of this model. Their outcome is a supplied `PipelineOutcome`.
- services/gmail_listener.py and services/social_manager.py. `GmailListener.check_new_emails` sleeps and returns a fixed email record, and `send_report` only prints; dashboard.py imports `GmailListener` but never calls it. `SocialMediaManager.post_to_linkedin` sleeps and prints, and `post_to_twitter` does nothing; both return `None`, which is why the LinkedIn and Twitter publishes answer with `NoResult`.
- Loading the environment from `.env` (`load_dotenv`). `Config.Load` takes the environment as a map.
- Unicode lower-casing. `Strings.Lower` maps ASCII letters only.
- Request bodies whose fields have other JSON types than the ones modelled: a non-boolean `demo`, or non-string `content` fields. Each request field is typed and may be absent.
- Dashboard.AppState.PublishContent: does not model the 500 answer, because none of the modelled calls in that handler can raise.
- A 200 or 201 answer whose body decodes to something other than a JSON object. There `user.get`, `post.get` or `media['id']` raise inside the `try` (services/wp_publisher.py:38-39, 92-94, 217-221), so the probe leaves the real API off and a create or upload falls back to the mock result. The model expresses that case only as a `Raised` outcome.
- Default arguments. The model's operations take every argument explicitly; the source's defaults are `excerpt=""` for the create operations, `status="any"` and `per_page=10` for `get_posts`, and `title=""` for `upload_media`.

# grunt-jenkins: the Jenkins client and credential selection, in Dafny

This project models the two parts of grunt-jenkins that make decisions.

- **The Jenkins server client** (`tasks/jenkinsServer.js`). Each remote operation is split into two parts:
  - a request builder: the keys the call merges into the shared request-options object;
  - a response interpreter: the reply in, the promise's outcome out.

  The transport reply is an input value: a transport error, or a status code with an already-parsed body.
  A promise ends in one of three ways: `Resolved(v)`, `Rejected`, or `Pending` (it never settles).
  The shared `defaultOptions` object is a class (`RequestOptions`). Every method of `Server` merges into it in place with `_.extend`, and the request sends the merged object.
  A job returned by fetchJobs is a `JobRecord` object. fetchJobConfigurations writes its `config` field in the response callbacks.
  Callbacks run in the order responses arrive. That order is an explicit permutation parameter.
- **Credential selection** (`tasks/authenticationProvider.js`). It captures four settings once. `get()` then picks, in this order:
  1. a complete netrc entry for the configured machine;
  2. otherwise a fully configured username/password pair;
  3. otherwise nothing.

  JavaScript truthiness is explicit: undefined and `""` are both absent. An undefined machine name is looked up under the key `"undefined"`, as JavaScript property access does.

Files: `Wrappers.dfy` (Option), `Requests.dfy` (options objects, `_.extend`, `Array.prototype.join`, replies, outcomes), `JenkinsServer.dfy`, `AuthenticationProvider.dfy`.

The code does not rewrite job URLs to the configured address.
It does not treat 401 or 403 differently from other statuses.
installPlugins sends `plugins.xml` as it is given, without rendering it.
createOrUpdateJobs reports the first pipeline to resolve (see Findings).

## Model

| member | source | states |
|---|---|---|
| Requests.Extend | tasks/jenkinsServer.js:9-11 | `_.extend`: every key the call passes is overwritten; every other key of the shared object keeps its value |
| Requests.ExtendShadows | tasks/jenkinsServer.js:116-126 | a later merge whose keys cover an earlier merge's keys hides that earlier merge completely |
| Requests.Join | tasks/jenkinsServer.js:10 | `Array.prototype.join` (also at lines 46, 69, 88, 117, 143, 163 and 177): one part joins to itself, none to `""`; `JoinSnoc` shows that each further part adds exactly one separator and that part, and `JoinTwo`/`JoinThree`/`JoinFour` give the value for the two-, three- and four-part joins the source uses |
| Requests.JoinSnoc | tasks/jenkinsServer.js:10 | joining one more part appends one separator and the part, for any non-empty list of parts |
| Requests.JoinLength | tasks/jenkinsServer.js:10 | a join adds exactly one separator between neighbours and drops nothing, so no slash is collapsed, added or escaped |
| JenkinsServer.FetchJobsRequest | tasks/jenkinsServer.js:9-11 | fetchJobs passes only `url`, which is `serverUrl + "/api/json"` |
| JenkinsServer.InstallPluginsRequest | tasks/jenkinsServer.js:45-49 | installPlugins passes `url` = `serverUrl + "/pluginManager/installNecessaryPlugins"`, `method` POST, `body` the given xml, and nothing else |
| JenkinsServer.FetchEnabledPluginsRequest | tasks/jenkinsServer.js:68-70 | the plugin listing passes only `url` = `serverUrl + "/pluginManager/api/json?depth=1"` |
| JenkinsServer.JobConfigRequest | tasks/jenkinsServer.js:87-89 | the per-job fetch URL is the job's url with `config.xml` appended, with no separator |
| JenkinsServer.JobConfigUrl | tasks/jenkinsServer.js:143 | the job endpoint is `serverUrl + "/job/" + jobName + "/config.xml"`, the name unescaped |
| JenkinsServer.CreateJobRequest | tasks/jenkinsServer.js:116-126 | the create request passes `url` = `serverUrl + "/createItem"`, POST, query `name = jobName`, header `Content-Type: text/xml`, body = file contents, and nothing else |
| JenkinsServer.UpdateJobRequest | tasks/jenkinsServer.js:142-146 | the update request passes the job endpoint, POST and body = file contents; it passes no query string and no headers |
| JenkinsServer.ProbeRequest | tasks/jenkinsServer.js:162-164 | the probe passes only `url`: the same job endpoint that updateJob posts to |
| JenkinsServer.ConfigPath | tasks/jenkinsServer.js:177 | applyStrategy reads `<pipelineDirectory>/<jobName>/config.xml` |
| JenkinsServer.ActionRequest | tasks/jenkinsServer.js:184-192 | the `update` strategy sends exactly the update request's keys (job endpoint, POST, file contents); `create` sends the create request's keys with the `name` query set to the job name; both POST the file contents |
| JenkinsServer.JobSummaries | tasks/jenkinsServer.js:21 | one `{name, url}` per listed job, same count, same order; all other fields are dropped |
| JenkinsServer.JobListing | tasks/jenkinsServer.js:13-21 | fetchJobs rejects exactly on a transport error; otherwise it resolves with the projected listing in server order |
| JenkinsServer.EnabledOnly | tasks/jenkinsServer.js:74 | the filter keeps only enabled entries, all drawn from the input, and is never longer than the input |
| JenkinsServer.PluginRecords | tasks/jenkinsServer.js:75 | each entry becomes `{id: shortName, version}`, same count, same order |
| JenkinsServer.EnabledPlugins | tasks/jenkinsServer.js:74-75 | the enabled-plugin list is never longer than the server's listing |
| JenkinsServer.EnabledOnlyAppend | tasks/jenkinsServer.js:74 | filtering a concatenation gives the concatenation of the filtered parts |
| JenkinsServer.PluginRecordsAppend | tasks/jenkinsServer.js:75 | projecting a concatenation gives the concatenation of the projected parts |
| JenkinsServer.EnabledPluginsAppend | tasks/jenkinsServer.js:74-75 | the listing is processed entry by entry in server order: the result for `a + b` is the result for `a` followed by the result for `b` |
| JenkinsServer.EnabledOnlyKeepsEnabled | tasks/jenkinsServer.js:74 | no enabled entry is dropped |
| JenkinsServer.EnabledPluginsMembership | tasks/jenkinsServer.js:74-75 | a plugin is in the result iff some enabled server entry projects to it |
| JenkinsServer.EnabledPluginsKeepOrder | tasks/jenkinsServer.js:74-75 | two enabled entries appear in the result in the order the server listed them |
| JenkinsServer.EnabledOnlySingle | tasks/jenkinsServer.js:74 | a one-entry listing keeps its entry exactly once if it is enabled and drops it otherwise; with `EnabledOnlyAppend` this fixes how many times each enabled entry appears |
| JenkinsServer.AllEnabledKeepsEverything | tasks/jenkinsServer.js:74-75 | when every entry is enabled, nothing is filtered out |
| JenkinsServer.StatusResult | tasks/jenkinsServer.js:128-134 | createJob, updateJob and installPlugins reject exactly on a transport error, resolve true iff the status is exactly 200, and resolve false for every other status (same rule at lines 51-60 and 148-154) |
| JenkinsServer.ChooseStrategy | tasks/jenkinsServer.js:168-170 | the probe yields `update` iff the status is exactly 200, otherwise `create`, and echoes the job name |
| JenkinsServer.ApplyOutcome | tasks/jenkinsServer.js:175-195 | applyStrategy never rejects; it resolves iff the file was read and the create/update call got a reply, and the value is then status == 200; otherwise it never settles |
| JenkinsServer.ProbeThenAct | tasks/jenkinsServer.js:160-195 | after a probe with status 200 the pipeline sends exactly the update request, otherwise exactly the create request (`name` query = job name); both POST the file contents |
| JenkinsServer.UpdateAfterCreateKeepsQueryAndHeaders | tasks/jenkinsServer.js:142-146 | an update sent after a create on the same options object still carries the create's `qs` and `Content-Type`, with its own url and body |
| JenkinsServer.FetchJobsAfterInstallIsPost | tasks/jenkinsServer.js:9-11 | a listing fetched after installPlugins on the same options object is sent as a POST carrying the install document |
| JenkinsServer.CreateHidesEarlierCall | tasks/jenkinsServer.js:116-126 | the create request covers every key any other call passes, so after any single earlier call on the same options object the create is sent as if that call had not happened |
| JenkinsServer.TrailingSlashIsKept | tasks/jenkinsServer.js:10 | a server address ending in `/` produces `//api/json`: there is no slash normalisation |
| JenkinsServer.ConfigFetchRequests | tasks/jenkinsServer.js:85-89 | one request per job; with `ConfigFetchRequestShape`, the i-th request is the i-th job's, so they follow input order |
| JenkinsServer.ConfigFetchRequestShape | tasks/jenkinsServer.js:85-89 | the i-th per-job fetch goes to `jobs[i].url + "config.xml"` and carries every other key as the shared object held it before the first fetch |
| JenkinsServer.ConfigAfter | tasks/jenkinsServer.js:91-99 | after the callbacks listed in `order` have run, a record's `config` is its initial value or the body of one of its own fulfilled fetches whose callback ran |
| JenkinsServer.ConfigAfterOwnReply | tasks/jenkinsServer.js:91-99 | a record listed once gets `config = body` iff its fetch was fulfilled and its callback ran; otherwise it keeps its old config, in any callback order |
| JenkinsServer.FetchedConfigs | tasks/jenkinsServer.js:91-99 | once all responses are in, each distinct record holds its own fetch's body exactly when that fetch was fulfilled |
| JenkinsServer.ConfigurationsOutcome | tasks/jenkinsServer.js:103-110 | fetchJobConfigurations resolves with the records in input order iff every fetch was fulfilled, rejects otherwise, never hangs, and resolves with `[]` for no jobs |
| JenkinsServer.FirstResolved | tasks/jenkinsServer.js:27-41 | createOrUpdateJobs as written: the first pipeline to resolve, in the given finish order, decides the result; it never rejects, and it never settles iff no pipeline resolves |
| JenkinsServer.FirstResolvedHidesLaterFailure | tasks/jenkinsServer.js:34-38 | a job that succeeds first hides a later failing job, and the verdict depends on which job finishes first |
| JenkinsServer.AllPipelinesSucceeded | tasks/jenkinsServer.js:27-41 | the corrected aggregate: when every pipeline resolved true (and there is one), the code as written also resolves true. The two differ on failures and on an empty job list: with no jobs the code never settles, while the corrected aggregate is true |
| JenkinsServer.AllPipelinesSucceededIgnoresOrder | tasks/jenkinsServer.js:27-41 | the corrected aggregate (true iff every pipeline resolved true) does not depend on finish order |
| JenkinsServer.RequestOptions.constructor | tasks/jenkinsServer.js:5 | the shared options object starts with the caller's entries |
| JenkinsServer.JobRecord.constructor | tasks/jenkinsServer.js:21 | a fresh job object has the listed name and url and no config |
| JenkinsServer.Server.constructor | tasks/jenkinsServer.js:5 | the client keeps the server address, the caller's options object (shared, not copied) and the file system's pipeline directory |
| JenkinsServer.Server.Merge | tasks/jenkinsServer.js:9 | the shared object becomes `_.extend(old, overrides)`, and that merged object is what is sent |
| JenkinsServer.Server.FetchJobs | tasks/jenkinsServer.js:7-25 | merges the listing request, and sends it; on a reply, resolves with fresh, distinct job objects matching the projected listing with no config; on a transport error, rejects |
| JenkinsServer.Server.InstallPlugins | tasks/jenkinsServer.js:43-64 | merges the install request with `plugins.xml` as body; the outcome is the status rule |
| JenkinsServer.Server.FetchEnabledPlugins | tasks/jenkinsServer.js:66-81 | merges the listing request; resolves with the enabled plugins, projected, in server order |
| JenkinsServer.Server.FetchJobConfigurations | tasks/jenkinsServer.js:83-112 | the per-job requests are sent in order and the shared object ends as the last of them; each record's config is what the callbacks leave; the outcome is the all-or-nothing aggregate |
| JenkinsServer.Server.IssueConfigFetches | tasks/jenkinsServer.js:85-90 | one merge and one request per job, in input order |
| JenkinsServer.Server.SettleConfigFetches | tasks/jenkinsServer.js:91-99 | each fulfilled fetch writes its body into its record's `config` in arrival order; nothing else is written |
| JenkinsServer.Server.CreateJob | tasks/jenkinsServer.js:114-138 | merges the create request; the outcome is the status rule |
| JenkinsServer.Server.UpdateJob | tasks/jenkinsServer.js:140-158 | merges the update request; the outcome is the status rule |
| JenkinsServer.Server.FetchJobConfigurationStrategy | tasks/jenkinsServer.js:160-173 | merges the probe request; resolves with the strategy chosen from the status, echoing the job name |
| JenkinsServer.Server.ApplyStrategy | tasks/jenkinsServer.js:175-195 | reads `<pipelineDirectory>/<jobName>/config.xml`; if the read fails, sends nothing, leaves the options untouched and never settles; otherwise sends exactly the create or the update request the strategy names, with the file as body |
| AuthenticationProvider.PropertyKey | tasks/authenticationProvider.js:8 | the netrc lookup key is the machine name, or `"undefined"` when no machine is configured |
| AuthenticationProvider.Truthy | tasks/authenticationProvider.js:4 | a setting counts as present iff it is neither undefined nor the empty string (the `~/.netrc` default at line 4, the tests at lines 9 and 12) |
| AuthenticationProvider.Usable | tasks/authenticationProvider.js:9 | a netrc entry is accepted iff it exists and both its login and its password are set and non-empty |
| AuthenticationProvider.Provider.Entry | tasks/authenticationProvider.js:8 | the entry is present iff the netrc file read from the captured location has the machine's key, and is then that key's entry |
| AuthenticationProvider.Provider.Configured | tasks/authenticationProvider.js:12 | the configured pair is usable iff both the username and the password are set and non-empty |
| AuthenticationProvider.Provider.Get | tasks/authenticationProvider.js:7-16 | credentials are returned iff a complete netrc entry exists or both settings are non-empty; both returned fields are non-empty; the pair comes wholly from the netrc entry or wholly from the settings, never mixed |
| AuthenticationProvider.New | tasks/authenticationProvider.js:1-5 | the four settings are captured as given, except that a missing or empty netrc location becomes `~/.netrc` |
| AuthenticationProvider.NetrcPreferred | tasks/authenticationProvider.js:8-10 | a netrc entry with a non-empty login and a non-empty password is returned, even when a username and password are configured |
| AuthenticationProvider.ConfiguredPairUsed | tasks/authenticationProvider.js:12-13 | without a complete netrc entry, a configured pair with both values non-empty is returned |
| AuthenticationProvider.OnlyOneConfiguredIsEmpty | tasks/authenticationProvider.js:12-15 | with only one of username/password set and no complete netrc entry, the result is empty |
| AuthenticationProvider.IncompleteNetrcIgnored | tasks/authenticationProvider.js:9 | a netrc entry whose login or password is missing or empty gives the same result as no netrc file |
| AuthenticationProvider.CapturedSettingsDecide | tasks/authenticationProvider.js:2-5 | the result depends only on the four settings captured at construction and the netrc file |
| AuthenticationProvider.AsWrittenOptions | tasks/authenticationProvider.js:10-13 | the code's result is `{}` without credentials, and otherwise exactly `{username, password}` holding the selected pair, never an `auth` key |
| AuthenticationProvider.AuthOptions | test/authenticationProviderTest.js:43-48 | the shape the tests expect: `{auth: {username, password}}`, or `{}` |
| AuthenticationProvider.AsWrittenNeverAttachesAuth | tasks/authenticationProvider.js:10-13 | merged into request options, the code's result never supplies the `auth` option |
| AuthenticationProvider.AuthOptionsAttach | test/authenticationProviderTest.js:114-118 | merged into any request options, the expected shape attaches exactly the selected pair under `auth` |
| AuthenticationProvider.NothingConfiguredIsEmpty | test/authenticationProviderTest.js:17-23 | nothing configured and no netrc entry: `{}` |
| AuthenticationProvider.ConfiguredPairScenario | test/authenticationProviderTest.js:29-49 | username `un` and password `pw`: that pair; the test's wrapped expectation matches the expected shape but not the code's |
| AuthenticationProvider.HalfConfiguredScenarios | test/authenticationProviderTest.js:51-77 | only a username, or only a password: `{}` |
| AuthenticationProvider.NetrcPreferredScenario | test/authenticationProviderTest.js:83-120 | a netrc entry and a configured pair: the netrc pair |
| AuthenticationProvider.IncompleteNetrcScenarios | test/authenticationProviderTest.js:122-164 | a netrc entry with an empty password, or with an empty login: `{}` |
| AuthenticationProvider.UndefinedMachineKey | tasks/authenticationProvider.js:8 | with no machine configured, an entry stored under `"undefined"` is picked up |

## Left out

- HTTP transport, `q` promises and `grunt.log`/`grunt.verbose` output are not modelled. A reply is an input value, and a promise's fate is an `Outcome`.
- `JSON.parse` is not modelled; bodies arrive already parsed. A body that is not JSON throws inside the callback (tasks/jenkinsServer.js:19 and 74), and so does a listing without `jobs` (`jobs.length` at line 20); neither is modelled.
- A plugin listing without `plugins` resolves with `[]`, because `_.filter` of undefined is `[]` (tasks/jenkinsServer.js:73-77). The model has no separate case for it: it gives the same `[]` as an empty listing.
- JenkinsServer.Server.FetchEnabledPlugins: requires a reply. The callback never checks the transport error; on an error `body` is undefined, so `JSON.parse(body)` at line 74 throws inside the callback and the promise never settles.
- JenkinsServer.Server.FetchJobConfigurationStrategy: requires a reply. The callback never checks the transport error; on an error the response is undefined, so `r.statusCode` at line 168 throws inside the callback and the promise never settles.
- createOrUpdateJobs: only its aggregation rule is modelled (`FirstResolved`, over an explicit finish order). Its pipelines run concurrently, so the interleaving of their merges into the shared options object is not modelled.
- File contents are strings; `fs.readFile` without an encoding yields a byte buffer, which is sent unchanged as the body.
- `tasks/fileSystem.js` is a map from path to contents. A path missing from the map is a failed read; real file reading is not modelled.
- `tasks/jenkins-server.js` (an older copy of fetchJobs), `tasks/jenkins.js` (a placeholder helper) and `Gruntfile.js` (build configuration) are not part of this model.
- Non-string settings (numbers, objects) are not modelled; settings are strings or undefined.
- The netrc file format is not parsed; `netrcConstructor` is an input.
- `get()` re-reads the netrc file on every call; the model treats that file as fixed, so repeated calls agree only while it is unchanged.
- Machine names that JavaScript resolves through `Object.prototype` (such as `constructor`) are not modelled.
- JenkinsServer.JobRecord: `name` and `url` are constant fields, because no code reassigns them.
- JenkinsServer.Server.FetchJobConfigurations: every fetch is assumed to get a response, so a request that never answers is not modelled.

## Findings

| source | as written | input that shows it | evidently intended | confidence | as-written member | corrected member |
|---|---|---|---|---|---|---|
| tasks/jenkinsServer.js:30-37 | every job pipeline resolves the one shared deferred, so the first pipeline to resolve decides the result. Later failures are dropped, and if no pipeline resolves the promise never settles | two jobs where the first to finish resolves true and the second resolves false: the result is true | true iff every job's create or update succeeded, whatever the finish order | high; not executed | JenkinsServer.FirstResolvedHidesLaterFailure | JenkinsServer.AllPipelinesSucceededIgnoresOrder |
| tasks/authenticationProvider.js:10-13 | `get()` returns a bare `{username, password}` | username `un`, password `pw`: the result is `{username: 'un', password: 'pw'}`, while test/authenticationProviderTest.js:43-48 expects `{auth: {username: 'un', password: 'pw'}}` | the pair wrapped under `auth`, the request option that carries credentials | medium; not executed | AuthenticationProvider.AsWrittenNeverAttachesAuth | AuthenticationProvider.AuthOptionsAttach |

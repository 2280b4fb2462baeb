/**
 * The Jenkins server client (`JenkinsServer`). Each remote operation is split
 * into a request builder (the keys it merges into the shared options object) and
 * a response interpreter (the transport's reply in, the promise's outcome out).
 * The class `Server` combines them over the shared, mutable options object, and
 * `JobRecord` is the mutable job object that fetchJobs hands out and
 * fetchJobConfigurations fills in.
 */
module JenkinsServer {
  import opened Wrappers
  import opened Requests

  // ---------------------------------------------------------------------------
  // Parsed response bodies (what JSON.parse yields) and the values the client returns
  // ---------------------------------------------------------------------------

  /** One entry of `jobs` in the server's `api/json` listing; `others` stands for
      every field besides `name` and `url` (colour, class, ...). */
  datatype ApiJob = ApiJob(name: string, url: string, others: map<string, string>)

  /** One entry of `plugins` in `pluginManager/api/json?depth=1`. */
  datatype ApiPlugin = ApiPlugin(shortName: string, version: string, enabled: bool, others: map<string, string>)

  /** `{name, url}`: a listed job as fetchJobs projects it. */
  datatype JobSummary = JobSummary(name: string, url: string)

  /** `{id, version}`: an enabled plugin as fetchEnabledPlugins projects it. */
  datatype Plugin = Plugin(id: string, version: string)

  /** The argument of installPlugins: the rendered install document and the entries it lists. */
  datatype PluginSet = PluginSet(xml: string, plugins: seq<Plugin>)

  datatype Strategy = Create | Update

  /** `{strategy, jobName}` as the probe resolves it. */
  datatype StrategyChoice = StrategyChoice(strategy: Strategy, jobName: string)

  // ---------------------------------------------------------------------------
  // Request builders: the keys each call merges into the shared options object
  // ---------------------------------------------------------------------------

  lemma ListingUrl(serverUrl: string)
    ensures Join([serverUrl, "api", "json"], "/") == serverUrl + "/api/json"
  {
    JoinThree(serverUrl, "api", "json", "/");
    assert serverUrl + "/" + "api" + "/" + "json" == serverUrl + "/api/json";
  }

  lemma PluginListingUrl(serverUrl: string)
    ensures Join([serverUrl, "pluginManager", "api", "json?depth=1"], "/")
         == serverUrl + "/pluginManager/api/json?depth=1"
  {
    JoinFour(serverUrl, "pluginManager", "api", "json?depth=1", "/");
    assert serverUrl + "/" + "pluginManager" + "/" + "api" + "/" + "json?depth=1"
        == serverUrl + "/pluginManager/api/json?depth=1";
  }

  lemma JobConfigFetchUrl(jobUrl: string)
    ensures Join([jobUrl, "config.xml"], "") == jobUrl + "config.xml"
  {
    JoinTwo(jobUrl, "config.xml", "");
    assert jobUrl + "" + "config.xml" == jobUrl + "config.xml";
  }

  lemma CreateItemUrl(serverUrl: string)
    ensures Join([serverUrl, "createItem"], "/") == serverUrl + "/createItem"
  {
    JoinTwo(serverUrl, "createItem", "/");
    assert serverUrl + "/" + "createItem" == serverUrl + "/createItem";
  }

  function FetchJobsRequest(serverUrl: string): (o: Options)
    ensures o.Keys == {"url"}
    ensures o["url"] == Text(serverUrl + "/api/json")
  {
    ListingUrl(serverUrl);
    map["url" := Text(Join([serverUrl, "api", "json"], "/"))]
  }

  function InstallPluginsRequest(serverUrl: string, xml: string): (o: Options)
    ensures o.Keys == {"url", "method", "body"}
    ensures o["url"] == Text(serverUrl + "/pluginManager/installNecessaryPlugins")
    ensures o["method"] == Text("POST") && o["body"] == Text(xml)
  {
    InstallUrl(serverUrl);
    map["url" := Text(Join([serverUrl, "pluginManager", "installNecessaryPlugins"], "/")),
        "method" := Text("POST"),
        "body" := Text(xml)]
  }

  lemma InstallUrl(serverUrl: string)
    ensures Join([serverUrl, "pluginManager", "installNecessaryPlugins"], "/")
         == serverUrl + "/pluginManager/installNecessaryPlugins"
  {
    JoinThree(serverUrl, "pluginManager", "installNecessaryPlugins", "/");
    assert serverUrl + "/" + "pluginManager" + "/" + "installNecessaryPlugins"
        == serverUrl + "/pluginManager/installNecessaryPlugins";
  }

  function FetchEnabledPluginsRequest(serverUrl: string): (o: Options)
    ensures o.Keys == {"url"}
    ensures o["url"] == Text(serverUrl + "/pluginManager/api/json?depth=1")
  {
    PluginListingUrl(serverUrl);
    map["url" := Text(Join([serverUrl, "pluginManager", "api", "json?depth=1"], "/"))]
  }

  /** The per-job configuration fetch: the job's own url with `config.xml` glued on, no separator. */
  function JobConfigRequest(jobUrl: string): (o: Options)
    ensures o.Keys == {"url"}
    ensures o["url"] == Text(jobUrl + "config.xml")
  {
    JobConfigFetchUrl(jobUrl);
    map["url" := Text(Join([jobUrl, "config.xml"], ""))]
  }

  /** `<server>/job/<name>/config.xml`, the endpoint both the probe and updateJob use. */
  function JobConfigUrl(serverUrl: string, jobName: string): (u: string)
    ensures u == serverUrl + "/job/" + jobName + "/config.xml"
  {
    JoinFour(serverUrl, "job", jobName, "config.xml", "/");
    Join([serverUrl, "job", jobName, "config.xml"], "/")
  }

  function CreateJobRequest(serverUrl: string, jobName: string, contents: string): (o: Options)
    ensures o.Keys == {"url", "method", "qs", "headers", "body"}
    ensures o["url"] == Text(serverUrl + "/createItem")
    ensures o["method"] == Text("POST")
    ensures o["qs"] == Fields(map["name" := jobName])
    ensures o["headers"] == Fields(map["Content-Type" := "text/xml"])
    ensures o["body"] == Text(contents)
  {
    CreateItemUrl(serverUrl);
    map["url" := Text(Join([serverUrl, "createItem"], "/")),
        "method" := Text("POST"),
        "qs" := Fields(map["name" := jobName]),
        "headers" := Fields(map["Content-Type" := "text/xml"]),
        "body" := Text(contents)]
  }

  function UpdateJobRequest(serverUrl: string, jobName: string, contents: string): (o: Options)
    ensures o.Keys == {"url", "method", "body"}
    ensures o["url"] == Text(serverUrl + "/job/" + jobName + "/config.xml")
    ensures o["method"] == Text("POST") && o["body"] == Text(contents)
  {
    map["url" := Text(JobConfigUrl(serverUrl, jobName)),
        "method" := Text("POST"),
        "body" := Text(contents)]
  }

  function ProbeRequest(serverUrl: string, jobName: string): (o: Options)
    ensures o.Keys == {"url"}
    ensures o["url"] == Text(serverUrl + "/job/" + jobName + "/config.xml")
  {
    map["url" := Text(JobConfigUrl(serverUrl, jobName))]
  }

  /** `<pipelineDirectory>/<jobName>/config.xml`, the file applyStrategy reads. */
  function ConfigPath(pipelineDirectory: string, jobName: string): (p: string)
    ensures p == pipelineDirectory + "/" + jobName + "/config.xml"
  {
    JoinThree(pipelineDirectory, jobName, "config.xml", "/");
    Join([pipelineDirectory, jobName, "config.xml"], "/")
  }

  /** The request applyStrategy ends up sending for a strategy and the file it read. */
  function ActionRequest(serverUrl: string, choice: StrategyChoice, contents: string): (o: Options)
    ensures "method" in o && "body" in o && o["method"] == Text("POST") && o["body"] == Text(contents)
    ensures choice.strategy == Update ==>
              o.Keys == {"url", "method", "body"} && o["url"] == Text(JobConfigUrl(serverUrl, choice.jobName))
    ensures choice.strategy == Create ==>
              o.Keys == {"url", "method", "qs", "headers", "body"} && o["url"] == Text(serverUrl + "/createItem") &&
              o["qs"] == Fields(map["name" := choice.jobName])
  {
    match choice.strategy
    case Create => CreateJobRequest(serverUrl, choice.jobName, contents)
    case Update => UpdateJobRequest(serverUrl, choice.jobName, contents)
  }

  // ---------------------------------------------------------------------------
  // Response interpreters
  // ---------------------------------------------------------------------------

  /** fetchJobs' projection: each listed job becomes `{name, url}`, all else is dropped. */
  function JobSummaries(jobs: seq<ApiJob>): (r: seq<JobSummary>)
    ensures |r| == |jobs|
    ensures forall i :: 0 <= i < |jobs| ==> r[i].name == jobs[i].name && r[i].url == jobs[i].url
  {
    if jobs == [] then [] else [JobSummary(jobs[0].name, jobs[0].url)] + JobSummaries(jobs[1..])
  }

  /** How fetchJobs' promise ends for a reply. */
  function JobListing(reply: Response<seq<ApiJob>>): (r: Outcome<seq<JobSummary>>)
    ensures r.Rejected? <==> reply.TransportError?
    ensures !r.Pending?
    ensures r.Resolved? ==> |r.value| == |reply.body|
    ensures r.Resolved? ==> forall i :: 0 <= i < |reply.body| ==>
              r.value[i].name == reply.body[i].name && r.value[i].url == reply.body[i].url
  {
    match reply
    case TransportError => Rejected
    case Reply(_, jobs) => Resolved(JobSummaries(jobs))
  }

  /** `_.filter(plugins, p => p.enabled)`. */
  function EnabledOnly(plugins: seq<ApiPlugin>): (r: seq<ApiPlugin>)
    ensures |r| <= |plugins|
    ensures forall k :: 0 <= k < |r| ==> r[k].enabled && r[k] in plugins
  {
    if plugins == [] then []
    else (if plugins[0].enabled then [plugins[0]] else []) + EnabledOnly(plugins[1..])
  }

  /** `_.map(plugins, p => {id: p.shortName, version: p.version})`. */
  function PluginRecords(plugins: seq<ApiPlugin>): (r: seq<Plugin>)
    ensures |r| == |plugins|
    ensures forall i :: 0 <= i < |plugins| ==> r[i].id == plugins[i].shortName && r[i].version == plugins[i].version
  {
    if plugins == [] then [] else [Plugin(plugins[0].shortName, plugins[0].version)] + PluginRecords(plugins[1..])
  }

  /** fetchEnabledPlugins' result: the enabled entries, projected, in server order. */
  function EnabledPlugins(plugins: seq<ApiPlugin>): (r: seq<Plugin>)
    ensures |r| <= |plugins|
  {
    PluginRecords(EnabledOnly(plugins))
  }

  lemma {:induction false} EnabledOnlyAppend(a: seq<ApiPlugin>, b: seq<ApiPlugin>)
    ensures EnabledOnly(a + b) == EnabledOnly(a) + EnabledOnly(b)
  {
    if a == [] {
      assert a + b == b;
    } else {
      assert (a + b)[0] == a[0];
      assert (a + b)[1..] == a[1..] + b;
      EnabledOnlyAppend(a[1..], b);
    }
  }

  lemma {:induction false} PluginRecordsAppend(a: seq<ApiPlugin>, b: seq<ApiPlugin>)
    ensures PluginRecords(a + b) == PluginRecords(a) + PluginRecords(b)
  {
    var l, r := PluginRecords(a + b), PluginRecords(a) + PluginRecords(b);
    assert |l| == |r|;
    forall i | 0 <= i < |l| ensures l[i] == r[i] {
      if i < |a| {
        assert (a + b)[i] == a[i];
      } else {
        assert (a + b)[i] == b[i - |a|];
      }
    }
  }

  /** Filtering and projecting a concatenation is the concatenation of the results:
      the listing is processed entry by entry, in order. */
  lemma EnabledPluginsAppend(a: seq<ApiPlugin>, b: seq<ApiPlugin>)
    ensures EnabledPlugins(a + b) == EnabledPlugins(a) + EnabledPlugins(b)
  {
    EnabledOnlyAppend(a, b);
    PluginRecordsAppend(EnabledOnly(a), EnabledOnly(b));
  }

  /** Every enabled entry survives the filter. */
  lemma {:induction false} EnabledOnlyKeepsEnabled(plugins: seq<ApiPlugin>, i: nat)
    requires i < |plugins| && plugins[i].enabled
    ensures plugins[i] in EnabledOnly(plugins)
  {
    if i > 0 {
      EnabledOnlyKeepsEnabled(plugins[1..], i - 1);
      assert plugins[1..][i - 1] == plugins[i];
    }
  }

  /** A plugin is listed iff some enabled entry of the server's listing projects to it. */
  lemma EnabledPluginsMembership(plugins: seq<ApiPlugin>, p: Plugin)
    ensures p in EnabledPlugins(plugins) <==>
            exists i :: 0 <= i < |plugins| && plugins[i].enabled && Plugin(plugins[i].shortName, plugins[i].version) == p
  {
    var kept := EnabledOnly(plugins);
    var r := EnabledPlugins(plugins);
    if p in r {
      var k :| 0 <= k < |r| && r[k] == p;
      assert kept[k] in plugins;
      var i :| 0 <= i < |plugins| && plugins[i] == kept[k];
      assert plugins[i].enabled && Plugin(plugins[i].shortName, plugins[i].version) == p;
    }
    if exists i :: 0 <= i < |plugins| && plugins[i].enabled && Plugin(plugins[i].shortName, plugins[i].version) == p {
      var i :| 0 <= i < |plugins| && plugins[i].enabled && Plugin(plugins[i].shortName, plugins[i].version) == p;
      EnabledOnlyKeepsEnabled(plugins, i);
      var k :| 0 <= k < |kept| && kept[k] == plugins[i];
      assert r[k] == p;
    }
  }

  /** A one-entry listing keeps its entry iff it is enabled, once and no more. */
  lemma EnabledOnlySingle(p: ApiPlugin)
    ensures EnabledOnly([p]) == if p.enabled then [p] else []
  {
    assert [p][1..] == [];
  }

  /** Two enabled entries appear in the result in the order the server listed them. */
  lemma EnabledPluginsKeepOrder(plugins: seq<ApiPlugin>, i: nat, j: nat)
    requires i < j < |plugins|
    requires plugins[i].enabled && plugins[j].enabled
    ensures var r := EnabledPlugins(plugins);
            exists k, l :: 0 <= k < l < |r| &&
              r[k] == Plugin(plugins[i].shortName, plugins[i].version) &&
              r[l] == Plugin(plugins[j].shortName, plugins[j].version)
  {
    var front, back := plugins[..j], plugins[j..];
    assert plugins == front + back;
    EnabledPluginsAppend(front, back);
    var f, b := EnabledPlugins(front), EnabledPlugins(back);
    var r := EnabledPlugins(plugins);
    assert r == f + b;
    var pi := Plugin(plugins[i].shortName, plugins[i].version);
    assert front[i] == plugins[i];
    EnabledPluginsMembership(front, pi);
    var k :| 0 <= k < |f| && f[k] == pi;
    assert back == [plugins[j]] + back[1..];
    EnabledPluginsAppend([plugins[j]], back[1..]);
    EnabledOnlySingle(plugins[j]);
    assert b[0] == Plugin(plugins[j].shortName, plugins[j].version);
    assert r[k] == pi && r[|f|] == b[0];
  }

  /** With every entry enabled nothing is dropped. */
  lemma {:induction false} AllEnabledKeepsEverything(plugins: seq<ApiPlugin>)
    requires forall i :: 0 <= i < |plugins| ==> plugins[i].enabled
    ensures EnabledOnly(plugins) == plugins
    ensures EnabledPlugins(plugins) == PluginRecords(plugins)
  {
    if plugins != [] {
      var rest := plugins[1..];
      assert forall i :: 0 <= i < |rest| ==> rest[i] == plugins[i + 1];
      AllEnabledKeepsEverything(rest);
      assert plugins[0].enabled;
      assert EnabledOnly(plugins) == [plugins[0]] + EnabledOnly(rest);
      assert plugins == [plugins[0]] + rest;
    }
  }

  /** `r.statusCode === 200` behind a transport error check: createJob, updateJob and installPlugins. */
  function StatusResult<T>(reply: Response<T>): (r: Outcome<bool>)
    ensures r == Rejected <==> reply.TransportError?
    ensures r == Resolved(true) <==> reply.Reply? && reply.statusCode == 200
    ensures r == Resolved(false) <==> reply.Reply? && reply.statusCode != 200
  {
    match reply
    case TransportError => Rejected
    case Reply(status, _) => Resolved(status == 200)
  }

  /** The probe's decision: `update` exactly for status 200, `create` for every other status. */
  function ChooseStrategy(jobName: string, status: int): (c: StrategyChoice)
    ensures c.jobName == jobName
    ensures c.strategy == Update <==> status == 200
    ensures c.strategy == Create <==> status != 200
  {
    StrategyChoice(if status == 200 then Update else Create, jobName)
  }

  /** How the promise applyStrategy returns ends. Neither a failed file read nor a rejected
      create/update call is passed on, so in both cases the promise never settles. */
  function ApplyOutcome(read: Option<string>, reply: Response<string>): (r: Outcome<bool>)
    ensures !r.Rejected?
    ensures r.Resolved? <==> read.Some? && reply.Reply?
    ensures r.Resolved? ==> (r.value <==> reply.statusCode == 200)
  {
    if read.None? then Pending
    else match StatusResult(reply)
      case Resolved(ok) => Resolved(ok)
      case _ => Pending
  }

  /** A pipeline of the install workflow: probe, then read and create or update.
      The request it sends is the update request exactly when the probe saw 200. */
  lemma ProbeThenAct(serverUrl: string, jobName: string, status: int, contents: string)
    ensures var sent := ActionRequest(serverUrl, ChooseStrategy(jobName, status), contents);
            sent["method"] == Text("POST") && sent["body"] == Text(contents) &&
            (status == 200 ==> sent == UpdateJobRequest(serverUrl, jobName, contents)) &&
            (status != 200 ==> sent == CreateJobRequest(serverUrl, jobName, contents) &&
                               sent["qs"] == Fields(map["name" := jobName]))
  {
  }

  // ---------------------------------------------------------------------------
  // The shared options object: what earlier calls leave behind
  // ---------------------------------------------------------------------------

  /** An update sent after a create still carries the create's query string and
      content type, because updateJob does not pass those keys. */
  lemma UpdateAfterCreateKeepsQueryAndHeaders(o: Options, serverUrl: string, created: string, createdDoc: string,
                                              updated: string, updatedDoc: string)
    ensures var after := Extend(Extend(o, CreateJobRequest(serverUrl, created, createdDoc)),
                                UpdateJobRequest(serverUrl, updated, updatedDoc));
            after["qs"] == Fields(map["name" := created]) &&
            after["headers"] == Fields(map["Content-Type" := "text/xml"]) &&
            after["url"] == Text(serverUrl + "/job/" + updated + "/config.xml") &&
            after["body"] == Text(updatedDoc)
  {
  }

  /** A listing fetched after installPlugins on the same options object is sent as a POST
      carrying the install document, because fetchJobs passes only `url`. */
  lemma FetchJobsAfterInstallIsPost(o: Options, serverUrl: string, xml: string)
    ensures var after := Extend(Extend(o, InstallPluginsRequest(serverUrl, xml)), FetchJobsRequest(serverUrl));
            after["method"] == Text("POST") && after["body"] == Text(xml) &&
            after["url"] == Text(serverUrl + "/api/json")
  {
  }

  /** A create request covers every key any other call passes, so whatever single call came
      before it on the same options object, the create is sent as if that call had not happened. */
  lemma CreateHidesEarlierCall(o: Options, serverUrl: string, jobName: string, contents: string,
                               other: string, otherDoc: string)
    ensures var create := CreateJobRequest(serverUrl, jobName, contents);
            Extend(Extend(o, UpdateJobRequest(serverUrl, other, otherDoc)), create) == Extend(o, create) &&
            Extend(Extend(o, InstallPluginsRequest(serverUrl, otherDoc)), create) == Extend(o, create) &&
            Extend(Extend(o, FetchJobsRequest(serverUrl)), create) == Extend(o, create) &&
            Extend(Extend(o, FetchEnabledPluginsRequest(serverUrl)), create) == Extend(o, create) &&
            Extend(Extend(o, ProbeRequest(serverUrl, other)), create) == Extend(o, create) &&
            Extend(Extend(o, JobConfigRequest(other)), create) == Extend(o, create)
  {
    var create := CreateJobRequest(serverUrl, jobName, contents);
    ExtendShadows(o, UpdateJobRequest(serverUrl, other, otherDoc), create);
    ExtendShadows(o, InstallPluginsRequest(serverUrl, otherDoc), create);
    ExtendShadows(o, FetchJobsRequest(serverUrl), create);
    ExtendShadows(o, FetchEnabledPluginsRequest(serverUrl), create);
    ExtendShadows(o, ProbeRequest(serverUrl, other), create);
    ExtendShadows(o, JobConfigRequest(other), create);
  }

  /** No slash normalisation: a configured address with a trailing slash yields a double slash. */
  lemma TrailingSlashIsKept()
    ensures FetchJobsRequest("http://localhost:8080/")["url"] == Text("http://localhost:8080//api/json")
  {
  }

  // ---------------------------------------------------------------------------
  // fetchJobConfigurations: per-job requests, callbacks and the aggregate
  // ---------------------------------------------------------------------------

  /** `order` lists each of the indices `0..n-1` (the order in which responses arrive). */
  predicate IsPermutation(order: seq<nat>, n: nat)
  {
    |order| == n && (forall k :: 0 <= k < n ==> order[k] < n) && (forall i :: 0 <= i < n ==> i in order)
  }

  /** The options object as each per-job fetch sends it: each fetch merges its own url
      into the object the previous fetch left behind. */
  function ConfigFetchRequests(initial: Options, jobUrls: seq<string>): (r: seq<Options>)
    ensures |r| == |jobUrls|
    decreases |jobUrls|
  {
    if |jobUrls| == 0 then []
    else
      var prev := ConfigFetchRequests(initial, jobUrls[..|jobUrls| - 1]);
      var before := if |prev| == 0 then initial else prev[|prev| - 1];
      prev + [Extend(before, JobConfigRequest(jobUrls[|jobUrls| - 1]))]
  }

  lemma ConfigFetchRequestsStep(initial: Options, jobUrls: seq<string>, i: nat)
    requires i < |jobUrls|
    ensures var prev := ConfigFetchRequests(initial, jobUrls[..i]);
            ConfigFetchRequests(initial, jobUrls[..i + 1]) ==
            prev + [Extend(if i == 0 then initial else prev[i - 1], JobConfigRequest(jobUrls[i]))]
  {
    assert jobUrls[..i + 1][..i] == jobUrls[..i];
  }

  /** The i-th per-job fetch is sent to that job's url plus `config.xml`, and carries every
      other key exactly as the options object held it before the first fetch. */
  lemma {:induction false} ConfigFetchRequestShape(initial: Options, jobUrls: seq<string>, i: nat)
    requires i < |jobUrls|
    ensures var r := ConfigFetchRequests(initial, jobUrls);
            r[i].Keys == initial.Keys + {"url"} &&
            r[i]["url"] == Text(jobUrls[i] + "config.xml") &&
            forall k :: k in initial && k != "url" ==> r[i][k] == initial[k]
    decreases |jobUrls|
  {
    var n := |jobUrls|;
    var prefix := jobUrls[..n - 1];
    if i < n - 1 {
      ConfigFetchRequestShape(initial, prefix, i);
      assert prefix[i] == jobUrls[i];
    } else if i > 0 {
      ConfigFetchRequestShape(initial, prefix, i - 1);
    }
  }

  /** The mutable job object: fetchJobs creates it, fetchJobConfigurations writes `config`. */
  class JobRecord {
    const name: string
    const url: string
    var config: Option<string>

    constructor (name: string, url: string)
      ensures this.name == name && this.url == url && config == None
    {
      this.name := name;
      this.url := url;
      config := None;
    }
  }

  function Summaries(records: seq<JobRecord>): (r: seq<JobSummary>)
    ensures |r| == |records|
    ensures forall i :: 0 <= i < |records| ==> r[i] == JobSummary(records[i].name, records[i].url)
  {
    seq(|records|, i requires 0 <= i < |records| => JobSummary(records[i].name, records[i].url))
  }

  function JobUrls(records: seq<JobRecord>): (r: seq<string>)
    ensures |r| == |records|
    ensures forall i :: 0 <= i < |records| ==> r[i] == records[i].url
  {
    seq(|records|, i requires 0 <= i < |records| => records[i].url)
  }

  /** The `config` object `o` holds once the callbacks at the positions `order` lists have run,
      in that order, starting from `init`: a fulfilled fetch of `o` writes its body, the last write wins. */
  function ConfigAfter(records: seq<JobRecord>, replies: seq<Response<string>>, order: seq<nat>,
                       o: JobRecord, init: Option<string>): (c: Option<string>)
    requires |records| == |replies|
    requires forall k :: 0 <= k < |order| ==> order[k] < |records|
    ensures c == init || exists k :: 0 <= k < |order| && records[order[k]] == o && replies[order[k]].Reply? &&
                                     c == Some(replies[order[k]].body)
    decreases |order|
  {
    if order == [] then init
    else
      var i := order[|order| - 1];
      if records[i] == o && replies[i].Reply? then Some(replies[i].body)
      else
        var c := ConfigAfter(records, replies, order[..|order| - 1], o, init);
        if c != init then
          var k :| 0 <= k < |order| - 1 && records[order[..|order| - 1][k]] == o &&
                   replies[order[..|order| - 1][k]].Reply? && c == Some(replies[order[..|order| - 1][k]].body);
          assert order[k] == order[..|order| - 1][k];
          c
        else c
  }

  /** A record listed once ends up with its own fetch's body if that fetch was fulfilled
      and its callback ran, and keeps its old `config` otherwise, whatever the order. */
  lemma {:induction false} ConfigAfterOwnReply(records: seq<JobRecord>, replies: seq<Response<string>>, order: seq<nat>,
                                               i: nat, init: Option<string>)
    requires |records| == |replies|
    requires forall k :: 0 <= k < |order| ==> order[k] < |records|
    requires i < |records|
    requires forall j :: 0 <= j < |records| && j != i ==> records[j] != records[i]
    ensures ConfigAfter(records, replies, order, records[i], init) ==
            if replies[i].Reply? && i in order then Some(replies[i].body) else init
  {
    if order != [] {
      var prefix := order[..|order| - 1];
      assert order == prefix + [order[|order| - 1]];
      ConfigAfterOwnReply(records, replies, prefix, i, init);
    }
  }

  /** Once every response has arrived, each distinct record holds its fetch's body exactly
      when that fetch was fulfilled. */
  lemma FetchedConfigs(records: seq<JobRecord>, replies: seq<Response<string>>, order: seq<nat>,
                       i: nat, init: Option<string>)
    requires |records| == |replies|
    requires IsPermutation(order, |records|)
    requires i < |records|
    requires forall j :: 0 <= j < |records| && j != i ==> records[j] != records[i]
    ensures ConfigAfter(records, replies, order, records[i], init) ==
            if replies[i].Reply? then Some(replies[i].body) else init
  {
    ConfigAfterOwnReply(records, replies, order, i, init);
  }

  /** q.allResolved then `_.all(isFulfilled)`: the records themselves, in input order, iff every
      fetch was fulfilled; a rejection otherwise. */
  function ConfigurationsOutcome(records: seq<JobRecord>, replies: seq<Response<string>>): (r: Outcome<seq<JobRecord>>)
    requires |records| == |replies|
    ensures !r.Pending?
    ensures r.Resolved? <==> forall i :: 0 <= i < |replies| ==> replies[i].Reply?
    ensures r.Resolved? ==> r.value == records
    ensures records == [] ==> r == Resolved([])
  {
    if forall i :: 0 <= i < |replies| ==> replies[i].Reply? then Resolved(records) else Rejected
  }

  // ---------------------------------------------------------------------------
  // createOrUpdateJobs: the aggregate as written and as intended
  // ---------------------------------------------------------------------------

  /** createOrUpdateJobs as written: every pipeline's `.then(resolve)` resolves the one shared
      deferred, so the first pipeline (in `settled`, the order pipelines finish) to resolve
      decides, and a pipeline that never settles never calls it. */
  function FirstResolved(settled: seq<Outcome<bool>>): (r: Outcome<bool>)
    ensures !r.Rejected?
    ensures r.Pending? <==> forall i :: 0 <= i < |settled| ==> !settled[i].Resolved?
    ensures r.Resolved? ==> exists i :: 0 <= i < |settled| && settled[i] == r &&
                                        forall k :: 0 <= k < i ==> !settled[k].Resolved?
  {
    if settled == [] then Pending
    else if settled[0].Resolved? then settled[0]
    else
      var r := FirstResolved(settled[1..]);
      if r.Resolved? then
        var i :| 0 <= i < |settled[1..]| && settled[1..][i] == r &&
                 forall k :: 0 <= k < i ==> !settled[1..][k].Resolved?;
        assert settled[i + 1] == r;
        r
      else r
  }

  /** One job succeeding first hides a later failure, and the verdict depends on which finishes first. */
  lemma FirstResolvedHidesLaterFailure()
    ensures FirstResolved([Resolved(true), Resolved(false)]) == Resolved(true)
    ensures !AllPipelinesSucceeded([Resolved(true), Resolved(false)])
    ensures FirstResolved([Resolved(false), Resolved(true)]) == Resolved(false)
  {
    assert [Resolved(false), Resolved(true)][1..] == [Resolved(true)];
    assert [Resolved(true), Resolved(false)][1] != Resolved(true);
  }

  /** The install aggregate as intended: success iff every pipeline resolved with true. */
  function AllPipelinesSucceeded(outcomes: seq<Outcome<bool>>): (ok: bool)
    ensures ok && outcomes != [] ==> FirstResolved(outcomes) == Resolved(true)
    ensures outcomes == [] ==> ok && FirstResolved(outcomes) == Pending
  {
    forall i :: 0 <= i < |outcomes| ==> outcomes[i] == Resolved(true)
  }

  function Reorder<T>(xs: seq<T>, order: seq<nat>): (r: seq<T>)
    requires forall k :: 0 <= k < |order| ==> order[k] < |xs|
    ensures |r| == |order|
  {
    seq(|order|, k requires 0 <= k < |order| => xs[order[k]])
  }

  /** The intended aggregate does not depend on the order in which pipelines finish. */
  lemma AllPipelinesSucceededIgnoresOrder(outcomes: seq<Outcome<bool>>, order: seq<nat>)
    requires IsPermutation(order, |outcomes|)
    ensures AllPipelinesSucceeded(Reorder(outcomes, order)) == AllPipelinesSucceeded(outcomes)
  {
    var r := Reorder(outcomes, order);
    if AllPipelinesSucceeded(r) {
      forall i | 0 <= i < |outcomes| ensures outcomes[i] == Resolved(true) {
        assert i in order;
        var k :| 0 <= k < |order| && order[k] == i;
        assert r[k] == outcomes[i];
      }
    }
  }

  // ---------------------------------------------------------------------------
  // The client object
  // ---------------------------------------------------------------------------

  /** The request-options object the caller passes in and every call merges into. */
  class RequestOptions {
    var entries: Options

    constructor (initial: Options)
      ensures entries == initial
    {
      entries := initial;
    }
  }

  /** `JenkinsServer(serverUrl, defaultOptions, fileSystem)`; replies and file contents are inputs. */
  class Server {
    const serverUrl: string
    const defaultOptions: RequestOptions
    /** `fileSystem.pipelineDirectory` */
    const pipelineDirectory: string

    constructor (serverUrl: string, defaultOptions: RequestOptions, pipelineDirectory: string)
      ensures this.serverUrl == serverUrl && this.defaultOptions == defaultOptions
      ensures this.pipelineDirectory == pipelineDirectory
    {
      this.serverUrl := serverUrl;
      this.defaultOptions := defaultOptions;
      this.pipelineDirectory := pipelineDirectory;
    }

    /** `_.extend(defaultOptions, overrides)`; the merged object is what the request sends. */
    method Merge(overrides: Options) returns (sent: Options)
      modifies defaultOptions
      ensures defaultOptions.entries == Extend(old(defaultOptions.entries), overrides)
      ensures sent == defaultOptions.entries
    {
      defaultOptions.entries := Extend(defaultOptions.entries, overrides);
      sent := defaultOptions.entries;
    }

    method FetchJobs(reply: Response<seq<ApiJob>>) returns (sent: Options, result: Outcome<seq<JobRecord>>)
      modifies defaultOptions
      ensures defaultOptions.entries == Extend(old(defaultOptions.entries), FetchJobsRequest(serverUrl))
      ensures sent == defaultOptions.entries
      ensures result.Rejected? <==> reply.TransportError?
      ensures !result.Pending?
      ensures result.Resolved? ==> Summaries(result.value) == JobListing(reply).value
      ensures result.Resolved? ==> forall i :: 0 <= i < |result.value| ==>
                fresh(result.value[i]) && result.value[i].config == None
      ensures result.Resolved? ==> forall i, k :: 0 <= i < k < |result.value| ==> result.value[i] != result.value[k]
    {
      sent := Merge(FetchJobsRequest(serverUrl));
      if reply.TransportError? {
        result := Rejected;
        return;
      }
      ghost var merged := defaultOptions.entries;
      var listed := reply.body;
      var jobs: seq<JobRecord> := [];
      var i := 0;
      while i < |listed|
        invariant 0 <= i <= |listed|
        invariant defaultOptions.entries == merged
        invariant |jobs| == i
        invariant forall k :: 0 <= k < i ==> jobs[k].name == listed[k].name && jobs[k].url == listed[k].url
        invariant forall k :: 0 <= k < i ==> fresh(jobs[k]) && jobs[k].config == None
        invariant forall k, l :: 0 <= k < l < i ==> jobs[k] != jobs[l]
      {
        var job := new JobRecord(listed[i].name, listed[i].url);
        jobs := jobs + [job];
        i := i + 1;
      }
      result := Resolved(jobs);
    }

    method InstallPlugins(plugins: PluginSet, reply: Response<string>) returns (sent: Options, result: Outcome<bool>)
      modifies defaultOptions
      ensures defaultOptions.entries == Extend(old(defaultOptions.entries), InstallPluginsRequest(serverUrl, plugins.xml))
      ensures sent == defaultOptions.entries
      ensures result == StatusResult(reply)
    {
      sent := Merge(InstallPluginsRequest(serverUrl, plugins.xml));
      result := StatusResult(reply);
    }

    /** The callback never looks at the transport error, so only a reply is in scope. */
    method FetchEnabledPlugins(reply: Response<seq<ApiPlugin>>) returns (sent: Options, plugins: seq<Plugin>)
      requires reply.Reply?
      modifies defaultOptions
      ensures defaultOptions.entries == Extend(old(defaultOptions.entries), FetchEnabledPluginsRequest(serverUrl))
      ensures sent == defaultOptions.entries
      ensures plugins == EnabledPlugins(reply.body)
    {
      sent := Merge(FetchEnabledPluginsRequest(serverUrl));
      plugins := EnabledPlugins(reply.body);
    }

    /** `replies[i]` answers the fetch for `jobs[i]`; `order` is the order the answers arrive in. */
    method FetchJobConfigurations(jobs: seq<JobRecord>, replies: seq<Response<string>>, order: seq<nat>)
      returns (sent: seq<Options>, result: Outcome<seq<JobRecord>>)
      requires |replies| == |jobs|
      requires IsPermutation(order, |jobs|)
      modifies defaultOptions, jobs
      ensures sent == ConfigFetchRequests(old(defaultOptions.entries), JobUrls(jobs))
      ensures defaultOptions.entries == if jobs == [] then old(defaultOptions.entries) else sent[|sent| - 1]
      ensures forall j :: j in jobs ==> j.config == ConfigAfter(jobs, replies, order, j, old(j.config))
      ensures result == ConfigurationsOutcome(jobs, replies)
    {
      sent := IssueConfigFetches(jobs);
      SettleConfigFetches(jobs, replies, order);
      result := ConfigurationsOutcome(jobs, replies);
    }

    /** The `_.map` over the jobs: one merge, and one request, per job, in input order. */
    method IssueConfigFetches(jobs: seq<JobRecord>) returns (sent: seq<Options>)
      modifies defaultOptions
      ensures sent == ConfigFetchRequests(old(defaultOptions.entries), JobUrls(jobs))
      ensures defaultOptions.entries == if jobs == [] then old(defaultOptions.entries) else sent[|sent| - 1]
    {
      ghost var initial := defaultOptions.entries;
      var urls := JobUrls(jobs);
      sent := [];
      var i := 0;
      while i < |jobs|
        invariant 0 <= i <= |jobs|
        invariant sent == ConfigFetchRequests(initial, urls[..i])
        invariant defaultOptions.entries == if i == 0 then initial else sent[i - 1]
      {
        ConfigFetchRequestsStep(initial, urls, i);
        assert urls[i] == jobs[i].url;
        ghost var before := defaultOptions.entries;
        var options := Merge(JobConfigRequest(urls[i]));
        assert options == Extend(before, JobConfigRequest(urls[i]));
        sent := sent + [options];
        i := i + 1;
      }
      assert urls[..|jobs|] == urls;
    }

    /** The request callbacks, run in the order the responses arrive: a fulfilled fetch
        writes its body into its job object's `config`. */
    method SettleConfigFetches(jobs: seq<JobRecord>, replies: seq<Response<string>>, order: seq<nat>)
      requires |replies| == |jobs|
      requires forall k :: 0 <= k < |order| ==> order[k] < |jobs|
      modifies jobs
      ensures forall j :: j in jobs ==> j.config == ConfigAfter(jobs, replies, order, j, old(j.config))
    {
      var k := 0;
      while k < |order|
        invariant 0 <= k <= |order|
        invariant forall j :: j in jobs ==> j.config == ConfigAfter(jobs, replies, order[..k], j, old(j.config))
      {
        var n := order[k];
        if replies[n].Reply? {
          jobs[n].config := Some(replies[n].body);
        }
        assert order[..k + 1][..k] == order[..k];
        k := k + 1;
      }
      assert order[..|order|] == order;
    }

    method CreateJob(jobName: string, fileContents: string, reply: Response<string>)
      returns (sent: Options, result: Outcome<bool>)
      modifies defaultOptions
      ensures defaultOptions.entries == Extend(old(defaultOptions.entries), CreateJobRequest(serverUrl, jobName, fileContents))
      ensures sent == defaultOptions.entries
      ensures result == StatusResult(reply)
    {
      sent := Merge(CreateJobRequest(serverUrl, jobName, fileContents));
      result := StatusResult(reply);
    }

    method UpdateJob(jobName: string, fileContents: string, reply: Response<string>)
      returns (sent: Options, result: Outcome<bool>)
      modifies defaultOptions
      ensures defaultOptions.entries == Extend(old(defaultOptions.entries), UpdateJobRequest(serverUrl, jobName, fileContents))
      ensures sent == defaultOptions.entries
      ensures result == StatusResult(reply)
    {
      sent := Merge(UpdateJobRequest(serverUrl, jobName, fileContents));
      result := StatusResult(reply);
    }

    /** The callback never looks at the transport error, so only a reply is in scope. */
    method FetchJobConfigurationStrategy(job: string, reply: Response<string>)
      returns (sent: Options, choice: StrategyChoice)
      requires reply.Reply?
      modifies defaultOptions
      ensures defaultOptions.entries == Extend(old(defaultOptions.entries), ProbeRequest(serverUrl, job))
      ensures sent == defaultOptions.entries
      ensures choice == ChooseStrategy(job, reply.statusCode)
    {
      sent := Merge(ProbeRequest(serverUrl, job));
      choice := ChooseStrategy(job, reply.statusCode);
    }

    /** `files` maps a path to its contents; a path it lacks fails to read. */
    method ApplyStrategy(choice: StrategyChoice, files: map<string, string>, reply: Response<string>)
      returns (sent: Option<Options>, result: Outcome<bool>)
      modifies defaultOptions
      ensures var path := ConfigPath(pipelineDirectory, choice.jobName);
              result == ApplyOutcome(if path in files then Some(files[path]) else None, reply)
      ensures var path := ConfigPath(pipelineDirectory, choice.jobName);
              path !in files ==> sent == None && defaultOptions.entries == old(defaultOptions.entries)
      ensures var path := ConfigPath(pipelineDirectory, choice.jobName);
              path in files ==> (sent == Some(defaultOptions.entries) &&
                defaultOptions.entries == Extend(old(defaultOptions.entries), ActionRequest(serverUrl, choice, files[path])))
    {
      var path := ConfigPath(pipelineDirectory, choice.jobName);
      if path !in files {
        sent, result := None, Pending;
        return;
      }
      var options, acted;
      match choice.strategy {
        case Create =>
          options, acted := CreateJob(choice.jobName, files[path], reply);
        case Update =>
          options, acted := UpdateJob(choice.jobName, files[path], reply);
      }
      sent := Some(options);
      result := if acted.Resolved? then acted else Pending;
    }
  }
}

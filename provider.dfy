/** The resource provider of databricks/mcp.go: building a provider from a
    configuration (rejecting missing credentials and writing defaults into
    the caller's configuration), listing clusters and jobs as tagged
    resource records, fetching one resource by type, and the query filter
    behind the context endpoint.

    The Databricks REST client is an oracle (`Api`): its cluster and job
    listings and its answer for each cluster id are fixed in advance. */
module Provider {
  import opened Base

  /** `Config`; `NewMCPProvider` writes defaults into it in place. */
  class Config {
    var baseUrl: string
    var token: string
    var pollInterval: int
    var serverPort: int

    constructor (baseUrl: string, token: string, pollInterval: int, serverPort: int)
      ensures this.baseUrl == baseUrl && this.token == token
      ensures this.pollInterval == pollInterval && this.serverPort == serverPort
    {
      this.baseUrl := baseUrl;
      this.token := token;
      this.pollInterval := pollInterval;
      this.serverPort := serverPort;
    }
  }

  /** A JSON object as the client returns it (`map[string]interface{}`). */
  type Record = map<string, Json>

  /** What the Databricks client answers: the cluster listing, the job
      listing, and the answer to `GetCluster` for each id. */
  datatype Api = Api(clusters: Result<seq<Record>>, jobs: Result<seq<Record>>, cluster: string -> Result<Record>)

  /** A resource record: its id, name, type tag and the full record. */
  datatype Resource = Resource(id: Json, name: Json, kind: string, properties: Record)

  const BaseUrlRequired := "base_url is required"
  const TokenRequired := "token is required"
  const ClientFailed := "failed to create client: "
  const DefaultPollInterval := 60
  const DefaultServerPort := 8080

  const ClustersFailed := "failed to list clusters: "
  const JobsFailed := "failed to list jobs: "
  const ClusterFailed := "failed to get cluster: "
  const Unsupported := "unsupported resource type: "
  const SettingsNotObject := "job settings is not an object"

  /** The record for a cluster. */
  function ClusterResource(c: Record): Resource {
    Resource(Field(c, "cluster_id"), Field(c, "cluster_name"), "cluster", c)
  }

  /** The record for a job, whose name sits in its settings object; `None`
      when the settings are not an object (the type assertion panics). */
  function JobResource(j: Record): Option<Resource> {
    match Field(j, "settings")
    case JObject(settings) => Some(Resource(Field(j, "job_id"), Field(settings, "name"), "job", j))
    case _ => None
  }

  function ClusterResources(cs: seq<Record>): (rs: seq<Resource>)
    ensures |rs| == |cs| && forall i :: 0 <= i < |cs| ==> rs[i] == ClusterResource(cs[i])
  {
    seq(|cs|, i requires 0 <= i < |cs| => ClusterResource(cs[i]))
  }

  /** The records for the jobs, in order, or `None` when one of them panics. */
  function JobResources(js: seq<Record>): Option<seq<Resource>>
  {
    if js == [] then Some([])
    else
      match JobResources(js[..|js| - 1])
      case None => None
      case Some(init) =>
        match JobResource(js[|js| - 1])
        case None => None
        case Some(r) => Some(init + [r])
  }

  /** What `GetResources` returns for the client's answers. */
  function Resources(api: Api): Outcome<seq<Resource>>
  {
    match api.clusters
    case Err(cause) => Errored(ClustersFailed + cause)
    case Ok(cs) =>
      match api.jobs
      case Err(cause) => Errored(JobsFailed + cause)
      case Ok(js) =>
        match JobResources(js)
        case None => Panicked(SettingsNotObject)
        case Some(jrs) => Done(ClusterResources(cs) + jrs)
  }

  /** The job records exist exactly when every job's settings is an object,
      and then there is one per job, in order. */
  lemma {:induction false} JobResourcesExact(js: seq<Record>)
    ensures JobResources(js).Some? <==> forall i :: 0 <= i < |js| ==> JobResource(js[i]).Some?
    ensures JobResources(js).Some? ==>
      |JobResources(js).value| == |js| &&
      forall i :: 0 <= i < |js| ==> JobResources(js).value[i] == JobResource(js[i]).value
    decreases |js|
  {
    if js != [] {
      var init := js[..|js| - 1];
      JobResourcesExact(init);
      assert forall i :: 0 <= i < |init| ==> init[i] == js[i];
    }
  }

  /** `GetResources`: a failed listing is an error (clusters are listed
      first); otherwise one record per cluster, in listing order and tagged
      "cluster", followed by one record per job, tagged "job"; a job whose
      settings are not an object makes it panic. */
  lemma ResourcesShape(api: Api)
    ensures api.clusters.Err? ==> Resources(api) == Errored(ClustersFailed + api.clusters.cause)
    ensures api.clusters.Ok? && api.jobs.Err? ==> Resources(api) == Errored(JobsFailed + api.jobs.cause)
    ensures api.clusters.Ok? && api.jobs.Ok? ==>
      var cs := api.clusters.value;
      var js := api.jobs.value;
      && (Resources(api).Panicked? <==> exists i :: 0 <= i < |js| && JobResource(js[i]).None?)
      && (Resources(api).Done? ==>
            var rs := Resources(api).value;
            && |rs| == |cs| + |js|
            && (forall i :: 0 <= i < |cs| ==>
                  rs[i].kind == "cluster" && rs[i].properties == cs[i] &&
                  rs[i].id == Field(cs[i], "cluster_id") && rs[i].name == Field(cs[i], "cluster_name"))
            && (forall i :: 0 <= i < |js| ==>
                  rs[|cs| + i].kind == "job" && rs[|cs| + i].properties == js[i] && rs[|cs| + i].id == Field(js[i], "job_id")))
  {
    if api.clusters.Ok? && api.jobs.Ok? {
      JobResourcesExact(api.jobs.value);
    }
  }

  /** The context endpoint's answer: an HTTP error or the matching resources. */
  datatype ContextReply = HttpError(status: int, message: string) | ContextBody(query: string, resources: seq<Resource>)

  const QueryRequired := "Query parameter is required"
  const ResourcesError := "Error getting resources: "

  /** Go's `unicode.ToLower`, for ASCII letters. */
  function LowerChar(c: char): char {
    if 'A' <= c <= 'Z' then (c as int + 32) as char else c
  }

  /** `strings.ToLower`, for ASCII letters. */
  function ToLower(s: string): (r: string)
    ensures |r| == |s| && forall i :: 0 <= i < |s| ==> r[i] == LowerChar(s[i])
  {
    seq(|s|, i requires 0 <= i < |s| => LowerChar(s[i]))
  }

  /** `sub` occurs in `s` at position `i`. */
  predicate OccursAt(s: string, sub: string, i: int) {
    0 <= i && i + |sub| <= |s| && s[i..i + |sub|] == sub
  }

  /** `strings.Contains`: compare at each position from the left. */
  function StringsContains(s: string, sub: string): bool
    decreases |s|
  {
    if |sub| > |s| then false
    else if s[..|sub|] == sub then true
    else StringsContains(s[1..], sub)
  }

  /** `strings.Contains` holds exactly when `sub` occurs somewhere in `s`. */
  lemma {:induction false} StringsContainsOccurs(s: string, sub: string)
    ensures StringsContains(s, sub) <==> exists i :: OccursAt(s, sub, i)
    decreases |s|
  {
    if |sub| > |s| {
    } else if s[..|sub|] == sub {
      assert OccursAt(s, sub, 0);
    } else {
      StringsContainsOccurs(s[1..], sub);
      if exists i :: OccursAt(s[1..], sub, i) {
        var i :| OccursAt(s[1..], sub, i);
        assert s[1..][i..i + |sub|] == s[i + 1..i + 1 + |sub|];
        assert OccursAt(s, sub, i + 1);
      }
      if exists i :: OccursAt(s, sub, i) {
        var i :| OccursAt(s, sub, i);
        assert i != 0;
        assert s[1..][i - 1..i - 1 + |sub|] == s[i..i + |sub|];
        assert OccursAt(s[1..], sub, i - 1);
      }
    }
  }

  /** `contains`: a substring test after lower-casing both strings; the
      empty string is contained in every string. */
  function Contains(s: string, sub: string): (b: bool)
    ensures b <==> exists i :: OccursAt(ToLower(s), ToLower(sub), i)
    ensures sub == "" ==> b
  {
    StringsContainsOccurs(ToLower(s), ToLower(sub));
    assert sub == "" ==> OccursAt(ToLower(s), ToLower(sub), 0);
    StringsContains(ToLower(s), ToLower(sub))
  }

  /** Lower-casing twice is lower-casing once. */
  lemma ToLowerIdempotent(s: string)
    ensures ToLower(ToLower(s)) == ToLower(s)
  {
    assert forall i :: 0 <= i < |s| ==> LowerChar(LowerChar(s[i])) == LowerChar(s[i]);
  }

  /** `contains` ignores the case of both of its arguments. */
  lemma ContainsIgnoresCase(s: string, sub: string)
    ensures Contains(ToLower(s), sub) == Contains(s, sub)
    ensures Contains(s, ToLower(sub)) == Contains(s, sub)
  {
    ToLowerIdempotent(s);
    ToLowerIdempotent(sub);
  }

  /** The resources whose name is a string containing `query`, in order. */
  function NamedLike(rs: seq<Resource>, query: string): seq<Resource>
  {
    if rs == [] then []
    else
      var last := rs[|rs| - 1];
      NamedLike(rs[..|rs| - 1], query) + (if last.name.JString? && Contains(last.name.s, query) then [last] else [])
  }

  /** The query filter keeps exactly the resources whose name is a string
      containing the query. */
  lemma {:induction false} NamedLikeExact(rs: seq<Resource>, query: string)
    ensures forall r :: r in NamedLike(rs, query) <==> r in rs && r.name.JString? && Contains(r.name.s, query)
    decreases |rs|
  {
    if rs != [] {
      var init := rs[..|rs| - 1];
      NamedLikeExact(init, query);
      assert rs == init + [rs[|rs| - 1]];
    }
  }

  /** The query filter keeps the resources in listing order. */
  lemma {:induction false} NamedLikeInOrder(rs: seq<Resource>, query: string)
    ensures Subsequence(NamedLike(rs, query), rs)
    decreases |rs|
  {
    if rs != [] {
      var init := rs[..|rs| - 1];
      var last := rs[|rs| - 1];
      NamedLikeInOrder(init, query);
      var m := NamedLike(rs, query);
      if last.name.JString? && Contains(last.name.s, query) {
        assert m == NamedLike(init, query) + [last];
        assert m[..|m| - 1] == NamedLike(init, query);
      } else {
        assert m == NamedLike(init, query);
        if m != [] {
          assert Subsequence(m, init);
        }
      }
    }
  }

  /** `MCPProvider`: the client built from the configuration and that configuration. */
  class McpProvider {
    const client: Api
    const config: Config

    constructor (client: Api, config: Config)
      ensures this.client == client && this.config == config
    {
      this.client := client;
      this.config := config;
    }

    /** `GetResources`: clusters first, then jobs. */
    method GetResources() returns (r: Outcome<seq<Resource>>)
      ensures r == Resources(client)
    {
      var clusters := client.clusters;
      if clusters.Err? {
        return Errored(ClustersFailed + clusters.cause);
      }
      var jobs := client.jobs;
      if jobs.Err? {
        return Errored(JobsFailed + jobs.cause);
      }
      var cs, js := clusters.value, jobs.value;
      var resources: seq<Resource> := [];
      for i := 0 to |cs|
        invariant resources == ClusterResources(cs[..i])
      {
        resources := resources + [ClusterResource(cs[i])];
      }
      assert cs[..|cs|] == cs;
      for j := 0 to |js|
        invariant JobResources(js[..j]).Some?
        invariant resources == ClusterResources(cs) + JobResources(js[..j]).value
      {
        assert js[..j + 1][..j] == js[..j];
        var job := JobResource(js[j]);
        if job.None? {
          assert JobResources(js[..j + 1]).None?;
          JobResourcesFailFrom(js, j + 1);
          assert js[..|js|] == js;
          return Panicked(SettingsNotObject);
        }
        resources := resources + [job.value];
      }
      assert js[..|js|] == js;
      r := Done(resources);
    }

    /** `GetResource`: only the "cluster" type is supported. */
    function GetResource(id: string, resourceType: string): (r: Outcome<Resource>)
      ensures resourceType != "cluster" ==> r == Errored(Unsupported + resourceType)
      ensures resourceType == "cluster" && client.cluster(id).Err? ==> r == Errored(ClusterFailed + client.cluster(id).cause)
      ensures r.Done? ==> resourceType == "cluster" && r.value.kind == "cluster" && client.cluster(id) == Ok(r.value.properties)
      ensures !r.Panicked?
    {
      if resourceType == "cluster" then
        match client.cluster(id)
        case Err(cause) => Errored(ClusterFailed + cause)
        case Ok(c) => Done(ClusterResource(c))
      else
        Errored(Unsupported + resourceType)
    }

    /** The filtering part of `handleGetContext`: an empty query is a bad
        request, a failed listing a server error, and otherwise the body
        holds the query and the resources whose name contains it. */
    method GetContext(query: string) returns (reply: Outcome<ContextReply>)
      ensures query == "" ==> reply == Done(HttpError(400, QueryRequired))
      ensures query != "" && Resources(client).Errored? ==>
        reply == Done(HttpError(500, ResourcesError + Resources(client).cause))
      ensures query != "" && Resources(client).Panicked? ==> reply == Panicked(Resources(client).reason)
      ensures query != "" && Resources(client).Done? ==>
        reply == Done(ContextBody(query, NamedLike(Resources(client).value, query)))
    {
      if query == "" {
        return Done(HttpError(400, QueryRequired));
      }
      var resources := GetResources();
      match resources
      case Errored(cause) =>
        return Done(HttpError(500, ResourcesError + cause));
      case Panicked(reason) =>
        return Panicked(reason);
      case Done(rs) =>
        var filtered: seq<Resource> := [];
        for i := 0 to |rs|
          invariant filtered == NamedLike(rs[..i], query)
        {
          assert rs[..i + 1][..i] == rs[..i];
          if rs[i].name.JString? && Contains(rs[i].name.s, query) {
            filtered := filtered + [rs[i]];
          }
        }
        assert rs[..|rs|] == rs;
        reply := Done(ContextBody(query, filtered));
    }
  }

  /** Once the job records fail on a prefix, they fail on every longer prefix. */
  lemma {:induction false} JobResourcesFailFrom(js: seq<Record>, n: nat)
    requires n <= |js| && JobResources(js[..n]).None?
    ensures JobResources(js).None?
    decreases |js| - n
  {
    if n < |js| {
      assert js[..n + 1][..n] == js[..n];
      JobResourcesFailFrom(js, n + 1);
    } else {
      assert js[..n] == js;
    }
  }

  /** `NewMCPProvider`: the base URL is checked before the token, and a
      missing one is rejected with the configuration untouched; otherwise a
      zero poll interval becomes 60 and a zero port 8080 in the caller's
      configuration, whether or not the client can then be built, and the
      provider keeps that same configuration. */
  method NewMcpProvider(config: Config, newClient: (string, string) -> Result<Api>) returns (r: Result<McpProvider>)
    modifies config
    ensures config.baseUrl == old(config.baseUrl) && config.token == old(config.token)
    ensures old(config.baseUrl) == "" ==> r == Err(BaseUrlRequired) && unchanged(config)
    ensures old(config.baseUrl) != "" && old(config.token) == "" ==> r == Err(TokenRequired) && unchanged(config)
    ensures old(config.baseUrl) != "" && old(config.token) != "" ==>
      && config.pollInterval == (if old(config.pollInterval) == 0 then DefaultPollInterval else old(config.pollInterval))
      && config.serverPort == (if old(config.serverPort) == 0 then DefaultServerPort else old(config.serverPort))
      && var built := newClient(config.baseUrl, config.token);
      && (built.Err? ==> r == Err(ClientFailed + built.cause))
      && (built.Ok? ==> r.Ok? && fresh(r.value) && r.value.config == config && r.value.client == built.value)
  {
    if config.baseUrl == "" {
      return Err(BaseUrlRequired);
    }
    if config.token == "" {
      return Err(TokenRequired);
    }
    if config.pollInterval == 0 {
      config.pollInterval := DefaultPollInterval;
    }
    if config.serverPort == 0 {
      config.serverPort := DefaultServerPort;
    }
    var built := newClient(config.baseUrl, config.token);
    if built.Err? {
      return Err(ClientFailed + built.cause);
    }
    var provider := new McpProvider(built.value, config);
    r := Ok(provider);
  }
}

/** The name mappings of constants/constants.go: the systemd service, the
    repository and the data directory an app name stands for, each an
    exception table with a default, and the reverse repository lookup. The
    tables are parameters; the ones the repository ships are empty. */
module Constants {
  import opened GoText

  /** The exception tables as shipped: all empty. */
  const ServiceNames: map<string, string> := map[]
  const RepoNames: map<string, string> := map[]
  const DataDirNames: map<string, string> := map[]

  const ServicePrefix := "nubeio-"
  const ServiceSuffix := ".service"

  /** `GetServiceNameFromAppName(app)`: the table's entry, or
      "nubeio-<app>.service". */
  function GetServiceNameFromAppName(services: map<string, string>, app: string): (r: string)
    ensures app in services ==> r == services[app]
    ensures app !in services ==> (HasPrefix(r, ServicePrefix)
      && |r| == |ServicePrefix| + |app| + |ServiceSuffix|
      && r[|ServicePrefix|..|r| - |ServiceSuffix|] == app
      && r[|r| - |ServiceSuffix|..] == ServiceSuffix)
  {
    if app in services then services[app] else ServicePrefix + app + ServiceSuffix
  }

  /** The default service name gives back the app name: no two unmapped
      apps share a service. */
  lemma ServiceNameInjective(services: map<string, string>, a: string, b: string)
    requires a !in services && b !in services
    requires GetServiceNameFromAppName(services, a) == GetServiceNameFromAppName(services, b)
    ensures a == b
  {
    var r := GetServiceNameFromAppName(services, a);
    assert a == r[|ServicePrefix|..|r| - |ServiceSuffix|] == b;
  }

  /** `GetRepoNameFromAppName(app)`: the table's entry, or the app name. */
  function GetRepoNameFromAppName(repos: map<string, string>, app: string): (r: string)
    ensures app in repos ==> r == repos[app]
    ensures app !in repos ==> r == app
  {
    if app in repos then repos[app] else app
  }

  /** `GetDataDirNameFromAppName(app)`: the table's entry, or the app name. */
  function GetDataDirNameFromAppName(dataDirs: map<string, string>, app: string): (r: string)
    ensures app in dataDirs ==> r == dataDirs[app]
    ensures app !in dataDirs ==> r == app
  {
    if app in dataDirs then dataDirs[app] else app
  }

  /** `GetAppNameFromRepoName(repo)`: some app the table maps to `repo` (in
      Go's unspecified map order), or `repo` itself when there is none. */
  method GetAppNameFromRepoName(repos: map<string, string>, repo: string) returns (r: string)
    ensures (exists k :: k in repos && repos[k] == repo) ==> r in repos && repos[r] == repo
    ensures (forall k :: k in repos ==> repos[k] != repo) ==> r == repo
  {
    var rest := repos.Keys;
    while rest != {}
      invariant rest <= repos.Keys
      invariant forall k :: k in repos && k !in rest ==> repos[k] != repo
      decreases |rest|
    {
      var k :| k in rest;
      if repos[k] == repo {
        return k;
      }
      rest := rest - {k};
    }
    return repo;
  }

  /** No two apps share a repository in `repos`. */
  predicate Injective(repos: map<string, string>)
  {
    forall a, b :: a in repos && b in repos && repos[a] == repos[b] ==> a == b
  }

  /** For an app the table names, with no two apps sharing a repository,
      the reverse lookup of its repository gives the app back. */
  method RepoRoundTrip(repos: map<string, string>, app: string) returns (back: string)
    requires Injective(repos) && app in repos
    ensures back == app
  {
    var repo := GetRepoNameFromAppName(repos, app);
    back := GetAppNameFromRepoName(repos, repo);
  }

  /** An app the table does not name can come back as another app: here
      "rubix" keeps its name as its repository, which "edge" is mapped to. */
  method UnmappedAppMovesOn() returns (back: string)
    ensures back == "edge"
  {
    var repos := map["edge" := "rubix"];
    var repo := GetRepoNameFromAppName(repos, "rubix");
    assert "edge" in repos && repos["edge"] == repo;
    back := GetAppNameFromRepoName(repos, repo);
  }

  /** With the tables as shipped, every app keeps its own name as its
      repository, its data directory and (inside "nubeio-" and ".service") its
      service, and every repository is its own app. */
  method ShippedMappings(app: string) returns (repo: string, dataDir: string, service: string, appBack: string)
    ensures repo == app && dataDir == app && appBack == app
    ensures service == ServicePrefix + app + ServiceSuffix
  {
    repo := GetRepoNameFromAppName(RepoNames, app);
    dataDir := GetDataDirNameFromAppName(DataDirNames, app);
    service := GetServiceNameFromAppName(ServiceNames, app);
    appBack := GetAppNameFromRepoName(RepoNames, app);
  }
}

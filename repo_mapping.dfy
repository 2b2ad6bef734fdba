/** The static table from source repository ("owner/repo") to its
    destination: issue-tracker project key, merge-request project id and
    clone endpoint (lambda/shared/repo.go). */
module RepoMapping {
  import opened Wrappers

  datatype RepositoryMapping = RepositoryMapping(
    jiraIssueKey: string,
    gitlabProjectId: int,
    gitlabCloneUrl: string
  )

  /** The table. A function without arguments: every use sees the same table. */
  function GetRepositoryMapping(): (m: map<string, RepositoryMapping>)
    ensures |m| == 4
  {
    var m := map[
      "shopware/platform" :=
        RepositoryMapping("NEXT", 1, "gitlab.shopware.com/shopware/6/product/platform.git"),
      "shopware/SwagPayPal" :=
        RepositoryMapping("PPI", 7, "gitlab.shopware.com:shopware/6/services/paypal.git"),
      "shopware/SwagMigrationConnector" :=
        RepositoryMapping("MIG", 102, "gitlab.shopware.com:shopware/5/services/swagmigrationconnector.git"),
      "shopware/SwagMigrationMagento" :=
        RepositoryMapping("MIG", 69, "gitlab.shopware.com/shopware/6/services/swagmigrationmagento.git")
    ];
    assert m.Keys == {"shopware/platform", "shopware/SwagPayPal",
                      "shopware/SwagMigrationConnector", "shopware/SwagMigrationMagento"};
    m
  }

  /** Map index with the `ok` flag: None for a repository not in the table. */
  function Lookup(fullName: string): (r: Option<RepositoryMapping>)
    ensures r.Some? <==> fullName in GetRepositoryMapping()
    ensures r.Some? ==> r.value == GetRepositoryMapping()[fullName]
  {
    var table := GetRepositoryMapping();
    if fullName in table then Some(table[fullName]) else None
  }

  /** The four repositories that can be imported, and no other. */
  lemma KnownRepositories()
    ensures GetRepositoryMapping().Keys ==
      {"shopware/platform", "shopware/SwagPayPal",
       "shopware/SwagMigrationConnector", "shopware/SwagMigrationMagento"}
  {
  }

  lemma UnknownRepositoryNotFound(fullName: string)
    requires fullName !in {"shopware/platform", "shopware/SwagPayPal",
                           "shopware/SwagMigrationConnector", "shopware/SwagMigrationMagento"}
    ensures Lookup(fullName) == None
  {
  }

  lemma PlatformMapping()
    ensures Lookup("shopware/platform") == Some(RepositoryMapping("NEXT", 1, "gitlab.shopware.com/shopware/6/product/platform.git"))
  {
  }

  /** Issue keys are shared: both migration repositories file into "MIG",
      into different merge-request projects. */
  lemma IssueKeyNotInjective()
    ensures Lookup("shopware/SwagMigrationConnector").Some?
    ensures Lookup("shopware/SwagMigrationMagento").Some?
    ensures Lookup("shopware/SwagMigrationConnector").value.jiraIssueKey == "MIG"
    ensures Lookup("shopware/SwagMigrationMagento").value.jiraIssueKey == "MIG"
    ensures Lookup("shopware/SwagMigrationConnector").value.gitlabProjectId == 102
    ensures Lookup("shopware/SwagMigrationMagento").value.gitlabProjectId == 69
  {
  }

  /** No two repositories merge into the same project. */
  lemma ProjectIdsDistinct(a: string, b: string)
    requires a in GetRepositoryMapping() && b in GetRepositoryMapping() && a != b
    ensures GetRepositoryMapping()[a].gitlabProjectId != GetRepositoryMapping()[b].gitlabProjectId
  {
    KnownRepositories();
  }
}

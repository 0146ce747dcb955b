/**
 * The secrets panel: a fixed list of Kubernetes secrets searched by name or
 * type, shown only on the 'Secret' sub-menu.
 */
module Security {
  import opened Text
  import opened Seqs

  datatype Secret = Secret(id: int, name: string, secretType: string, createdAt: string, lastUpdated: string)

  const Secrets: seq<Secret> := [
    Secret(1, "database-credentials", "Opaque", "2023-06-01", "2023-06-05"),
    Secret(2, "api-keys", "Opaque", "2023-06-02", "2023-06-02"),
    Secret(3, "tls-cert", "kubernetes.io/tls", "2023-06-03", "2023-06-04"),
    Secret(4, "docker-registry", "kubernetes.io/dockerconfigjson", "2023-06-04", "2023-06-04"),
    Secret(5, "service-account-token", "kubernetes.io/service-account-token", "2023-06-05", "2023-06-05")
  ]

  /** The search matches the name or the type, ignoring case. */
  predicate SecretMatches(s: Secret, term: string) {
    MatchesTerm(s.name, term) || MatchesTerm(s.secretType, term)
  }

  /** `filteredSecrets`: the secrets the term matches, in list order. */
  function FilteredSecrets(term: string): (r: seq<Secret>)
    ensures forall s :: s in r <==> s in Secrets && SecretMatches(s, term)
    ensures IsSubsequence(r, Secrets)
  {
    Filter(Secrets, s => SecretMatches(s, term))
  }

  /** The filtered list is the only order-preserving sub-list holding exactly the matching secrets. */
  lemma FilteredSecretsUnique(term: string, r: seq<Secret>)
    requires IsSubsequence(r, Secrets)
    requires forall s :: s in r ==> SecretMatches(s, term)
    requires forall s :: s in Secrets && SecretMatches(s, term) ==> s in r
    ensures r == FilteredSecrets(term)
  {
    FilterUnique(Secrets, s => SecretMatches(s, term), r);
  }

  /** An empty search lists all five secrets. */
  lemma EmptySearchShowsAll()
    ensures FilteredSecrets("") == Secrets
  {
    forall s | s in Secrets
      ensures SecretMatches(s, "")
    {
      EmptyTermMatches(s.name);
    }
    FilterKeepsAll(Secrets, s => SecretMatches(s, ""));
  }

  /** The secrets table and the "Create Secret" button appear only on the 'Secret' sub-menu. */
  function SecretsShown(activeSubMenu: string): (shown: bool)
    ensures shown <==> activeSubMenu == "Secret"
  {
    activeSubMenu == "Secret"
  }
}

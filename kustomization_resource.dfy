/**
 * The kustomization browser: a fixed list searched by name or path, a
 * list/detail switch driven by the selected record, and the owner's
 * initials shown in the avatar.
 */
module KustomizationResource {
  import opened Options
  import opened Text
  import opened Seqs

  /** The list fields of a kustomization record (source, resource counts and events are detail-only display data). */
  datatype Kustomization = Kustomization(
    id: int, name: string, path: string, validated: bool, owner: string, environments: seq<string>)

  const Kustomizations: seq<Kustomization> := [
    Kustomization(1, "argocd", "./overlays/production", true, "DevOps Team", ["SIT", "UAT", "PRD"]),
    Kustomization(2, "argo-workflows", "./overlays/staging", true, "Platform Team", ["SIT", "UAT"]),
    Kustomization(3, "fluent-operator", "./base", true, "Logging Team", ["SIT1", "UAT"]),
    Kustomization(4, "vault", "./overlays/vault", true, "Security Team", ["SIT", "SIT1", "UAT", "PRD"]),
    Kustomization(5, "loki", "./overlays/monitoring", true, "Monitoring Team", ["SIT", "UAT", "PRD"]),
    Kustomization(6, "eck-operator", "./overlays/elastic", false, "Platform Team", ["SIT", "UAT"])
  ]

  /** The search matches the name or the path, ignoring case; the owner is not searched. */
  predicate KustomizationMatches(k: Kustomization, term: string) {
    MatchesTerm(k.name, term) || MatchesTerm(k.path, term)
  }

  /** `filteredKustomizations`: the records the term matches, in list order. */
  function FilteredKustomizations(term: string): (r: seq<Kustomization>)
    ensures forall k :: k in r ==> k in Kustomizations && KustomizationMatches(k, term)
    ensures forall k :: k in Kustomizations && KustomizationMatches(k, term) ==> k in r
    ensures IsSubsequence(r, Kustomizations)
  {
    Filter(Kustomizations, k => KustomizationMatches(k, term))
  }

  /** The filtered list is the only order-preserving sub-list holding exactly the matching records. */
  lemma FilteredKustomizationsUnique(term: string, r: seq<Kustomization>)
    requires IsSubsequence(r, Kustomizations)
    requires forall k :: k in r ==> KustomizationMatches(k, term)
    requires forall k :: k in Kustomizations && KustomizationMatches(k, term) ==> k in r
    ensures r == FilteredKustomizations(term)
  {
    FilterUnique(Kustomizations, k => KustomizationMatches(k, term), r);
  }

  /** An empty search lists every kustomization. */
  lemma EmptySearchShowsAll()
    ensures FilteredKustomizations("") == Kustomizations
  {
    forall k | k in Kustomizations
      ensures KustomizationMatches(k, "")
    {
      EmptyTermMatches(k.name);
    }
    FilterKeepsAll(Kustomizations, k => KustomizationMatches(k, ""));
  }

  /**
   * The search box invites owners, but owners are not searched: "platform"
   * matches the owner of two records and yet lists nothing.
   */
  lemma OwnerIsNotSearched()
    ensures MatchesTerm(Kustomizations[1].owner, "platform")
    ensures FilteredKustomizations("platform") == []
  {
    PlatformTeamMatches();
    forall i | 0 <= i < |Kustomizations|
      ensures !KustomizationMatches(Kustomizations[i], "platform")
    {
      RecordMissesPlatform(i);
    }
    FilterKeepsNone(Kustomizations, k => KustomizationMatches(k, "platform"));
  }

  lemma PlatformTeamMatches()
    ensures MatchesTerm("Platform Team", "platform")
  {
    PrefixMatches("Platform Team", "platform");
  }

  /** Every name and path lacks the letter 'm' of "platform", except the loki record, which lacks its 'f'. */
  lemma RecordMissesPlatform(i: int)
    requires 0 <= i < |Kustomizations|
    ensures !KustomizationMatches(Kustomizations[i], "platform")
  {
    ListedNamesAndPaths();
    NamesAndPathsMissPlatform();
  }

  lemma ListedNamesAndPaths()
    ensures Kustomizations[0].name == "argocd" && Kustomizations[0].path == "./overlays/production"
    ensures Kustomizations[1].name == "argo-workflows" && Kustomizations[1].path == "./overlays/staging"
    ensures Kustomizations[2].name == "fluent-operator" && Kustomizations[2].path == "./base"
    ensures Kustomizations[3].name == "vault" && Kustomizations[3].path == "./overlays/vault"
    ensures Kustomizations[4].name == "loki" && Kustomizations[4].path == "./overlays/monitoring"
    ensures Kustomizations[5].name == "eck-operator" && Kustomizations[5].path == "./overlays/elastic"
  {
  }

  lemma NamesAndPathsMissPlatform()
    ensures !MatchesTerm("argocd", "platform") && !MatchesTerm("./overlays/production", "platform")
    ensures !MatchesTerm("argo-workflows", "platform") && !MatchesTerm("./overlays/staging", "platform")
    ensures !MatchesTerm("fluent-operator", "platform") && !MatchesTerm("./base", "platform")
    ensures !MatchesTerm("vault", "platform") && !MatchesTerm("./overlays/vault", "platform")
    ensures !MatchesTerm("loki", "platform") && !MatchesTerm("./overlays/monitoring", "platform")
    ensures !MatchesTerm("eck-operator", "platform") && !MatchesTerm("./overlays/elastic", "platform")
  {
    FirstRecordsMissPlatform();
    MiddleRecordsMissPlatform();
    LastRecordsMissPlatform();
  }

  lemma FirstRecordsMissPlatform()
    ensures !MatchesTerm("argocd", "platform") && !MatchesTerm("./overlays/production", "platform")
    ensures !MatchesTerm("argo-workflows", "platform") && !MatchesTerm("./overlays/staging", "platform")
  {
    MissesAt("argocd", "./overlays/production", 7);
    MissesAt("argo-workflows", "./overlays/staging", 7);
  }

  lemma MiddleRecordsMissPlatform()
    ensures !MatchesTerm("fluent-operator", "platform") && !MatchesTerm("./base", "platform")
    ensures !MatchesTerm("vault", "platform") && !MatchesTerm("./overlays/vault", "platform")
  {
    MissesAt("fluent-operator", "./base", 7);
    MissesAt("vault", "./overlays/vault", 7);
  }

  lemma LastRecordsMissPlatform()
    ensures !MatchesTerm("loki", "platform") && !MatchesTerm("./overlays/monitoring", "platform")
    ensures !MatchesTerm("eck-operator", "platform") && !MatchesTerm("./overlays/elastic", "platform")
  {
    MissesAt("loki", "./overlays/monitoring", 4);
    MissesAt("eck-operator", "./overlays/elastic", 7);
  }

  /** Neither name nor path holds the letter at `pos` of "platform", in either case. */
  lemma MissesAt(name: string, path: string, pos: int)
    requires 0 <= pos < 8
    requires "platform"[pos] !in name && "platform"[pos] !in path
    requires ("platform"[pos] as int - 32) as char !in name && ("platform"[pos] as int - 32) as char !in path
    ensures !MatchesTerm(name, "platform") && !MatchesTerm(path, "platform")
  {
    var c := "platform"[pos];
    LacksLetter(name, c);
    LacksLetter(path, c);
    MissingLetterNoMatch(name, "platform", pos);
    MissingLetterNoMatch(path, "platform", pos);
  }

  /** `s` holds neither case of the lower-case letter `c`. */
  lemma LacksLetter(s: string, c: char)
    requires 'a' <= c <= 'z'
    requires c !in s && (c as int - 32) as char !in s
    ensures forall j :: 0 <= j < |s| ==> LowerChar(s[j]) != c
  {
  }

  /** The first character of a word, or nothing for an empty word (`n[0]` is `undefined`, which `join` prints as ""). */
  function FirstChar(word: string): (r: string)
    ensures word == [] ==> r == []
    ensures word != [] ==> r == [word[0]]
  {
    if word == [] then [] else [word[0]]
  }

  /** The first characters of the non-empty words, in order. */
  function ConcatFirstChars(words: seq<string>): (r: string)
    ensures |r| <= |words|
    ensures forall j :: 0 <= j < |r| ==> exists i :: 0 <= i < |words| && |words[i]| > 0 && r[j] == words[i][0]
  {
    if words == [] then []
    else
      var rest := ConcatFirstChars(words[1..]);
      var r := FirstChar(words[0]) + rest;
      assert forall j :: |FirstChar(words[0])| <= j < |r| ==> r[j] == rest[j - |FirstChar(words[0])|];
      r
  }

  /** `owner.split(' ').map(n => n[0]).join('')`: the first character of each space-separated word. */
  function Initials(owner: string): (r: string)
    ensures |r| <= |Split(owner, ' ')|
    ensures forall j :: 0 <= j < |r| ==> r[j] in owner && r[j] != ' '
  {
    ConcatFirstChars(Split(owner, ' '))
  }

  /**
   * The characters of `s` that begin a word: not a space, and either first
   * (when `atStart`) or right after a space. Runs of spaces, and spaces at
   * either end, begin nothing.
   */
  function WordStarts(s: string, atStart: bool): string {
    if s == [] then []
    else (if atStart && s[0] != ' ' then [s[0]] else []) + WordStarts(s[1..], s[0] == ' ')
  }

  /** The initials of any owner are its word-starting characters, in order, whatever its spacing. */
  lemma InitialsAreWordStarts(owner: string)
    ensures Initials(owner) == WordStarts(owner, true)
  {
    WordStartsOfPieces(owner);
  }

  lemma {:induction false} WordStartsOfPieces(s: string)
    ensures WordStarts(s, true) == ConcatFirstChars(Split(s, ' '))
    ensures WordStarts(s, false) == ConcatFirstChars(Split(s, ' ')[1..])
  {
    if s != [] {
      var rest := Split(s[1..], ' ');
      WordStartsOfPieces(s[1..]);
      if s[0] == ' ' {
        assert Split(s, ' ') == [""] + rest;
        assert ([""] + rest)[1..] == rest;
      } else {
        var pieces := [[s[0]] + rest[0]] + rest[1..];
        assert Split(s, ' ') == pieces;
        assert pieces[1..] == rest[1..];
      }
    }
  }

  /** For words without spaces joined by single spaces, the initials are the words' first letters in order. */
  lemma {:induction false} InitialsOfWords(words: seq<string>)
    requires |words| >= 1
    requires forall i :: 0 <= i < |words| ==> words[i] != [] && ' ' !in words[i]
    ensures Initials(Join(words, ' ')) == seq(|words|, i requires 0 <= i < |words| => words[i][0])
  {
    SplitJoin(words, ' ');
    FirstCharsOf(words);
  }

  lemma {:induction false} FirstCharsOf(words: seq<string>)
    requires forall i :: 0 <= i < |words| ==> words[i] != []
    ensures ConcatFirstChars(words) == seq(|words|, i requires 0 <= i < |words| => words[i][0])
  {
    if words != [] {
      FirstCharsOf(words[1..]);
    }
  }

  /** 'DevOps Team' shows as 'DT'. */
  lemma DevOpsTeamInitials()
    ensures Initials("DevOps Team") == "DT"
  {
    var words := ["DevOps", "Team"];
    assert Join(words, ' ') == "DevOps Team";
    InitialsOfWords(words);
  }

  /** What the component shows. */
  datatype View = ListView(rows: seq<Kustomization>) | DetailView(record: Kustomization)

  /** The component's state: the search term and the selected record, if any. */
  class KustomizationResourceState {
    var searchTerm: string
    var selected: Option<Kustomization>

    constructor ()
      ensures searchTerm == "" && selected == None
    {
      searchTerm, selected := "", None;
    }

    /** The detail view shows exactly when a record is selected; otherwise the filtered list. */
    function CurrentView(): (v: View)
      reads this
      ensures v.DetailView? <==> selected.Some?
      ensures v.DetailView? ==> v.record == selected.value
      ensures v.ListView? ==> v.rows == FilteredKustomizations(searchTerm)
    {
      match selected
      case Some(k) => DetailView(k)
      case None => ListView(FilteredKustomizations(searchTerm))
    }

    method SetSearchTerm(term: string)
      modifies this`searchTerm
      ensures searchTerm == term && selected == old(selected)
    {
      searchTerm := term;
    }

    /** Clicking a name opens that record's detail view. */
    method Select(k: Kustomization)
      modifies this`selected
      ensures selected == Some(k) && searchTerm == old(searchTerm)
      ensures CurrentView() == DetailView(k)
    {
      selected := Some(k);
    }

    /** "Back to List" clears the selection and keeps the search term. */
    method Back()
      modifies this`selected
      ensures selected == None && searchTerm == old(searchTerm)
      ensures CurrentView() == ListView(FilteredKustomizations(searchTerm))
    {
      selected := None;
    }
  }

  /** Opening a record and going back restores the list exactly as it was, filter included. */
  method OpenThenBack(s: KustomizationResourceState, k: Kustomization)
    requires s.selected == None
    modifies s
    ensures s.searchTerm == old(s.searchTerm)
    ensures s.CurrentView() == old(s.CurrentView())
  {
    s.Select(k);
    s.Back();
  }
}

/**
 * The stand-alone "Deploy to Kubernetes" page: a five-field draft and a
 * single simulated repository check, which an edit of the repository URL
 * clears. The check's random draw is a parameter.
 */
module DeployPage {
  import opened Options
  import opened Validation

  /** The fields the page's inputs name. */
  datatype Field = RepoUrl | SecretId | Cpu | Memory | Storage

  datatype Draft = Draft(repoUrl: string, secretId: string, cpu: string, memory: string, storage: string) {
    function Get(f: Field): string {
      match f
      case RepoUrl => repoUrl
      case SecretId => secretId
      case Cpu => cpu
      case Memory => memory
      case Storage => storage
    }

    /** `{ ...prev, [name]: value }`: the named field replaced, every other field kept. */
    function With(f: Field, value: string): (d: Draft)
      ensures d.Get(f) == value
      ensures forall g :: g != f ==> d.Get(g) == Get(g)
    {
      match f
      case RepoUrl => this.(repoUrl := value)
      case SecretId => this.(secretId := value)
      case Cpu => this.(cpu := value)
      case Memory => this.(memory := value)
      case Storage => this.(storage := value)
    }
  }

  const EmptyDraft: Draft := Draft("", "", "", "", "")

  /** The status after an edit: an edit of the repository URL forgets the last check, any other edit keeps it. */
  function StatusAfterEdit(name: Field, status: Status): (s: Status)
    ensures name == RepoUrl ==> s.Unchecked?
    ensures name != RepoUrl ==> s == status
  {
    if name == RepoUrl then Unchecked else status
  }

  /** The message under the URL: present only for a finished check. */
  function Message(status: Status): (m: Option<string>)
    ensures m.Some? <==> status.IsResult()
    ensures status.Success? ==> m == Some("Valid repository")
    ensures status.Failure? ==> m == Some("Invalid repository")
  {
    match status
    case Success => Some("Valid repository")
    case Failure => Some("Invalid repository")
    case _ => None
  }

  /** An edit of the URL after a check has finished removes its message. */
  lemma UrlEditClearsMessage(status: Status)
    ensures Message(StatusAfterEdit(RepoUrl, status)).None?
  {
  }

  /** The page's state. */
  class DeployForm {
    var useVault: bool
    var form: Draft
    var status: Status

    constructor ()
      ensures !useVault && form == EmptyDraft && status == Unchecked
    {
      useVault, form, status := false, EmptyDraft, Unchecked;
    }

    /** `handleInputChange`: the named field changes; a new repository URL also clears the check. */
    method HandleInputChange(name: Field, value: string)
      modifies this`form, this`status
      ensures form == old(form).With(name, value)
      ensures status == StatusAfterEdit(name, old(status))
    {
      form := form.With(name, value);
      if name == RepoUrl {
        status := Unchecked;
      }
    }

    /** The secret select: only `secretId` changes, and the check stays. */
    method SelectSecret(value: string)
      modifies this`form
      ensures form == old(form).(secretId := value)
      ensures status == old(status)
    {
      form := form.(secretId := value);
    }

    method SetUseVault(checked: bool)
      modifies this`useVault
      ensures useVault == checked
    {
      useVault := checked;
    }

    /** `handleSubmit`: hands over the draft and changes nothing. */
    method HandleSubmit() returns (submitted: Draft)
      ensures submitted == form
    {
      submitted := form;
    }

    /** The first half of `validateRepo`. */
    method StartValidation()
      modifies this`status
      ensures status == Loading
      ensures !ValidateEnabled()
    {
      status := Loading;
    }

    /** The second half of `validateRepo`, after the delay: 'success' or 'error' from one random draw. */
    method FinishValidation(passed: bool)
      modifies this`status
      ensures status == Outcome(passed)
    {
      status := Outcome(passed);
    }

    /** `validateRepo` as one step: the status ends as 'success' or 'error' and the draft is untouched. */
    method ValidateRepo(passed: bool)
      modifies this`status
      ensures status.IsResult() && (status.Success? <==> passed)
      ensures form == old(form)
      ensures ValidateEnabled() <==> form.repoUrl != ""
    {
      StartValidation();
      FinishValidation(passed);
    }

    /** The Validate button is enabled with a repository URL and no check in progress. */
    function ValidateEnabled(): (enabled: bool)
      reads this
      ensures enabled <==> |form.repoUrl| > 0 && status != Loading
    {
      form.repoUrl != "" && !status.Loading?
    }
  }

  /**
   * The pending check is not cancelled by an edit: a URL typed while the
   * check runs clears the status, and the delayed result then lands on the
   * new URL, which was never checked.
   */
  method EditDuringCheck(p: DeployForm, url: string, passed: bool)
    modifies p
    ensures p.form == old(p.form).With(RepoUrl, url)
    ensures Message(p.status) == Some(if passed then "Valid repository" else "Invalid repository")
  {
    p.StartValidation();
    p.HandleInputChange(RepoUrl, url);
    p.FinishValidation(passed);
  }
}

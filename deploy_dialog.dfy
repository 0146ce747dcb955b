/**
 * The "Deploy to H4" dialog: a draft of the deployment form edited one
 * field at a time, a simulated three-part repository check, and the flags
 * derived from them. The three random draws of a check are parameters.
 */
module DeployDialog {
  import opened Validation

  /** The text fields the form's inputs and selects name. */
  datatype Field = RepoUrl | SecretId | Cpu | Memory | Storage | Target

  datatype FormData = FormData(
    repoUrl: string, secretId: string, cpu: string, memory: string,
    storage: string, target: string, autoSync: bool)
  {
    function Get(f: Field): string {
      match f
      case RepoUrl => repoUrl
      case SecretId => secretId
      case Cpu => cpu
      case Memory => memory
      case Storage => storage
      case Target => target
    }

    /** `{ ...prev, [name]: value }`: the named field replaced, every other field kept. */
    function With(f: Field, value: string): (d: FormData)
      ensures d.Get(f) == value
      ensures forall g :: g != f ==> d.Get(g) == Get(g)
      ensures d.autoSync == autoSync
    {
      match f
      case RepoUrl => this.(repoUrl := value)
      case SecretId => this.(secretId := value)
      case Cpu => this.(cpu := value)
      case Memory => this.(memory := value)
      case Storage => this.(storage := value)
      case Target => this.(target := value)
    }
  }

  /** A form is determined by its six text fields and its check box. */
  lemma {:induction false} FormDataExtensional(a: FormData, b: FormData)
    requires forall f :: a.Get(f) == b.Get(f)
    requires a.autoSync == b.autoSync
    ensures a == b
  {
    assert a.Get(RepoUrl) == b.Get(RepoUrl) && a.Get(SecretId) == b.Get(SecretId);
    assert a.Get(Cpu) == b.Get(Cpu) && a.Get(Memory) == b.Get(Memory);
    assert a.Get(Storage) == b.Get(Storage) && a.Get(Target) == b.Get(Target);
  }

  /** Writing a field back with its own value changes nothing. */
  lemma WithOwnValue(d: FormData, f: Field)
    ensures d.With(f, d.Get(f)) == d
  {
    FormDataExtensional(d.With(f, d.Get(f)), d);
  }

  /** The later of two edits to one field wins. */
  lemma WithOverwrites(d: FormData, f: Field, a: string, b: string)
    ensures d.With(f, a).With(f, b) == d.With(f, b)
  {
    FormDataExtensional(d.With(f, a).With(f, b), d.With(f, b));
  }

  /** Edits to different fields commute. */
  lemma WithCommutes(d: FormData, f: Field, g: Field, a: string, b: string)
    requires f != g
    ensures d.With(f, a).With(g, b) == d.With(g, b).With(f, a)
  {
    FormDataExtensional(d.With(f, a).With(g, b), d.With(g, b).With(f, a));
  }

  const InitialForm: FormData := FormData("", "", "1000m", "1024M", "0G", "", false)

  /** The three parts of a check: `item1`, `item2` and `item3`. */
  datatype Statuses = Statuses(item1: Status, item2: Status, item3: Status) {
    /** `Object.values(validationStatus).some(status => status !== null)`. */
    predicate AnyChecked() {
      !this.item1.Unchecked? || !this.item2.Unchecked? || !this.item3.Unchecked?
    }

    predicate AllResults() {
      this.item1.IsResult() && this.item2.IsResult() && this.item3.IsResult()
    }
  }

  const NoStatuses := Statuses(Unchecked, Unchecked, Unchecked)
  const AllLoading := Statuses(Loading, Loading, Loading)

  /** The dialog's state. */
  class DeployApp {
    var open: bool
    var useVault: bool
    var form: FormData
    var statuses: Statuses
    var isValidating: bool

    constructor ()
      ensures !open && !useVault && !isValidating
      ensures form == InitialForm && statuses == NoStatuses
    {
      open, useVault, isValidating := false, false, false;
      form, statuses := InitialForm, NoStatuses;
    }

    /** `handleInputChange`: only the named field changes; the check's statuses stay as they are. */
    method HandleInputChange(name: Field, value: string)
      modifies this`form
      ensures form == old(form).With(name, value)
      ensures statuses == old(statuses) && isValidating == old(isValidating)
    {
      form := form.With(name, value);
    }

    /** `handleSelectChange`: the same update, for the secret and target selects. */
    method HandleSelectChange(name: Field, value: string)
      modifies this`form
      ensures form == old(form).With(name, value)
      ensures statuses == old(statuses) && isValidating == old(isValidating)
    {
      HandleInputChange(name, value);
    }

    /** The auto-sync check box. */
    method SetAutoSync(checked: bool)
      modifies this`form
      ensures form == old(form).(autoSync := checked)
    {
      form := form.(autoSync := checked);
    }

    /** The "Use Vault for secrets" check box, which shows the secret select. */
    method SetUseVault(checked: bool)
      modifies this`useVault
      ensures useVault == checked
    {
      useVault := checked;
    }

    /** The Create button, the Cancel button and the dialog's own close control. */
    method SetOpen(value: bool)
      modifies this`open
      ensures open == value
    {
      open := value;
    }

    /** `handleSubmit`: close the dialog and hand over the draft, which is not reset. */
    method HandleSubmit() returns (submitted: FormData)
      modifies this`open
      ensures !open
      ensures submitted == form && form == old(form)
    {
      submitted := form;
      open := false;
    }

    /** The first half of `validateRepo`: all three parts loading. */
    method StartValidation()
      modifies this`isValidating, this`statuses
      ensures isValidating && statuses == AllLoading
      ensures ShowValidationResults()
    {
      isValidating := true;
      statuses := AllLoading;
    }

    /** The second half of `validateRepo`, after the delay: one random draw per part. */
    method FinishValidation(draw1: bool, draw2: bool, draw3: bool)
      modifies this`isValidating, this`statuses
      ensures !isValidating
      ensures statuses == Statuses(Outcome(draw1), Outcome(draw2), Outcome(draw3))
      ensures statuses.AllResults() && ShowValidationResults()
    {
      statuses := Statuses(Outcome(draw1), Outcome(draw2), Outcome(draw3));
      isValidating := false;
    }

    /** `validateRepo` as one step: every part ends as 'success' or 'error' and the results stay shown. */
    method ValidateRepo(draw1: bool, draw2: bool, draw3: bool)
      modifies this`isValidating, this`statuses
      ensures !isValidating && statuses.AllResults()
      ensures statuses.item1.Success? <==> draw1
      ensures statuses.item2.Success? <==> draw2
      ensures statuses.item3.Success? <==> draw3
      ensures ShowValidationResults()
      ensures form == old(form)
    {
      StartValidation();
      FinishValidation(draw1, draw2, draw3);
    }

    /** The result list is shown while a check runs and, once any part has a status, from then on. */
    function ShowValidationResults(): (shown: bool)
      reads this
      ensures statuses.AllResults() ==> shown
      ensures !shown <==> !isValidating && statuses == NoStatuses
    {
      isValidating || statuses.AnyChecked()
    }

    /** The Validate button is enabled with a repository URL and no check running. */
    function ValidateEnabled(): (enabled: bool)
      reads this
      ensures enabled <==> |form.repoUrl| > 0 && !isValidating
    {
      form.repoUrl != "" && !isValidating
    }
  }
}

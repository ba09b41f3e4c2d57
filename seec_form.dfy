/**
 * The SEEC Individual Contributor Form page: the form record and its
 * `handleInputChange` reducer, and `handleSubmit`, which sends both e-mails,
 * stores the submission snapshot and moves on to the thank-you page whatever
 * the e-mails' results.
 */
module SeecForm {
  import opened Wrappers
  import opened JsStrings
  import opened JsNumbers
  import opened Seqs
  import opened SeecRecord
  import opened BrowserStorage
  import opened EmailService

  // ------------------------------------------------------------------
  // fields and change events

  /** The form's input names. */
  datatype SeecField =
    | FirstName | Initial | LastName | Email | Phone | Donation
    | Street | City | State | Zip | Under18 | Age | Employer | Occupation
    | Lobbyist | Spouse | Elected | Contractor | Branch | ContractorOfficial
    | CasHolder | Signature

  /** The fields holding text: every field but the amount, the under-18 box and the branch list. */
  predicate IsTextField(name: SeecField) {
    !(name.Donation? || name.Under18? || name.Branch?)
  }

  /** The value of one field, whatever its type. */
  datatype FieldValue = Text(text: string) | Amount(amount: Number) | Flag(flag: bool) | Items(items: seq<string>)

  /** `formData[name]`. */
  function Get(f: SeecFormData, name: SeecField): FieldValue {
    match name
    case FirstName => Text(f.firstName)
    case Initial => Text(f.initial)
    case LastName => Text(f.lastName)
    case Email => Text(f.email)
    case Phone => Text(f.phone)
    case Donation => Amount(f.donation)
    case Street => Text(f.street)
    case City => Text(f.city)
    case State => Text(f.state)
    case Zip => Text(f.zip)
    case Under18 => Flag(f.under18)
    case Age => Text(f.age)
    case Employer => Text(f.employer)
    case Occupation => Text(f.occupation)
    case Lobbyist => Text(f.lobbyist)
    case Spouse => Text(f.spouse)
    case Elected => Text(f.elected)
    case Contractor => Text(f.contractor)
    case Branch => Items(f.branches)
    case ContractorOfficial => Text(f.contractorOfficial)
    case CasHolder => Text(f.casHolder)
    case Signature => Text(f.signature)
  }

  /** `{ ...formData, [name]: value }` for a text field. */
  function SetText(f: SeecFormData, name: SeecField, value: string): (r: SeecFormData)
    requires IsTextField(name)
    ensures Get(r, name) == Text(value)
    ensures forall g :: g != name ==> Get(r, g) == Get(f, g)
  {
    match name
    case FirstName => f.(firstName := value)
    case Initial => f.(initial := value)
    case LastName => f.(lastName := value)
    case Email => f.(email := value)
    case Phone => f.(phone := value)
    case Street => f.(street := value)
    case City => f.(city := value)
    case State => f.(state := value)
    case Zip => f.(zip := value)
    case Age => f.(age := value)
    case Employer => f.(employer := value)
    case Occupation => f.(occupation := value)
    case Lobbyist => f.(lobbyist := value)
    case Spouse => f.(spouse := value)
    case Elected => f.(elected := value)
    case Contractor => f.(contractor := value)
    case ContractorOfficial => f.(contractorOfficial := value)
    case CasHolder => f.(casHolder := value)
    case Signature => f.(signature := value)
  }

  /** The `type` of the input that fired: checkboxes, the number input, and the text, e-mail, tel and radio inputs. */
  datatype InputType = Checkbox | NumberInput | OtherInput

  /** What `handleInputChange` reads from `e.target`. */
  datatype ChangeEvent = ChangeEvent(name: SeecField, value: string, inputType: InputType, checked: bool)

  /**
   * The events the form's controls fire: the amount comes from the number
   * input, whose value the browser keeps empty or a valid floating-point
   * number (`25`, `25.5`, `25.50`, `1e1`, ...), which `Number` reads; the
   * under-18 box and the branches come from checkboxes, and only the amount
   * from the number input.
   */
  predicate WellTyped(e: ChangeEvent) {
    (e.name.Donation? <==> e.inputType.NumberInput?)
    && (e.name.Donation? ==> NumberValue(e.value).Some?)
    && (e.name.Under18? || e.name.Branch? ==> e.inputType.Checkbox?)
  }

  /**
   * `handleInputChange` as a function of the record: a checked branch is
   * appended, an unchecked one removed wherever it occurs, the under-18 box
   * takes its checked state, the number input its `Number(value)`, and every
   * other control its text; all other fields keep their values.
   */
  function ApplyChange(f: SeecFormData, e: ChangeEvent): (r: SeecFormData)
    requires WellTyped(e)
    ensures forall g :: g != e.name ==> Get(r, g) == Get(f, g)
    ensures e.name.Branch? && e.checked ==> r.branches == f.branches + [e.value]
    ensures e.name.Branch? && !e.checked ==> r.branches == RemoveAll(f.branches, e.value)
    ensures e.name.Under18? ==> r.under18 == e.checked
    ensures e.name.Donation? ==> Some(r.donation) == NumberValue(e.value)
    ensures IsTextField(e.name) ==> Get(r, e.name) == Text(e.value)
  {
    if e.inputType.Checkbox? then
      if e.name.Branch? then
        var b := if e.checked then f.branches + [e.value] else RemoveAll(f.branches, e.value);
        BranchesOnly(f, b);
        f.(branches := b)
      else if e.name.Under18? then
        Under18Only(f, e.checked);
        f.(under18 := e.checked)
      else SetText(f, e.name, e.value)
    else if e.inputType.NumberInput? then
      var x := NumberValue(e.value).value;
      DonationOnly(f, x);
      f.(donation := x)
    else SetText(f, e.name, e.value)
  }

  /** Replacing the branches changes no other field. */
  lemma BranchesOnly(f: SeecFormData, b: seq<string>)
    ensures forall g :: g != Branch ==> Get(f.(branches := b), g) == Get(f, g)
  {
  }

  /** Setting the under-18 box changes no other field. */
  lemma Under18Only(f: SeecFormData, c: bool)
    ensures forall g :: g != Under18 ==> Get(f.(under18 := c), g) == Get(f, g)
  {
  }

  /** Setting the amount changes no other field. */
  lemma DonationOnly(f: SeecFormData, x: Number)
    ensures forall g :: g != Donation ==> Get(f.(donation := x), g) == Get(f, g)
  {
  }

  /**
   * A fractional amount typed into the number input is kept as typed, with
   * trailing zeros and exponents read as `Number` reads them; it is not a
   * valid donation, so the form cannot be submitted with it.
   */
  lemma FractionalAmountKept(f: SeecFormData)
    ensures NumberValue("25.5") == Some(Exact(255, 1))
      && var r := ApplyChange(f, ChangeEvent(Donation, "25.5", NumberInput, false));
      r.donation == Exact(255, 1) && !ValidDonation(r.donation)
    ensures NumberValue("25.50") == Some(Exact(255, 1))
      && ApplyChange(f, ChangeEvent(Donation, "25.50", NumberInput, false)).donation == Exact(255, 1)
    ensures NumberValue("1e1") == Some(Whole(10))
      && ApplyChange(f, ChangeEvent(Donation, "1e1", NumberInput, false)).donation == Whole(10)
  {
    AmountTexts();
    AmountTyped(f, "25.5", Exact(255, 1));
    AmountTyped(f, "25.50", Exact(255, 1));
    AmountTyped(f, "1e1", Whole(10));
  }

  /** The amount the number input's text reads as is the amount the record keeps. */
  lemma AmountTyped(f: SeecFormData, text: string, x: Number)
    requires NumberValue(text) == Some(x)
    ensures ApplyChange(f, ChangeEvent(Donation, text, NumberInput, false)).donation == x
  {
  }

  /** The decimal text of a whole amount sets that amount. */
  lemma WholeAmountTyped(f: SeecFormData, n: int)
    ensures NumberValue(IntToString(n)) == Some(Whole(n))
      && ApplyChange(f, ChangeEvent(Donation, IntToString(n), NumberInput, false)).donation == Whole(n)
  {
    NumberValueOfIntToString(n);
    AmountTyped(f, IntToString(n), Whole(n));
  }

  /** A whole amount can be submitted exactly when it is 5 to 2000 in steps of 5; a fraction never can. */
  lemma ValidDonationWhole(x: Number)
    ensures ValidDonation(x) <==> x.scale == 0 && 5 <= x.units <= 2000 && x.units % 5 == 0
  {
  }

  /** Checking a branch that is not in the list and unchecking it again restores the record. */
  lemma BranchCheckUncheck(f: SeecFormData, branch: string)
    requires branch !in f.branches
    ensures var checkedRecord := ApplyChange(f, ChangeEvent(Branch, branch, Checkbox, true));
      ApplyChange(checkedRecord, ChangeEvent(Branch, branch, Checkbox, false)) == f
  {
    RemoveAppended(f.branches, branch);
  }

  /** Setting a text field twice keeps only the second value: the reducer does not accumulate. */
  lemma TextChangeOverwrites(f: SeecFormData, name: SeecField, first: string, second: string)
    requires IsTextField(name)
    ensures ApplyChange(ApplyChange(f, ChangeEvent(name, first, OtherInput, false)), ChangeEvent(name, second, OtherInput, false))
      == ApplyChange(f, ChangeEvent(name, second, OtherInput, false))
  {
    match name
    case FirstName =>
    case Initial =>
    case LastName =>
    case Email =>
    case Phone =>
    case Street =>
    case City =>
    case State =>
    case Zip =>
    case Age =>
    case Employer =>
    case Occupation =>
    case Lobbyist =>
    case Spouse =>
    case Elected =>
    case Contractor =>
    case ContractorOfficial =>
    case CasHolder =>
    case Signature =>
  }

  /** The record the page starts from: an amount of 5, every text empty, no branch and the box unchecked. */
  lemma InitialRecord(g: SeecField)
    ensures Get(InitialSeecForm, g) == match g
      case Donation => Amount(Whole(5))
      case Under18 => Flag(false)
      case Branch => Items([])
      case _ => Text("")
  {
  }

  // ------------------------------------------------------------------
  // submission

  /** The observable steps of `handleSubmit`, in order. */
  datatype SubmitStep =
    | NotifyAdmin(recipients: seq<string>, result: SendResult)
    | ConfirmDonor(to: string, result: SendResult)
    | Redirect(path: string)

  const SubmitErrorMessage: string := "There was an error processing your form. Please try again."

  class SeecFormPage {
    var formData: SeecFormData
    var isSubmitting: bool
    var submitMessage: string

    constructor ()
      ensures formData == InitialSeecForm && !isSubmitting && submitMessage == ""
    {
      formData := InitialSeecForm;
      isSubmitting := false;
      submitMessage := "";
    }

    /** `handleInputChange(e)`: one field of the record changes, nothing else on the page. */
    method HandleInputChange(e: ChangeEvent)
      requires WellTyped(e)
      modifies this
      ensures formData == ApplyChange(old(formData), e)
      ensures isSubmitting == old(isSubmitting) && submitMessage == old(submitMessage)
    {
      formData := ApplyChange(formData, e);
    }

    /**
     * `handleSubmit`: both e-mails are attempted, the admin notification first,
     * and their failure (`adminFault`, `donorFault`) does not stop the flow; the
     * snapshot is stored with the two success flags and the page redirects to
     * `/thankyou`. Only a failing storage write (`writeFails`) is caught: the
     * error message is shown, submitting ends and there is no redirect.
     */
    method HandleSubmit(st: Storage, adminFault: Option<Fault>, donorFault: Option<Fault>, timestamp: string, writeFails: bool)
      returns (trace: seq<SubmitStep>)
      requires ValidDonation(formData.donation)
      modifies this, st
      ensures formData == old(formData)
      ensures |trace| >= 2
      ensures trace[0] == NotifyAdmin(GetEmailRecipients(st), SendOutcome(adminFault))
      ensures trace[1] == ConfirmDonor(formData.email, SendOutcome(donorFault))
      ensures !writeFails ==>
        st.lastSubmission == Parsed(SubmissionSnapshot(formData, adminFault.None?, donorFault.None?, timestamp))
        && trace[2..] == [Redirect("/thankyou")]
        && isSubmitting && submitMessage == old(submitMessage)
      ensures writeFails ==>
        st.lastSubmission == old(st.lastSubmission) && |trace| == 2
        && !isSubmitting && submitMessage == SubmitErrorMessage
      ensures st.siteContent == old(st.siteContent) && st.donationContent == old(st.donationContent)
      ensures st.emailRecipients == old(st.emailRecipients) && st.testSubmission == old(st.testSubmission)
    {
      isSubmitting := true;
      var recipients := GetEmailRecipients(st);
      var notification := SendOutcome(adminFault);
      trace := [NotifyAdmin(recipients, notification)];
      var confirmation := SendOutcome(donorFault);
      trace := trace + [ConfirmDonor(formData.email, confirmation)];
      if writeFails {
        submitMessage := SubmitErrorMessage;
        isSubmitting := false;
      } else {
        st.lastSubmission := Parsed(SubmissionSnapshot(formData, notification.success, confirmation.success, timestamp));
        trace := trace + [Redirect("/thankyou")];
      }
    }
  }
}

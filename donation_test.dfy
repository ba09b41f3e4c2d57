/**
 * The donation-flow test page: five steps, a current step (`currentStep`) and the
 * `testResults` of the form test and the e-mail test. "Test Form" stores a
 * fixed test record, "Test Emails" sends both e-mails for it, "Reset Test"
 * starts over and clears the two submission keys, and "Open Page" on the
 * first two steps moves the current step to the following one.
 */
module DonationTest {
  import opened Wrappers
  import opened JsNumbers
  import opened SeecRecord
  import opened BrowserStorage
  import opened EmailService
  import opened SeecForm

  /** The record "Test Form" submits. */
  const TestFormData: SeecFormData := SeecFormData(
    firstName := "John", initial := "D", lastName := "Doe",
    email := "john.doe@example.com", phone := "(555) 123-4567",
    donation := Whole(100),
    street := "123 Main Street", city := "Bridgewater", state := "CT", zip := "06752",
    under18 := false, age := "", employer := "Self-Employed", occupation := "Software Developer",
    lobbyist := "No", spouse := "No", elected := "", contractor := "No",
    branches := [],
    contractorOfficial := "", casHolder := "No", signature := "John D Doe")

  /** The test record is a valid submission: $100 is within the form's bounds and step. */
  lemma TestFormDataValid()
    ensures ValidDonation(TestFormData.donation)
  {
  }

  /** `testResults.formTest`. */
  datatype FormTest = FormTest(success: bool, data: SeecFormData, timestamp: string)

  /** `testResults.emailTest`: the flags and recipients of a completed run, or the error of a failed one. */
  datatype EmailTest =
    | EmailSent(notificationSent: bool, confirmationSent: bool, recipients: seq<string>, timestamp: string)
    | EmailError(error: string, timestamp: string)

  /** `testResults`; `{}` is both absent. */
  datatype TestResults = TestResults(formTest: Option<FormTest>, emailTest: Option<EmailTest>)

  const NoResults: TestResults := TestResults(None, None)

  const NoFormDataError: string := "No test form data available"

  /** The page state: `currentStep` and `testResults`. */
  datatype PageState = PageState(currentStep: int, testResults: TestResults)

  /** `useState(1)` and `useState({})`. */
  const InitialState: PageState := PageState(1, NoResults)

  // ------------------------------------------------------------------
  // transitions

  /** `runFormTest`: the form result is recorded with success and the current step becomes 4. */
  function AfterFormTest(s: PageState, recordedAt: string): (r: PageState)
    ensures r.currentStep == 4
    ensures r.testResults.formTest == Some(FormTest(true, TestFormData, recordedAt))
    ensures r.testResults.emailTest == s.testResults.emailTest
  {
    PageState(4, s.testResults.(formTest := Some(FormTest(true, TestFormData, recordedAt))))
  }

  /**
   * `runEmailTest`, given the recipients read and the two send results: with
   * no form result it throws before sending, records the error and keeps the
   * step; otherwise it records both flags and the recipients and moves to step 5.
   * The form result is kept either way.
   */
  function AfterEmailTest(s: PageState, recipients: seq<string>, notification: SendResult, confirmation: SendResult, recordedAt: string): (r: PageState)
    ensures r.testResults.formTest == s.testResults.formTest
    ensures s.testResults.formTest.None? ==>
      r.currentStep == s.currentStep && r.testResults.emailTest == Some(EmailError(NoFormDataError, recordedAt))
    ensures s.testResults.formTest.Some? ==>
      r.currentStep == 5
      && r.testResults.emailTest == Some(EmailSent(notification.success, confirmation.success, recipients, recordedAt))
  {
    match s.testResults.formTest
    case None => s.(testResults := s.testResults.(emailTest := Some(EmailError(NoFormDataError, recordedAt))))
    case Some(_) =>
      PageState(5, s.testResults.(emailTest := Some(EmailSent(notification.success, confirmation.success, recipients, recordedAt))))
  }

  /** Steps 1, 2 and 5 have an "Open Page" button. */
  predicate HasOpenPage(step: int) {
    step == 1 || step == 2 || step == 5
  }

  /** "Open Page" on `step`: only a step before the form step moves the current step, to the step after it. */
  function AfterOpenPage(s: PageState, step: int): (r: PageState)
    requires HasOpenPage(step)
    ensures r.testResults == s.testResults
    ensures step < 3 ==> r.currentStep == step + 1
    ensures step == 5 ==> r == s
  {
    if step < 3 then s.(currentStep := step + 1) else s
  }

  /** `resetTest`: back to the first step with no results. */
  function AfterReset(s: PageState): (r: PageState)
    ensures r == InitialState
  {
    PageState(1, NoResults)
  }

  // ------------------------------------------------------------------
  // the state invariant

  /**
   * What every reachable state satisfies: the current step is one of the five
   * steps, step 4 is only reached with a form result, and step 5 only with
   * a form result and a completed e-mail run.
   */
  predicate Reachable(s: PageState) {
    1 <= s.currentStep <= 5
    && (s.currentStep >= 4 ==> s.testResults.formTest.Some?)
    && (s.currentStep == 5 ==> s.testResults.emailTest.Some? && s.testResults.emailTest.value.EmailSent?)
  }

  /** Every handler keeps the page in a reachable state. */
  lemma TransitionsKeepReachable(s: PageState, step: int, recipients: seq<string>, n: SendResult, c: SendResult, t: string)
    requires Reachable(s)
    ensures Reachable(InitialState)
    ensures Reachable(AfterFormTest(s, t))
    ensures Reachable(AfterEmailTest(s, recipients, n, c, t))
    ensures HasOpenPage(step) ==> Reachable(AfterOpenPage(s, step))
    ensures Reachable(AfterReset(s))
  {
  }

  /** A failed e-mail run changes neither the step nor the form result, only the e-mail result. */
  lemma EmailFailureKeepsStep(s: PageState, recipients: seq<string>, n: SendResult, c: SendResult, t: string)
    requires s.testResults.formTest.None?
    ensures AfterEmailTest(s, recipients, n, c, t) == s.(testResults := TestResults(None, Some(EmailError(NoFormDataError, t))))
  {
  }

  /** Running the e-mail test before the form test always fails; after it, it always completes. */
  lemma EmailTestNeedsFormTest(s: PageState, recipients: seq<string>, n: SendResult, c: SendResult, t: string, t': string)
    ensures AfterEmailTest(AfterFormTest(s, t), recipients, n, c, t').currentStep == 5
    ensures AfterEmailTest(AfterReset(s), recipients, n, c, t').testResults.emailTest == Some(EmailError(NoFormDataError, t'))
  {
  }

  // ------------------------------------------------------------------
  // step display

  /** How a step's row is drawn. */
  datatype StepStatus = Done | Current | Pending

  /** `currentStep > step` shows a check mark, `currentStep === step` the highlight, anything else grey. */
  function StatusOf(currentStep: int, step: int): StepStatus {
    if currentStep > step then Done
    else if currentStep == step then Current
    else Pending
  }

  function Rank(st: StepStatus): int {
    match st
    case Done => 2
    case Current => 1
    case Pending => 0
  }

  /**
   * The five rows in order: finished steps, then at most one current step,
   * then pending ones; on a step within 1..5 exactly that row is current.
   */
  function StepStatuses(currentStep: int): (r: seq<StepStatus>)
    ensures |r| == 5
    ensures forall i, j :: 0 <= i < j < 5 ==> Rank(r[i]) >= Rank(r[j])
    ensures forall i, j :: 0 <= i < j < 5 && r[i] == Current ==> r[j] == Pending
    ensures forall i :: 0 <= i < 5 ==> (r[i] == Done <==> i + 1 < currentStep)
    ensures 1 <= currentStep <= 5 ==> r[currentStep - 1] == Current
  {
    seq(5, i requires 0 <= i < 5 => StatusOf(currentStep, i + 1))
  }

  /** Going through the flow from a fresh page (open step 1, open step 2, test the form, test the e-mails) ends on step 5 with every earlier row finished. */
  lemma HappyPath(recipients: seq<string>, n: SendResult, c: SendResult, t: string, t': string)
    ensures var s := AfterEmailTest(AfterFormTest(AfterOpenPage(AfterOpenPage(InitialState, 1), 2), t), recipients, n, c, t');
      s.currentStep == 5
      && s.testResults == TestResults(Some(FormTest(true, TestFormData, t)), Some(EmailSent(n.success, c.success, recipients, t')))
      && StepStatuses(s.currentStep) == [Done, Done, Done, Done, Current]
  {
    var r := StepStatuses(5);
    assert r[0] == Done && r[1] == Done && r[2] == Done && r[3] == Done && r[4] == Current;
  }

  // ------------------------------------------------------------------
  // the page

  class DonationTestPage {
    var currentStep: int
    var testResults: TestResults

    function State(): PageState
      reads this
    {
      PageState(currentStep, testResults)
    }

    constructor ()
      ensures State() == InitialState
    {
      currentStep := 1;
      testResults := NoResults;
    }

    /**
     * "Test Form": the test record is written to `testSEECSubmission` in test
     * mode, then the state moves on. A failing write (`writeFails`, the storage
     * quota) throws out of the handler before the state is touched.
     */
    method RunFormTest(st: Storage, storedAt: string, recordedAt: string, writeFails: bool)
      modifies this, st`testSubmission
      ensures st.testSubmission == if writeFails then old(st.testSubmission) else Parsed(TestSubmission(TestFormData, storedAt, true))
      ensures State() == if writeFails then old(State()) else AfterFormTest(old(State()), recordedAt)
    {
      if !writeFails {
        st.testSubmission := Parsed(TestSubmission(TestFormData, storedAt, true));
        testResults := testResults.(formTest := Some(FormTest(true, TestFormData, recordedAt)));
        currentStep := 4;
      }
    }

    /**
     * "Test Emails": with a form result, the recipients are read, the admin
     * notification and then the donor confirmation are sent for the test
     * record (`adminFault` and `donorFault` say what, if anything, is thrown
     * while each is composed and sent), and both results are recorded.
     */
    method RunEmailTest(st: Storage, adminFault: Option<Fault>, donorFault: Option<Fault>, recordedAt: string)
      returns (sent: seq<SubmitStep>)
      modifies this
      ensures State() == AfterEmailTest(old(State()), GetEmailRecipients(st), SendOutcome(adminFault), SendOutcome(donorFault), recordedAt)
      ensures old(testResults).formTest.None? ==> sent == []
      ensures old(testResults).formTest.Some? ==>
        sent == [NotifyAdmin(GetEmailRecipients(st), SendOutcome(adminFault)),
                 ConfirmDonor(old(testResults).formTest.value.data.email, SendOutcome(donorFault))]
    {
      match testResults.formTest
      case None =>
        sent := [];
        testResults := testResults.(emailTest := Some(EmailError(NoFormDataError, recordedAt)));
      case Some(formTest) =>
        var recipients := GetEmailRecipients(st);
        var notification := SendOutcome(adminFault);
        var confirmation := SendOutcome(donorFault);
        sent := [NotifyAdmin(recipients, notification), ConfirmDonor(formTest.data.email, confirmation)];
        testResults := testResults.(emailTest := Some(EmailSent(notification.success, confirmation.success, recipients, recordedAt)));
        currentStep := 5;
    }

    /** "Reset Test": step 1, no results, and both submission keys removed. */
    method ResetTest(st: Storage)
      modifies this, st`testSubmission, st`lastSubmission
      ensures State() == AfterReset(old(State()))
      ensures st.testSubmission == Missing && st.lastSubmission == Missing
    {
      currentStep := 1;
      testResults := NoResults;
      st.testSubmission := Missing;
      st.lastSubmission := Missing;
    }

    /** "Open Page" on one of the steps that has it (the page itself opens in a new window). */
    method OpenPage(step: int)
      requires HasOpenPage(step)
      modifies this
      ensures State() == AfterOpenPage(old(State()), step)
    {
      if step < 3 {
        currentStep := step + 1;
      }
    }
  }
}

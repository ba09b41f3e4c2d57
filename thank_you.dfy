/**
 * The thank-you page: its effect restores the last form submission (or a
 * demo record when there is none) into `donationInfo`, with the PayPal
 * return parameters of the query string, and the summary block shows the
 * donor, e-mail and amount of that record.
 */
module ThankYou {
  import opened Wrappers
  import opened JsStrings
  import opened JsNumbers
  import opened SeecRecord
  import opened BrowserStorage

  /** `searchParams.get(...)` of `paymentId`, `PayerID` and `amount`: nothing when the parameter is absent. */
  datatype ReturnQuery = ReturnQuery(paymentId: Option<string>, payerId: Option<string>, amount: Option<string>)

  /**
   * What the effect stores in `donationInfo`: the submitted form record with
   * the three query values spread over it, or the fixed demo record.
   */
  datatype DonationInfo =
    | FromSubmission(formData: SeecFormData, paymentId: Option<string>, payerId: Option<string>, amount: Option<string>)
    | Demo

  /** `donationInfo['your-first-name']`. */
  function FirstName(info: DonationInfo): string {
    if info.Demo? then "Demo" else info.formData.firstName
  }

  /** `donationInfo['your-last-name']`. */
  function LastName(info: DonationInfo): string {
    if info.Demo? then "Donor" else info.formData.lastName
  }

  /** `donationInfo['your-email']`. */
  function Email(info: DonationInfo): string {
    if info.Demo? then "demo@example.com" else info.formData.email
  }

  /** `donationInfo.donation`: the demo record donates 100. */
  function Donation(info: DonationInfo): Number {
    if info.Demo? then Whole(100) else info.formData.donation
  }

  /** `donationInfo.paymentId`, `.payerId` and `.amount`: the query's, or the demo's fixed values. */
  function PaymentFields(info: DonationInfo): (Option<string>, Option<string>, Option<string>) {
    if info.Demo? then (Some("DEMO123"), Some("DEMO456"), Some("100"))
    else (info.paymentId, info.payerId, info.amount)
  }

  /**
   * The summary block, when `donationInfo` is set: donor name, e-mail, the
   * amount after a `$` and the payment method (the locale date line is not
   * part of this model).
   */
  function SummaryLines(donationInfo: Option<DonationInfo>): (r: Option<seq<string>>)
    ensures r.Some? <==> donationInfo.Some?
    ensures r.Some? ==> |r.value| == 4 && r.value[3] == "Method: PayPal"
  {
    match donationInfo
    case None => None
    case Some(info) =>
      Some(["Donor: " + FirstName(info) + " " + LastName(info),
            "Email: " + Email(info),
            "Amount: $" + NumberText(Donation(info)),
            "Method: PayPal"])
  }

  /** The amount shown is the submitted record's donation; the `amount` query parameter does not change it. */
  lemma SummaryShowsSubmittedAmount(f: SeecFormData, q: ReturnQuery, q': ReturnQuery)
    ensures var r := SummaryLines(Some(FromSubmission(f, q.paymentId, q.payerId, q.amount)));
      r == SummaryLines(Some(FromSubmission(f, q'.paymentId, q'.payerId, q'.amount)))
      && r.Some? && r.value[0] == "Donor: " + f.firstName + " " + f.lastName
      && r.value[2] == "Amount: $" + NumberText(f.donation)
  {
  }

  /** Without a stored submission the summary reads "Demo Donor" and "$100". */
  lemma DemoSummary()
    ensures SummaryLines(Some(Demo)) == Some(["Donor: Demo Donor", "Email: demo@example.com", "Amount: $100", "Method: PayPal"])
  {
    assert NatToString(1) == "1";
    assert NatToString(10) == "10";
    assert NatToString(100) == "100";
    assert IntToString(100) == "100";
    assert "Donor: " + "Demo" + " " + "Donor" == "Donor: Demo Donor";
    assert "Email: " + "demo@example.com" == "Email: demo@example.com";
    assert "Amount: $" + "100" == "Amount: $100";
  }

  class ThankYouPage {
    /** `useState<any>(null)`. */
    var donationInfo: Option<DonationInfo>

    constructor ()
      ensures donationInfo.None?
    {
      donationInfo := None;
    }

    /**
     * The `useEffect` body: a parseable snapshot gives its form record with
     * the query values over it; an unparseable one is logged and leaves
     * `donationInfo` as it was; without a snapshot the demo record is shown.
     */
    method RestoreSubmission(st: Storage, query: ReturnQuery)
      modifies this
      ensures match st.lastSubmission
        case Parsed(snapshot) =>
          donationInfo == Some(FromSubmission(snapshot.formData, query.paymentId, query.payerId, query.amount))
        case Corrupt => donationInfo == old(donationInfo)
        case Missing => donationInfo == Some(Demo)
    {
      match st.lastSubmission
      case Parsed(snapshot) =>
        donationInfo := Some(FromSubmission(snapshot.formData, query.paymentId, query.payerId, query.amount));
      case Corrupt =>
      case Missing =>
        donationInfo := Some(Demo);
    }
  }

  /**
   * On a freshly mounted page the effect's outcome decides whether the
   * summary renders: it does exactly when the stored snapshot is not corrupt,
   * and a parsed snapshot's donor and amount are what it shows.
   */
  method MountThankYouPage(st: Storage, query: ReturnQuery) returns (summary: Option<seq<string>>)
    ensures summary.Some? <==> !st.lastSubmission.Corrupt?
    ensures st.lastSubmission.Parsed? ==>
      (var f := st.lastSubmission.value.formData;
       summary.Some? && |summary.value| == 4
       && summary.value[0] == "Donor: " + f.firstName + " " + f.lastName
       && summary.value[2] == "Amount: $" + NumberText(f.donation))
  {
    var page := new ThankYouPage();
    page.RestoreSubmission(st, query);
    summary := SummaryLines(page.donationInfo);
  }
}

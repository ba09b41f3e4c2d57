/** The SEEC Individual Contributor Form record (`SEECFormData`), keyed by the form's input names. */
module SeecRecord {
  import opened JsNumbers

  /**
   * One field per input name: `your-first-name`, `text-initial`, `your-last-name`,
   * `your-email`, `tel-number`, `donation`, `your-street`, `your-city`,
   * `your-state`, `your-zip`, `checkbox-under18`, `text-age`, `employer`,
   * `occupation`, `checkbox-lobby`, `checkbox-spouse`, `checkbox-elected`,
   * `checkbox-contractor`, `checkbox-branch`, `checkbox-contractor-official`,
   * `checkbox-holder` and `digital-signature`.
   */
  datatype SeecFormData = SeecFormData(
    firstName: string,
    initial: string,
    lastName: string,
    email: string,
    phone: string,
    donation: Number,
    street: string,
    city: string,
    state: string,
    zip: string,
    under18: bool,
    age: string,
    employer: string,
    occupation: string,
    lobbyist: string,
    spouse: string,
    elected: string,
    contractor: string,
    branches: seq<string>,
    contractorOfficial: string,
    casHolder: string,
    signature: string
  )

  /** The record the form starts from. */
  const InitialSeecForm: SeecFormData := SeecFormData(
    firstName := "", initial := "", lastName := "", email := "", phone := "",
    donation := Whole(5),
    street := "", city := "", state := "", zip := "",
    under18 := false, age := "", employer := "", occupation := "",
    lobbyist := "", spouse := "", elected := "", contractor := "",
    branches := [],
    contractorOfficial := "", casHolder := "", signature := "")

  /**
   * The donation input's constraints (`min` 5, `max` 2000, `step` 5), enforced
   * before submission: a whole amount (a number in lowest terms is whole
   * exactly when it has no fraction digits) from 5 to 2000 in steps of 5.
   */
  predicate ValidDonation(amount: Number) {
    amount.scale == 0 && 5 <= amount.units <= 2000 && (amount.units - 5) % 5 == 0
  }
}

/**
 * The browser's `localStorage`, one typed slot per key the site uses. A slot
 * holds what `JSON.parse` makes of the stored text: nothing (the key is absent
 * or holds the empty text), a parse failure, or the parsed value.
 */
module BrowserStorage {
  import opened SiteStored
  import opened DonationStored
  import opened SeecRecord

  datatype Slot<T> = Missing | Corrupt | Parsed(value: T)

  /** The `lastSEECSubmission` object written after a form submission. */
  datatype SubmissionSnapshot = SubmissionSnapshot(
    formData: SeecFormData,
    notificationSent: bool,
    confirmationSent: bool,
    timestamp: string)

  /** The `testSEECSubmission` object written by the donation-flow test page. */
  datatype TestSubmission = TestSubmission(
    formData: SeecFormData,
    timestamp: string,
    testMode: bool)

  class Storage {
    /** Key `siteContent`. */
    var siteContent: Slot<StoredSiteContent>
    /** Key `donationContent`. */
    var donationContent: Slot<StoredDonationContent>
    /** Key `donationEmailRecipients`. */
    var emailRecipients: Slot<seq<string>>
    /** Key `lastSEECSubmission`. */
    var lastSubmission: Slot<SubmissionSnapshot>
    /** Key `testSEECSubmission`. */
    var testSubmission: Slot<TestSubmission>

    /** An empty storage: no key set. */
    constructor ()
      ensures siteContent == Missing && donationContent == Missing && emailRecipients == Missing
      ensures lastSubmission == Missing && testSubmission == Missing
    {
      siteContent := Missing;
      donationContent := Missing;
      emailRecipients := Missing;
      lastSubmission := Missing;
      testSubmission := Missing;
    }
  }
}

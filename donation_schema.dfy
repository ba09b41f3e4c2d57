/** The donation content document: one datatype per object shape of the `DonationContent` interface. */
module DonationSchema {
  import opened SiteSchema

  /** The donate page copy (merged by a single shallow spread). */
  datatype DonatePage = DonatePage(
    title: string,
    subtitle: string,
    optionsTitle: string,
    option1Title: string,
    option1Description: string,
    option1Note: string,
    option2Title: string,
    option2Description: string,
    option2Warning: string,
    option2Instructions: string,
    option2MailingInstructions: string,
    mailingAddress: MailingAddress,
    thankYouMessage: string
  )

  /** The thank-you page copy. */
  datatype ThankYouPageContent = ThankYouPageContent(
    title: string,
    subtitle: string,
    summaryTitle: string,
    nextStepsTitle: string,
    nextSteps: seq<string>,
    engagementTitle: string,
    engagementSubtitle: string,
    contactNote: string
  )

  /** The donor form copy. */
  datatype SeecFormContent = SeecFormContent(
    title: string,
    subtitle: string,
    contributorSectionTitle: string,
    donationSectionTitle: string,
    addressSectionTitle: string,
    employmentSectionTitle: string,
    legalSectionTitle: string,
    legalInstructions: string,
    certificationTitle: string,
    certificationText: string,
    signatureInstructions: string,
    submitMessage: string,
    submitButtonText: string
  )

  /** The admin notification e-mail template. */
  datatype AdminNotificationTemplate = AdminNotificationTemplate(
    subject: string,
    header: string,
    introText: string,
    dataHeader: string,
    footer: string
  )

  /** The donor confirmation e-mail template. */
  datatype DonorConfirmationTemplate = DonorConfirmationTemplate(
    subject: string,
    greeting: string,
    mainMessage: string,
    summaryHeader: string,
    supportMessage: string,
    contactMessage: string,
    closing: string,
    footer: string
  )

  /** The two e-mail templates. */
  datatype EmailTemplates = EmailTemplates(
    adminNotification: AdminNotificationTemplate,
    donorConfirmation: DonorConfirmationTemplate
  )

  /** The whole donation content document. */
  datatype DonationContent = DonationContent(
    donatePage: DonatePage,
    thankYouPage: ThankYouPageContent,
    seecForm: SeecFormContent,
    emailTemplates: EmailTemplates
  )

}

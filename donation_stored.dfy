/** Stored (parsed, possibly partial) donation content as the merge receives it. */
module DonationStored {
  import opened Wrappers
  import opened SiteSchema
  import opened DonationSchema

  /** A stored, possibly partial `DonatePage`: absent keys are `None`. */
  datatype StoredDonatePage = StoredDonatePage(
    title: Option<string>,
    subtitle: Option<string>,
    optionsTitle: Option<string>,
    option1Title: Option<string>,
    option1Description: Option<string>,
    option1Note: Option<string>,
    option2Title: Option<string>,
    option2Description: Option<string>,
    option2Warning: Option<string>,
    option2Instructions: Option<string>,
    option2MailingInstructions: Option<string>,
    mailingAddress: Option<MailingAddress>,
    thankYouMessage: Option<string>
  )

  /** The stored form of a complete `DonatePage` (every key present). */
  function AsStoredDonatePage(x: DonatePage): StoredDonatePage {
    StoredDonatePage(
      title := Some(x.title),
      subtitle := Some(x.subtitle),
      optionsTitle := Some(x.optionsTitle),
      option1Title := Some(x.option1Title),
      option1Description := Some(x.option1Description),
      option1Note := Some(x.option1Note),
      option2Title := Some(x.option2Title),
      option2Description := Some(x.option2Description),
      option2Warning := Some(x.option2Warning),
      option2Instructions := Some(x.option2Instructions),
      option2MailingInstructions := Some(x.option2MailingInstructions),
      mailingAddress := Some(x.mailingAddress),
      thankYouMessage := Some(x.thankYouMessage))
  }

  /** The stored `DonatePage` with no keys at all (`{}`). */
  const EmptyDonatePage: StoredDonatePage :=
    StoredDonatePage(
      title := None,
      subtitle := None,
      optionsTitle := None,
      option1Title := None,
      option1Description := None,
      option1Note := None,
      option2Title := None,
      option2Description := None,
      option2Warning := None,
      option2Instructions := None,
      option2MailingInstructions := None,
      mailingAddress := None,
      thankYouMessage := None)

  /** A stored, possibly partial `ThankYouPageContent`: absent keys are `None`. */
  datatype StoredThankYouPageContent = StoredThankYouPageContent(
    title: Option<string>,
    subtitle: Option<string>,
    summaryTitle: Option<string>,
    nextStepsTitle: Option<string>,
    nextSteps: Option<seq<string>>,
    engagementTitle: Option<string>,
    engagementSubtitle: Option<string>,
    contactNote: Option<string>
  )

  /** The stored form of a complete `ThankYouPageContent` (every key present). */
  function AsStoredThankYouPageContent(x: ThankYouPageContent): StoredThankYouPageContent {
    StoredThankYouPageContent(
      title := Some(x.title),
      subtitle := Some(x.subtitle),
      summaryTitle := Some(x.summaryTitle),
      nextStepsTitle := Some(x.nextStepsTitle),
      nextSteps := Some(x.nextSteps),
      engagementTitle := Some(x.engagementTitle),
      engagementSubtitle := Some(x.engagementSubtitle),
      contactNote := Some(x.contactNote))
  }

  /** The stored `ThankYouPageContent` with no keys at all (`{}`). */
  const EmptyThankYouPageContent: StoredThankYouPageContent :=
    StoredThankYouPageContent(
      title := None,
      subtitle := None,
      summaryTitle := None,
      nextStepsTitle := None,
      nextSteps := None,
      engagementTitle := None,
      engagementSubtitle := None,
      contactNote := None)

  /** A stored, possibly partial `SeecFormContent`: absent keys are `None`. */
  datatype StoredSeecFormContent = StoredSeecFormContent(
    title: Option<string>,
    subtitle: Option<string>,
    contributorSectionTitle: Option<string>,
    donationSectionTitle: Option<string>,
    addressSectionTitle: Option<string>,
    employmentSectionTitle: Option<string>,
    legalSectionTitle: Option<string>,
    legalInstructions: Option<string>,
    certificationTitle: Option<string>,
    certificationText: Option<string>,
    signatureInstructions: Option<string>,
    submitMessage: Option<string>,
    submitButtonText: Option<string>
  )

  /** The stored form of a complete `SeecFormContent` (every key present). */
  function AsStoredSeecFormContent(x: SeecFormContent): StoredSeecFormContent {
    StoredSeecFormContent(
      title := Some(x.title),
      subtitle := Some(x.subtitle),
      contributorSectionTitle := Some(x.contributorSectionTitle),
      donationSectionTitle := Some(x.donationSectionTitle),
      addressSectionTitle := Some(x.addressSectionTitle),
      employmentSectionTitle := Some(x.employmentSectionTitle),
      legalSectionTitle := Some(x.legalSectionTitle),
      legalInstructions := Some(x.legalInstructions),
      certificationTitle := Some(x.certificationTitle),
      certificationText := Some(x.certificationText),
      signatureInstructions := Some(x.signatureInstructions),
      submitMessage := Some(x.submitMessage),
      submitButtonText := Some(x.submitButtonText))
  }

  /** The stored `SeecFormContent` with no keys at all (`{}`). */
  const EmptySeecFormContent: StoredSeecFormContent :=
    StoredSeecFormContent(
      title := None,
      subtitle := None,
      contributorSectionTitle := None,
      donationSectionTitle := None,
      addressSectionTitle := None,
      employmentSectionTitle := None,
      legalSectionTitle := None,
      legalInstructions := None,
      certificationTitle := None,
      certificationText := None,
      signatureInstructions := None,
      submitMessage := None,
      submitButtonText := None)

  /** A stored, possibly partial `AdminNotificationTemplate`: absent keys are `None`. */
  datatype StoredAdminNotificationTemplate = StoredAdminNotificationTemplate(
    subject: Option<string>,
    header: Option<string>,
    introText: Option<string>,
    dataHeader: Option<string>,
    footer: Option<string>
  )

  /** The stored form of a complete `AdminNotificationTemplate` (every key present). */
  function AsStoredAdminNotificationTemplate(x: AdminNotificationTemplate): StoredAdminNotificationTemplate {
    StoredAdminNotificationTemplate(
      subject := Some(x.subject),
      header := Some(x.header),
      introText := Some(x.introText),
      dataHeader := Some(x.dataHeader),
      footer := Some(x.footer))
  }

  /** The stored `AdminNotificationTemplate` with no keys at all (`{}`). */
  const EmptyAdminNotificationTemplate: StoredAdminNotificationTemplate :=
    StoredAdminNotificationTemplate(
      subject := None,
      header := None,
      introText := None,
      dataHeader := None,
      footer := None)

  /** A stored, possibly partial `DonorConfirmationTemplate`: absent keys are `None`. */
  datatype StoredDonorConfirmationTemplate = StoredDonorConfirmationTemplate(
    subject: Option<string>,
    greeting: Option<string>,
    mainMessage: Option<string>,
    summaryHeader: Option<string>,
    supportMessage: Option<string>,
    contactMessage: Option<string>,
    closing: Option<string>,
    footer: Option<string>
  )

  /** The stored form of a complete `DonorConfirmationTemplate` (every key present). */
  function AsStoredDonorConfirmationTemplate(x: DonorConfirmationTemplate): StoredDonorConfirmationTemplate {
    StoredDonorConfirmationTemplate(
      subject := Some(x.subject),
      greeting := Some(x.greeting),
      mainMessage := Some(x.mainMessage),
      summaryHeader := Some(x.summaryHeader),
      supportMessage := Some(x.supportMessage),
      contactMessage := Some(x.contactMessage),
      closing := Some(x.closing),
      footer := Some(x.footer))
  }

  /** The stored `DonorConfirmationTemplate` with no keys at all (`{}`). */
  const EmptyDonorConfirmationTemplate: StoredDonorConfirmationTemplate :=
    StoredDonorConfirmationTemplate(
      subject := None,
      greeting := None,
      mainMessage := None,
      summaryHeader := None,
      supportMessage := None,
      contactMessage := None,
      closing := None,
      footer := None)

  /** A stored, possibly partial `EmailTemplates`: absent keys are `None`. */
  datatype StoredEmailTemplates = StoredEmailTemplates(
    adminNotification: StoredAdminNotificationTemplate,
    donorConfirmation: StoredDonorConfirmationTemplate
  )

  /** The stored form of a complete `EmailTemplates` (every key present). */
  function AsStoredEmailTemplates(x: EmailTemplates): StoredEmailTemplates {
    StoredEmailTemplates(
      adminNotification := AsStoredAdminNotificationTemplate(x.adminNotification),
      donorConfirmation := AsStoredDonorConfirmationTemplate(x.donorConfirmation))
  }

  /** The stored `EmailTemplates` with no keys at all (`{}`). */
  const EmptyEmailTemplates: StoredEmailTemplates :=
    StoredEmailTemplates(
      adminNotification := EmptyAdminNotificationTemplate,
      donorConfirmation := EmptyDonorConfirmationTemplate)

  /** A stored, possibly partial `DonationContent`: absent keys are `None`. */
  datatype StoredDonationContent = StoredDonationContent(
    donatePage: StoredDonatePage,
    thankYouPage: StoredThankYouPageContent,
    seecForm: StoredSeecFormContent,
    emailTemplates: StoredEmailTemplates
  )

  /** The stored form of a complete `DonationContent` (every key present). */
  function AsStoredDonationContent(x: DonationContent): StoredDonationContent {
    StoredDonationContent(
      donatePage := AsStoredDonatePage(x.donatePage),
      thankYouPage := AsStoredThankYouPageContent(x.thankYouPage),
      seecForm := AsStoredSeecFormContent(x.seecForm),
      emailTemplates := AsStoredEmailTemplates(x.emailTemplates))
  }

  /** The stored `DonationContent` with no keys at all (`{}`). */
  const EmptyDonationContent: StoredDonationContent :=
    StoredDonationContent(
      donatePage := EmptyDonatePage,
      thankYouPage := EmptyThankYouPageContent,
      seecForm := EmptySeecFormContent,
      emailTemplates := EmptyEmailTemplates)

}

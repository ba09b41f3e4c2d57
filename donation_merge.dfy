/** The defaults overlay inside `getDonationContent`, one function per merged object. */
module DonationMerge {
  import opened Wrappers
  import opened SiteSchema
  import opened DonationSchema
  import opened DonationStored

  /** Overlay of a stored `DonatePage` on its default, key by key: nothing stored gives the default, a complete stored object gives itself back. */
  function MergeDonatePage(d: DonatePage, s: StoredDonatePage): (r: DonatePage)
    ensures s == EmptyDonatePage ==> r == d
    ensures forall x :: s == AsStoredDonatePage(x) ==> r == x
  {
    DonatePage(
      title := Overlay(s.title, d.title),
      subtitle := Overlay(s.subtitle, d.subtitle),
      optionsTitle := Overlay(s.optionsTitle, d.optionsTitle),
      option1Title := Overlay(s.option1Title, d.option1Title),
      option1Description := Overlay(s.option1Description, d.option1Description),
      option1Note := Overlay(s.option1Note, d.option1Note),
      option2Title := Overlay(s.option2Title, d.option2Title),
      option2Description := Overlay(s.option2Description, d.option2Description),
      option2Warning := Overlay(s.option2Warning, d.option2Warning),
      option2Instructions := Overlay(s.option2Instructions, d.option2Instructions),
      option2MailingInstructions := Overlay(s.option2MailingInstructions, d.option2MailingInstructions),
      mailingAddress := Overlay(s.mailingAddress, d.mailingAddress),
      thankYouMessage := Overlay(s.thankYouMessage, d.thankYouMessage))
  }

  /** Overlay of a stored `ThankYouPageContent` on its default, key by key: nothing stored gives the default, a complete stored object gives itself back. */
  function MergeThankYouPageContent(d: ThankYouPageContent, s: StoredThankYouPageContent): (r: ThankYouPageContent)
    ensures s == EmptyThankYouPageContent ==> r == d
    ensures forall x :: s == AsStoredThankYouPageContent(x) ==> r == x
  {
    ThankYouPageContent(
      title := Overlay(s.title, d.title),
      subtitle := Overlay(s.subtitle, d.subtitle),
      summaryTitle := Overlay(s.summaryTitle, d.summaryTitle),
      nextStepsTitle := Overlay(s.nextStepsTitle, d.nextStepsTitle),
      nextSteps := Overlay(s.nextSteps, d.nextSteps),
      engagementTitle := Overlay(s.engagementTitle, d.engagementTitle),
      engagementSubtitle := Overlay(s.engagementSubtitle, d.engagementSubtitle),
      contactNote := Overlay(s.contactNote, d.contactNote))
  }

  /** Overlay of a stored `SeecFormContent` on its default, key by key: nothing stored gives the default, a complete stored object gives itself back. */
  function MergeSeecFormContent(d: SeecFormContent, s: StoredSeecFormContent): (r: SeecFormContent)
    ensures s == EmptySeecFormContent ==> r == d
    ensures forall x :: s == AsStoredSeecFormContent(x) ==> r == x
  {
    SeecFormContent(
      title := Overlay(s.title, d.title),
      subtitle := Overlay(s.subtitle, d.subtitle),
      contributorSectionTitle := Overlay(s.contributorSectionTitle, d.contributorSectionTitle),
      donationSectionTitle := Overlay(s.donationSectionTitle, d.donationSectionTitle),
      addressSectionTitle := Overlay(s.addressSectionTitle, d.addressSectionTitle),
      employmentSectionTitle := Overlay(s.employmentSectionTitle, d.employmentSectionTitle),
      legalSectionTitle := Overlay(s.legalSectionTitle, d.legalSectionTitle),
      legalInstructions := Overlay(s.legalInstructions, d.legalInstructions),
      certificationTitle := Overlay(s.certificationTitle, d.certificationTitle),
      certificationText := Overlay(s.certificationText, d.certificationText),
      signatureInstructions := Overlay(s.signatureInstructions, d.signatureInstructions),
      submitMessage := Overlay(s.submitMessage, d.submitMessage),
      submitButtonText := Overlay(s.submitButtonText, d.submitButtonText))
  }

  /** Overlay of a stored `AdminNotificationTemplate` on its default, key by key: nothing stored gives the default, a complete stored object gives itself back. */
  function MergeAdminNotificationTemplate(d: AdminNotificationTemplate, s: StoredAdminNotificationTemplate): (r: AdminNotificationTemplate)
    ensures s == EmptyAdminNotificationTemplate ==> r == d
    ensures forall x :: s == AsStoredAdminNotificationTemplate(x) ==> r == x
  {
    AdminNotificationTemplate(
      subject := Overlay(s.subject, d.subject),
      header := Overlay(s.header, d.header),
      introText := Overlay(s.introText, d.introText),
      dataHeader := Overlay(s.dataHeader, d.dataHeader),
      footer := Overlay(s.footer, d.footer))
  }

  /** Overlay of a stored `DonorConfirmationTemplate` on its default, key by key: nothing stored gives the default, a complete stored object gives itself back. */
  function MergeDonorConfirmationTemplate(d: DonorConfirmationTemplate, s: StoredDonorConfirmationTemplate): (r: DonorConfirmationTemplate)
    ensures s == EmptyDonorConfirmationTemplate ==> r == d
    ensures forall x :: s == AsStoredDonorConfirmationTemplate(x) ==> r == x
  {
    DonorConfirmationTemplate(
      subject := Overlay(s.subject, d.subject),
      greeting := Overlay(s.greeting, d.greeting),
      mainMessage := Overlay(s.mainMessage, d.mainMessage),
      summaryHeader := Overlay(s.summaryHeader, d.summaryHeader),
      supportMessage := Overlay(s.supportMessage, d.supportMessage),
      contactMessage := Overlay(s.contactMessage, d.contactMessage),
      closing := Overlay(s.closing, d.closing),
      footer := Overlay(s.footer, d.footer))
  }

  /** Overlay of a stored `EmailTemplates` on its default, key by key: nothing stored gives the default, a complete stored object gives itself back. */
  function MergeEmailTemplates(d: EmailTemplates, s: StoredEmailTemplates): (r: EmailTemplates)
    ensures s == EmptyEmailTemplates ==> r == d
    ensures forall x :: s == AsStoredEmailTemplates(x) ==> r == x
  {
    EmailTemplates(
      adminNotification := MergeAdminNotificationTemplate(d.adminNotification, s.adminNotification),
      donorConfirmation := MergeDonorConfirmationTemplate(d.donorConfirmation, s.donorConfirmation))
  }

  /** Overlay of a stored `DonationContent` on its default, key by key: nothing stored gives the default, a complete stored object gives itself back. */
  function MergeDonationContent(d: DonationContent, s: StoredDonationContent): (r: DonationContent)
    ensures s == EmptyDonationContent ==> r == d
    ensures forall x :: s == AsStoredDonationContent(x) ==> r == x
  {
    DonationContent(
      donatePage := MergeDonatePage(d.donatePage, s.donatePage),
      thankYouPage := MergeThankYouPageContent(d.thankYouPage, s.thankYouPage),
      seecForm := MergeSeecFormContent(d.seecForm, s.seecForm),
      emailTemplates := MergeEmailTemplates(d.emailTemplates, s.emailTemplates))
  }

}

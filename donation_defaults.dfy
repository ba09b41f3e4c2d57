/**
 * The compiled-in default donation content (`defaultDonationContent`). The
 * longer e-mail template texts are written as concatenations of shorter
 * pieces, which denote the same text.
 */
module DonationDefaults {
  import opened SiteSchema
  import opened DonationSchema

  const DefaultDonationContent: DonationContent :=
    DonationContent(
      donatePage := DonatePage(
        title := "Send Check or Pay Online?",
        subtitle := "Thank you for choosing to donate! We really appreciate your help.",
        optionsTitle := "Two options:",
        option1Title := "If you'd like to send money online",
        option1Description := "(this is fast, easy and secure) click this link to donate using PayPal.",
        option1Note := "→ You will see a form you must fill out first, then you will be taken to PayPal. ←",
        option2Title := "If you'd prefer to send a check",
        option2Description := "you must fill out a Connecticut SEEC donor form so that we can certify your contribution.",
        option2Warning := "We can't accept your donation if you don't.",
        option2Instructions := "Please click this button,",
        option2MailingInstructions := "fill out the donor form, print it and send it with your check to:",
        mailingAddress := MailingAddress(
          organization := "Bridgewater Democratic Town Committee",
          addressLine1 := "P.O. Box 132",
          addressLine2 := "Bridgewater, CT 06752"),
        thankYouMessage := "Thank you!"),
      thankYouPage := ThankYouPageContent(
        title := "Thank You for Your Donation!",
        subtitle := "Your contribution to the Bridgewater Democratic Town Committee is greatly appreciated and will help us continue our important work for our community.",
        summaryTitle := "Donation Summary",
        nextStepsTitle := "What Happens Next?",
        nextSteps := [
          "You will receive a confirmation email at the address you provided",
          "Your SEEC Individual Contributor Form has been processed and filed",
          "Your donation will be used to support Democratic candidates and causes in Bridgewater",
          "You may receive periodic updates about our activities and upcoming events"
        ],
        engagementTitle := "Keep Supporting Democracy",
        engagementSubtitle := "There are many ways to stay involved with the Bridgewater Democratic Town Committee:",
        contactNote := "Questions about your donation?"),
      seecForm := SeecFormContent(
        title := "Connecticut SEEC Individual Contributor Form",
        subtitle := "This form is required by Connecticut state law before making your donation. After completing this form, you will be redirected to PayPal to process your payment.",
        contributorSectionTitle := "NAME OF INDIVIDUAL CONTRIBUTOR:",
        donationSectionTitle := "DONATION AMOUNT:",
        addressSectionTitle := "RESIDENTIAL ADDRESS*",
        employmentSectionTitle := "Employment Information",
        legalSectionTitle := "Legal Disclosure Requirements",
        legalInstructions := "PLEASE SCROLL DOWN TO REVIEW THE DEFINITIONS BELOW, THEN SCROLL BACK HERE TO ANSWER EACH OF THE FOLLOWING:",
        certificationTitle := "CERTIFICATION:",
        certificationText := "I hereby certify and state that all of the information disclosed by me and set forth above on this contributor card is true and accurate to the best of my knowledge and belief. I certify that I am either a United States citizen or a foreign national with permanent resident status in the United States. I certify that this contribution is being made from my personal funds, is not being reimbursed in any manner, is not being made as a loan, and is not an otherwise prohibited contribution.",
        signatureInstructions := "To sign this form digitally, please type your full name as you entered it above:",
        submitMessage := "Thank you for your time.",
        submitButtonText := "Send"),
      emailTemplates := EmailTemplates(
        adminNotification := DefaultAdminNotification,
        donorConfirmation := DefaultDonorConfirmation))

  /** The default admin notification template (`emailTemplates.adminNotification`). */
  const DefaultAdminNotification: AdminNotificationTemplate :=
    AdminNotificationTemplate(
      subject := "New SEEC Individual Contributor Form Submission",
      header := "*** PLEASE DO NOT REPLY TO THIS EMAIL." + " THIS IS A SENDING SERVER ONLY ***",
      introText := "A contributor just filled out an SEEC " + "Individual Contributor Form prior to " + "donating via PayPal.",
      dataHeader := "Here is the information " + "the contributor provided:",
      footer := "This e-mail was sent from an online " + "form on the Bridgewater Democratic " + "Town Committee website " + "(http://bridgewaterdems.org)")

  /** The default donor confirmation template (`emailTemplates.donorConfirmation`). */
  const DefaultDonorConfirmation: DonorConfirmationTemplate :=
    DonorConfirmationTemplate(
      subject := "Thank you for your donation - Bridgewater DTC",
      greeting := "Dear {donor_name},",
      mainMessage := "Thank you for your donation of $" + "{donation_amount}" + " to the Bridgewater " + "Democratic Town Committee!",
      summaryHeader := "Your SEEC Individual Contributor Form has been received and processed. Here's a summary of your contribution:",
      supportMessage := "Your support helps us continue our important work for the Bridgewater community. We truly appreciate your commitment to Democratic values and local engagement.",
      contactMessage := "If you have any questions about your donation, please don't hesitate to contact us.",
      closing := "Best regards," + "\n" + "Bridgewater Democratic Town Committee",
      footer := "This is an automated confirmation email. Please do not reply to this email.")

  /** The header of the default admin template holds no line break. */
  lemma AdminHeaderSingleLine()
    ensures '\n' !in DefaultAdminNotification.header
  {
    assert '\n' !in "*** PLEASE DO NOT REPLY TO THIS EMAIL.";
    assert '\n' !in " THIS IS A SENDING SERVER ONLY ***";
  }

  /** The intro text of the default admin template holds no line break. */
  lemma AdminIntroSingleLine()
    ensures '\n' !in DefaultAdminNotification.introText
  {
    IntroOpeningSingleLine();
    assert '\n' !in "donating via PayPal.";
  }

  /** The first two pieces of the default intro text hold no line break. */
  lemma IntroOpeningSingleLine()
    ensures '\n' !in "A contributor just filled out an SEEC " + "Individual Contributor Form prior to "
  {
    assert '\n' !in "A contributor just filled out an SEEC ";
    assert '\n' !in "Individual Contributor Form prior to ";
  }

  /** The data header of the default admin template holds no line break. */
  lemma AdminDataHeaderSingleLine()
    ensures '\n' !in DefaultAdminNotification.dataHeader
  {
    assert '\n' !in "Here is the information ";
    assert '\n' !in "the contributor provided:";
  }

  /** The footer of the default admin template holds no line break. */
  lemma AdminFooterSingleLine()
    ensures '\n' !in DefaultAdminNotification.footer
  {
    FooterOpeningSingleLine();
    FooterClosingSingleLine();
  }

  /** The first two pieces of the default footer hold no line break. */
  lemma FooterOpeningSingleLine()
    ensures '\n' !in "This e-mail was sent from an online " + "form on the Bridgewater Democratic "
  {
    assert '\n' !in "This e-mail was sent from an online ";
    assert '\n' !in "form on the Bridgewater Democratic ";
  }

  /** The last two pieces of the default footer hold no line break. */
  lemma FooterClosingSingleLine()
    ensures '\n' !in "Town Committee website " + "(http://bridgewaterdems.org)"
  {
    assert '\n' !in "Town Committee website ";
    assert '\n' !in "(http://bridgewaterdems.org)";
  }

  /** The two halves of the default closing hold no line break. */
  lemma ClosingHalvesSingleLine()
    ensures '\n' !in "Best regards," && '\n' !in "Bridgewater Democratic Town Committee"
  {
  }
}

/**
 * What the defaults overlay guarantees: an empty stored document gives the
 * defaults, a complete one gives itself, stored arrays replace default arrays
 * whole, nested objects are overlaid one level deep, and the shallow-spread
 * sections replace whole values.
 */
module ContentMergeLaws {
  import opened Wrappers
  import opened SiteSchema
  import opened SiteStored
  import opened SiteMerge
  import opened DonationSchema
  import opened DonationStored
  import opened DonationMerge

  /** A merged value is the stored one when the key is present and the default otherwise. */
  predicate StoredOrDefault<T(==)>(merged: T, stored: Option<T>, default: T) {
    match stored
    case Some(v) => merged == v
    case None => merged == default
  }

  // ------------------------------------------------------------------
  // mergeSiteContent

  /** With nothing stored, the merge yields the defaults. */
  lemma SiteMergeOfEmpty(d: SiteContent)
    ensures MergeSiteContent(d, EmptySiteContent) == d
  {
  }

  /** A complete stored document (what saving a document writes) comes back unchanged, whatever the defaults. */
  lemma SiteMergeOfComplete(d: SiteContent, doc: SiteContent)
    ensures MergeSiteContent(d, AsStoredSiteContent(doc)) == doc
  {
  }

  /** Merging is idempotent: storing a merged document and merging it again changes nothing. */
  lemma SiteMergeIdempotent(d: SiteContent, s: StoredSiteContent)
    ensures MergeSiteContent(d, AsStoredSiteContent(MergeSiteContent(d, s))) == MergeSiteContent(d, s)
  {
    SiteMergeOfComplete(d, MergeSiteContent(d, s));
  }

  /** Every array field is the stored array verbatim when present, else the default array: never an element-wise mix. */
  lemma SiteArraysReplacedWhole(d: SiteContent, s: StoredSiteContent)
    ensures var r := MergeSiteContent(d, s);
      StoredOrDefault(r.header.navigation, s.header.navigation, d.header.navigation)
      && StoredOrDefault(r.footer.categories.links, s.footer.categories.links, d.footer.categories.links)
      && StoredOrDefault(r.home.heroSlider, s.home.heroSlider, d.home.heroSlider)
      && StoredOrDefault(r.home.welcomeMessage, s.home.welcomeMessage, d.home.welcomeMessage)
      && StoredOrDefault(r.home.featureBlocks, s.home.featureBlocks, d.home.featureBlocks)
      && StoredOrDefault(r.candidates.candidates, s.candidates.candidates, d.candidates.candidates)
      && StoredOrDefault(r.candidates.callToAction.buttons, s.candidates.callToAction.buttons, d.candidates.callToAction.buttons)
      && StoredOrDefault(r.issues.sections.accomplishments.items, s.issues.sections.accomplishments.items, d.issues.sections.accomplishments.items)
      && StoredOrDefault(r.issues.sections.futurePlans.items, s.issues.sections.futurePlans.items, d.issues.sections.futurePlans.items)
      && StoredOrDefault(r.endorsements.individualEndorsements, s.endorsements.individualEndorsements, d.endorsements.individualEndorsements)
      && StoredOrDefault(r.endorsements.organizationEndorsements, s.endorsements.organizationEndorsements, d.endorsements.organizationEndorsements)
      && StoredOrDefault(r.endorsements.mediaEndorsements, s.endorsements.mediaEndorsements, d.endorsements.mediaEndorsements)
      && StoredOrDefault(r.volunteer.roles, s.volunteer.roles, d.volunteer.roles)
      && StoredOrDefault(r.volunteer.benefits, s.volunteer.benefits, d.volunteer.benefits)
      && StoredOrDefault(r.volunteer.callToAction.formFields, s.volunteer.callToAction.formFields, d.volunteer.callToAction.formFields)
      && StoredOrDefault(r.vote.tabs.locations.pollingLocations, s.vote.tabs.locations.pollingLocations, d.vote.tabs.locations.pollingLocations)
      && StoredOrDefault(r.vote.tabs.dates.importantDates, s.vote.tabs.dates.importantDates, d.vote.tabs.dates.importantDates)
      && StoredOrDefault(r.vote.tabs.candidates.candidateInfo, s.vote.tabs.candidates.candidateInfo, d.vote.tabs.candidates.candidateInfo)
      && StoredOrDefault(r.vote.tabs.candidates.learnMore.buttons, s.vote.tabs.candidates.learnMore.buttons, d.vote.tabs.candidates.learnMore.buttons)
      && StoredOrDefault(r.vote.callToAction.buttons, s.vote.callToAction.buttons, d.vote.callToAction.buttons)
      && StoredOrDefault(r.contact.contactForm.fields, s.contact.contactForm.fields, d.contact.contactForm.fields)
      && StoredOrDefault(r.contact.officeHours.schedule, s.contact.officeHours.schedule, d.contact.officeHours.schedule)
      && StoredOrDefault(r.contact.socialMedia, s.contact.socialMedia, d.contact.socialMedia)
      && StoredOrDefault(r.issues.callToAction.buttons, s.issues.callToAction.buttons, d.issues.callToAction.buttons)
      && StoredOrDefault(r.vote.tabs.dates.electionDayReminders.items, s.vote.tabs.dates.electionDayReminders.items, d.vote.tabs.dates.electionDayReminders.items)
      && StoredOrDefault(r.vote.votingRights.youHaveTheRight.items, s.vote.votingRights.youHaveTheRight.items, d.vote.votingRights.youHaveTheRight.items)
      && StoredOrDefault(r.vote.votingRights.needAssistance.contacts, s.vote.votingRights.needAssistance.contacts, d.vote.votingRights.needAssistance.contacts)
  {
  }

  /** Nested objects are overlaid one level deep: each of their keys separately takes the stored value or keeps the default. */
  lemma SiteNestedObjectsOverlaid(d: SiteContent, s: StoredSiteContent)
    ensures var r := MergeSiteContent(d, s);
      StoredOrDefault(r.header.logo.src, s.header.logo.src, d.header.logo.src)
      && StoredOrDefault(r.header.logo.alt, s.header.logo.alt, d.header.logo.alt)
      && StoredOrDefault(r.header.logo.fallbackText, s.header.logo.fallbackText, d.header.logo.fallbackText)
      && StoredOrDefault(r.header.donateButton.text, s.header.donateButton.text, d.header.donateButton.text)
      && StoredOrDefault(r.header.donateButton.link, s.header.donateButton.link, d.header.donateButton.link)
      && StoredOrDefault(r.sidebar.search.placeholder, s.sidebar.search.placeholder, d.sidebar.search.placeholder)
      && StoredOrDefault(r.sidebar.search.enabled, s.sidebar.search.enabled, d.sidebar.search.enabled)
      && StoredOrDefault(r.sidebar.contactWidget.title, s.sidebar.contactWidget.title, d.sidebar.contactWidget.title)
      && StoredOrDefault(r.sidebar.contactWidget.linkText, s.sidebar.contactWidget.linkText, d.sidebar.contactWidget.linkText)
      && StoredOrDefault(r.sidebar.contactWidget.linkHref, s.sidebar.contactWidget.linkHref, d.sidebar.contactWidget.linkHref)
      && StoredOrDefault(r.sidebar.aboutWidget.title, s.sidebar.aboutWidget.title, d.sidebar.aboutWidget.title)
      && StoredOrDefault(r.sidebar.aboutWidget.linkText, s.sidebar.aboutWidget.linkText, d.sidebar.aboutWidget.linkText)
      && StoredOrDefault(r.sidebar.aboutWidget.linkHref, s.sidebar.aboutWidget.linkHref, d.sidebar.aboutWidget.linkHref)
  {
  }

  /**
   * The sections merged by a single spread replace whole values: a stored
   * `home.heroSlider`, `about.sections.whoWeAre` or registration sub-block is
   * taken as it is, and the same key of the defaults is not consulted.
   */
  lemma SiteShallowSectionsReplaceWhole(d: SiteContent, d': SiteContent, s: StoredSiteContent)
    ensures var r, r' := MergeSiteContent(d, s), MergeSiteContent(d', s);
      (s.home.heroSlider.Some? ==> r.home.heroSlider == r'.home.heroSlider == s.home.heroSlider.value)
      && (s.about.sections.whoWeAre.Some? ==> r.about.sections.whoWeAre == r'.about.sections.whoWeAre == s.about.sections.whoWeAre.value)
      && (s.about.sections.officers.Some? ==> r.about.sections.officers == r'.about.sections.officers == s.about.sections.officers.value)
      && (s.about.sections.whatWeStriveFor.Some? ==> r.about.sections.whatWeStriveFor == r'.about.sections.whatWeStriveFor == s.about.sections.whatWeStriveFor.value)
      && (var c, c', sc := r.vote.tabs.registration.content, r'.vote.tabs.registration.content, s.vote.tabs.registration.content;
          (sc.whoCanRegister.Some? ==> c.whoCanRegister == c'.whoCanRegister == sc.whoCanRegister.value)
          && (sc.howToRegister.Some? ==> c.howToRegister == c'.howToRegister == sc.howToRegister.value)
          && (sc.whatYouNeed.Some? ==> c.whatYouNeed == c'.whatYouNeed == sc.whatYouNeed.value)
          && (sc.checkStatus.Some? ==> c.checkStatus == c'.checkStatus == sc.checkStatus.value)
          && (sc.needHelp.Some? ==> c.needHelp == c'.needHelp == sc.needHelp.value))
  {
    ShallowSectionsTaken(d, s);
    ShallowSectionsTaken(d', s);
  }

  /** The shallow keys of one merge are the stored values, whenever stored. */
  lemma ShallowSectionsTaken(d: SiteContent, s: StoredSiteContent)
    ensures var r := MergeSiteContent(d, s);
      (s.home.heroSlider.Some? ==> r.home.heroSlider == s.home.heroSlider.value)
      && (s.about.sections.whoWeAre.Some? ==> r.about.sections.whoWeAre == s.about.sections.whoWeAre.value)
      && (s.about.sections.officers.Some? ==> r.about.sections.officers == s.about.sections.officers.value)
      && (s.about.sections.whatWeStriveFor.Some? ==> r.about.sections.whatWeStriveFor == s.about.sections.whatWeStriveFor.value)
      && (var c, sc := r.vote.tabs.registration.content, s.vote.tabs.registration.content;
          (sc.whoCanRegister.Some? ==> c.whoCanRegister == sc.whoCanRegister.value)
          && (sc.howToRegister.Some? ==> c.howToRegister == sc.howToRegister.value)
          && (sc.whatYouNeed.Some? ==> c.whatYouNeed == sc.whatYouNeed.value)
          && (sc.checkStatus.Some? ==> c.checkStatus == sc.checkStatus.value)
          && (sc.needHelp.Some? ==> c.needHelp == sc.needHelp.value))
  {
  }

  // ------------------------------------------------------------------
  // the merge inside getDonationContent

  /** With nothing stored, the merge yields the defaults. */
  lemma DonationMergeOfEmpty(d: DonationContent)
    ensures MergeDonationContent(d, EmptyDonationContent) == d
  {
  }

  /** A complete stored document comes back unchanged, whatever the defaults. */
  lemma DonationMergeOfComplete(d: DonationContent, doc: DonationContent)
    ensures MergeDonationContent(d, AsStoredDonationContent(doc)) == doc
  {
  }

  /** Merging is idempotent: storing a merged document and merging it again changes nothing. */
  lemma DonationMergeIdempotent(d: DonationContent, s: StoredDonationContent)
    ensures MergeDonationContent(d, AsStoredDonationContent(MergeDonationContent(d, s))) == MergeDonationContent(d, s)
  {
    DonationMergeOfComplete(d, MergeDonationContent(d, s));
  }

  /**
   * Each sub-record is the default with the stored keys overriding, key by key:
   * shown here for both e-mail templates, whose keys the e-mails are built from,
   * and for the mailing address, which is replaced whole.
   */
  lemma DonationSubRecordsOverlaid(d: DonationContent, s: StoredDonationContent)
    ensures var r := MergeDonationContent(d, s);
      var a, sa, da := r.emailTemplates.adminNotification, s.emailTemplates.adminNotification, d.emailTemplates.adminNotification;
      var c, sc, dc := r.emailTemplates.donorConfirmation, s.emailTemplates.donorConfirmation, d.emailTemplates.donorConfirmation;
      StoredOrDefault(a.subject, sa.subject, da.subject)
      && StoredOrDefault(a.header, sa.header, da.header)
      && StoredOrDefault(a.introText, sa.introText, da.introText)
      && StoredOrDefault(a.dataHeader, sa.dataHeader, da.dataHeader)
      && StoredOrDefault(a.footer, sa.footer, da.footer)
      && StoredOrDefault(c.subject, sc.subject, dc.subject)
      && StoredOrDefault(c.greeting, sc.greeting, dc.greeting)
      && StoredOrDefault(c.mainMessage, sc.mainMessage, dc.mainMessage)
      && StoredOrDefault(c.summaryHeader, sc.summaryHeader, dc.summaryHeader)
      && StoredOrDefault(c.supportMessage, sc.supportMessage, dc.supportMessage)
      && StoredOrDefault(c.contactMessage, sc.contactMessage, dc.contactMessage)
      && StoredOrDefault(c.closing, sc.closing, dc.closing)
      && StoredOrDefault(c.footer, sc.footer, dc.footer)
      && StoredOrDefault(r.donatePage.mailingAddress, s.donatePage.mailingAddress, d.donatePage.mailingAddress)
      && StoredOrDefault(r.thankYouPage.nextSteps, s.thankYouPage.nextSteps, d.thankYouPage.nextSteps)
  {
  }

  /** Every key of the donate page, the mailing address as a whole, is stored-or-default on its own. */
  lemma DonatePageOverlaid(d: DonationContent, s: StoredDonationContent)
    ensures var r, sr, dr := MergeDonationContent(d, s).donatePage, s.donatePage, d.donatePage;
      StoredOrDefault(r.title, sr.title, dr.title)
      && StoredOrDefault(r.subtitle, sr.subtitle, dr.subtitle)
      && StoredOrDefault(r.optionsTitle, sr.optionsTitle, dr.optionsTitle)
      && StoredOrDefault(r.option1Title, sr.option1Title, dr.option1Title)
      && StoredOrDefault(r.option1Description, sr.option1Description, dr.option1Description)
      && StoredOrDefault(r.option1Note, sr.option1Note, dr.option1Note)
      && StoredOrDefault(r.option2Title, sr.option2Title, dr.option2Title)
      && StoredOrDefault(r.option2Description, sr.option2Description, dr.option2Description)
      && StoredOrDefault(r.option2Warning, sr.option2Warning, dr.option2Warning)
      && StoredOrDefault(r.option2Instructions, sr.option2Instructions, dr.option2Instructions)
      && StoredOrDefault(r.option2MailingInstructions, sr.option2MailingInstructions, dr.option2MailingInstructions)
      && StoredOrDefault(r.mailingAddress, sr.mailingAddress, dr.mailingAddress)
      && StoredOrDefault(r.thankYouMessage, sr.thankYouMessage, dr.thankYouMessage)
  {
  }

  /** Every key of the thank-you page copy, the next-steps list as a whole, is stored-or-default on its own. */
  lemma ThankYouPageOverlaid(d: DonationContent, s: StoredDonationContent)
    ensures var r, sr, dr := MergeDonationContent(d, s).thankYouPage, s.thankYouPage, d.thankYouPage;
      StoredOrDefault(r.title, sr.title, dr.title)
      && StoredOrDefault(r.subtitle, sr.subtitle, dr.subtitle)
      && StoredOrDefault(r.summaryTitle, sr.summaryTitle, dr.summaryTitle)
      && StoredOrDefault(r.nextStepsTitle, sr.nextStepsTitle, dr.nextStepsTitle)
      && StoredOrDefault(r.nextSteps, sr.nextSteps, dr.nextSteps)
      && StoredOrDefault(r.engagementTitle, sr.engagementTitle, dr.engagementTitle)
      && StoredOrDefault(r.engagementSubtitle, sr.engagementSubtitle, dr.engagementSubtitle)
      && StoredOrDefault(r.contactNote, sr.contactNote, dr.contactNote)
  {
  }

  /** Every key of the donor form copy is stored-or-default on its own. */
  lemma SeecFormContentOverlaid(d: DonationContent, s: StoredDonationContent)
    ensures var r, sr, dr := MergeDonationContent(d, s).seecForm, s.seecForm, d.seecForm;
      StoredOrDefault(r.title, sr.title, dr.title)
      && StoredOrDefault(r.subtitle, sr.subtitle, dr.subtitle)
      && StoredOrDefault(r.contributorSectionTitle, sr.contributorSectionTitle, dr.contributorSectionTitle)
      && StoredOrDefault(r.donationSectionTitle, sr.donationSectionTitle, dr.donationSectionTitle)
      && StoredOrDefault(r.addressSectionTitle, sr.addressSectionTitle, dr.addressSectionTitle)
      && StoredOrDefault(r.employmentSectionTitle, sr.employmentSectionTitle, dr.employmentSectionTitle)
      && StoredOrDefault(r.legalSectionTitle, sr.legalSectionTitle, dr.legalSectionTitle)
      && StoredOrDefault(r.legalInstructions, sr.legalInstructions, dr.legalInstructions)
      && StoredOrDefault(r.certificationTitle, sr.certificationTitle, dr.certificationTitle)
      && StoredOrDefault(r.certificationText, sr.certificationText, dr.certificationText)
      && StoredOrDefault(r.signatureInstructions, sr.signatureInstructions, dr.signatureInstructions)
      && StoredOrDefault(r.submitMessage, sr.submitMessage, dr.submitMessage)
      && StoredOrDefault(r.submitButtonText, sr.submitButtonText, dr.submitButtonText)
  {
  }
}

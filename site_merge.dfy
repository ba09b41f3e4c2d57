/** The defaults overlay of `mergeSiteContent`, one function per merged object. */
module SiteMerge {
  import opened Wrappers
  import opened SiteSchema
  import opened SiteStored

  /** Overlay of a stored `Logo` on its default, key by key: nothing stored gives the default, a complete stored object gives itself back. */
  function MergeLogo(d: Logo, s: StoredLogo): (r: Logo)
    ensures s == EmptyLogo ==> r == d
    ensures forall x :: s == AsStoredLogo(x) ==> r == x
  {
    Logo(
      src := Overlay(s.src, d.src),
      alt := Overlay(s.alt, d.alt),
      fallbackText := Overlay(s.fallbackText, d.fallbackText))
  }

  /** Overlay of a stored `DonateButton` on its default, key by key: nothing stored gives the default, a complete stored object gives itself back. */
  function MergeDonateButton(d: DonateButton, s: StoredDonateButton): (r: DonateButton)
    ensures s == EmptyDonateButton ==> r == d
    ensures forall x :: s == AsStoredDonateButton(x) ==> r == x
  {
    DonateButton(
      text := Overlay(s.text, d.text),
      link := Overlay(s.link, d.link))
  }

  /** Overlay of a stored `HeaderSection` on its default, key by key: nothing stored gives the default, a complete stored object gives itself back. */
  function MergeHeaderSection(d: HeaderSection, s: StoredHeaderSection): (r: HeaderSection)
    ensures s == EmptyHeaderSection ==> r == d
    ensures forall x :: s == AsStoredHeaderSection(x) ==> r == x
  {
    HeaderSection(
      logo := MergeLogo(d.logo, s.logo),
      navigation := Overlay(s.navigation, d.navigation),
      donateButton := MergeDonateButton(d.donateButton, s.donateButton))
  }

  /** Overlay of a stored `OurTown` on its default, key by key: nothing stored gives the default, a complete stored object gives itself back. */
  function MergeOurTown(d: OurTown, s: StoredOurTown): (r: OurTown)
    ensures s == EmptyOurTown ==> r == d
    ensures forall x :: s == AsStoredOurTown(x) ==> r == x
  {
    OurTown(
      title := Overlay(s.title, d.title),
      quote := Overlay(s.quote, d.quote),
      attribution := Overlay(s.attribution, d.attribution))
  }

  /** Overlay of a stored `FooterCategories` on its default, key by key: nothing stored gives the default, a complete stored object gives itself back. */
  function MergeFooterCategories(d: FooterCategories, s: StoredFooterCategories): (r: FooterCategories)
    ensures s == EmptyFooterCategories ==> r == d
    ensures forall x :: s == AsStoredFooterCategories(x) ==> r == x
  {
    FooterCategories(
      title := Overlay(s.title, d.title),
      links := Overlay(s.links, d.links))
  }

  /** Overlay of a stored `Copyright` on its default, key by key: nothing stored gives the default, a complete stored object gives itself back. */
  function MergeCopyright(d: Copyright, s: StoredCopyright): (r: Copyright)
    ensures s == EmptyCopyright ==> r == d
    ensures forall x :: s == AsStoredCopyright(x) ==> r == x
  {
    Copyright(
      text := Overlay(s.text, d.text),
      address := Overlay(s.address, d.address))
  }

  /** Overlay of a stored `FooterSection` on its default, key by key: nothing stored gives the default, a complete stored object gives itself back. */
  function MergeFooterSection(d: FooterSection, s: StoredFooterSection): (r: FooterSection)
    ensures s == EmptyFooterSection ==> r == d
    ensures forall x :: s == AsStoredFooterSection(x) ==> r == x
  {
    FooterSection(
      ourTown := MergeOurTown(d.ourTown, s.ourTown),
      categories := MergeFooterCategories(d.categories, s.categories),
      copyright := MergeCopyright(d.copyright, s.copyright))
  }

  /** Overlay of a stored `SearchBox` on its default, key by key: nothing stored gives the default, a complete stored object gives itself back. */
  function MergeSearchBox(d: SearchBox, s: StoredSearchBox): (r: SearchBox)
    ensures s == EmptySearchBox ==> r == d
    ensures forall x :: s == AsStoredSearchBox(x) ==> r == x
  {
    SearchBox(
      placeholder := Overlay(s.placeholder, d.placeholder),
      enabled := Overlay(s.enabled, d.enabled))
  }

  /** Overlay of a stored `Widget` on its default, key by key: nothing stored gives the default, a complete stored object gives itself back. */
  function MergeWidget(d: Widget, s: StoredWidget): (r: Widget)
    ensures s == EmptyWidget ==> r == d
    ensures forall x :: s == AsStoredWidget(x) ==> r == x
  {
    Widget(
      title := Overlay(s.title, d.title),
      linkText := Overlay(s.linkText, d.linkText),
      linkHref := Overlay(s.linkHref, d.linkHref))
  }

  /** Overlay of a stored `SidebarSection` on its default, key by key: nothing stored gives the default, a complete stored object gives itself back. */
  function MergeSidebarSection(d: SidebarSection, s: StoredSidebarSection): (r: SidebarSection)
    ensures s == EmptySidebarSection ==> r == d
    ensures forall x :: s == AsStoredSidebarSection(x) ==> r == x
  {
    SidebarSection(
      search := MergeSearchBox(d.search, s.search),
      contactWidget := MergeWidget(d.contactWidget, s.contactWidget),
      aboutWidget := MergeWidget(d.aboutWidget, s.aboutWidget))
  }

  /** Overlay of a stored `HomeSection` on its default, key by key: nothing stored gives the default, a complete stored object gives itself back. */
  function MergeHomeSection(d: HomeSection, s: StoredHomeSection): (r: HomeSection)
    ensures s == EmptyHomeSection ==> r == d
    ensures forall x :: s == AsStoredHomeSection(x) ==> r == x
  {
    HomeSection(
      title := Overlay(s.title, d.title),
      heroSlider := Overlay(s.heroSlider, d.heroSlider),
      welcomeMessage := Overlay(s.welcomeMessage, d.welcomeMessage),
      featureBlocks := Overlay(s.featureBlocks, d.featureBlocks))
  }

  /** Overlay of a stored `TitledList` on its default, key by key: nothing stored gives the default, a complete stored object gives itself back. */
  function MergeTitledList(d: TitledList, s: StoredTitledList): (r: TitledList)
    ensures s == EmptyTitledList ==> r == d
    ensures forall x :: s == AsStoredTitledList(x) ==> r == x
  {
    TitledList(
      title := Overlay(s.title, d.title),
      items := Overlay(s.items, d.items))
  }

  /** Overlay of a stored `AboutSections` on its default, key by key: nothing stored gives the default, a complete stored object gives itself back. */
  function MergeAboutSections(d: AboutSections, s: StoredAboutSections): (r: AboutSections)
    ensures s == EmptyAboutSections ==> r == d
    ensures forall x :: s == AsStoredAboutSections(x) ==> r == x
  {
    AboutSections(
      whoWeAre := Overlay(s.whoWeAre, d.whoWeAre),
      officers := Overlay(s.officers, d.officers),
      whatWeStriveFor := Overlay(s.whatWeStriveFor, d.whatWeStriveFor))
  }

  /** Overlay of a stored `AboutSection` on its default, key by key: nothing stored gives the default, a complete stored object gives itself back. */
  function MergeAboutSection(d: AboutSection, s: StoredAboutSection): (r: AboutSection)
    ensures s == EmptyAboutSection ==> r == d
    ensures forall x :: s == AsStoredAboutSection(x) ==> r == x
  {
    AboutSection(
      title := Overlay(s.title, d.title),
      sections := MergeAboutSections(d.sections, s.sections),
      joinUsMessage := Overlay(s.joinUsMessage, d.joinUsMessage))
  }

  /** Overlay of a stored `CallToAction` on its default, key by key: nothing stored gives the default, a complete stored object gives itself back. */
  function MergeCallToAction(d: CallToAction, s: StoredCallToAction): (r: CallToAction)
    ensures s == EmptyCallToAction ==> r == d
    ensures forall x :: s == AsStoredCallToAction(x) ==> r == x
  {
    CallToAction(
      title := Overlay(s.title, d.title),
      message := Overlay(s.message, d.message),
      buttons := Overlay(s.buttons, d.buttons))
  }

  /** Overlay of a stored `CandidatesSection` on its default, key by key: nothing stored gives the default, a complete stored object gives itself back. */
  function MergeCandidatesSection(d: CandidatesSection, s: StoredCandidatesSection): (r: CandidatesSection)
    ensures s == EmptyCandidatesSection ==> r == d
    ensures forall x :: s == AsStoredCandidatesSection(x) ==> r == x
  {
    CandidatesSection(
      title := Overlay(s.title, d.title),
      subtitle := Overlay(s.subtitle, d.subtitle),
      candidates := Overlay(s.candidates, d.candidates),
      callToAction := MergeCallToAction(d.callToAction, s.callToAction))
  }

  /** Overlay of a stored `AccomplishmentsBlock` on its default, key by key: nothing stored gives the default, a complete stored object gives itself back. */
  function MergeAccomplishmentsBlock(d: AccomplishmentsBlock, s: StoredAccomplishmentsBlock): (r: AccomplishmentsBlock)
    ensures s == EmptyAccomplishmentsBlock ==> r == d
    ensures forall x :: s == AsStoredAccomplishmentsBlock(x) ==> r == x
  {
    AccomplishmentsBlock(
      enabled := Overlay(s.enabled, d.enabled),
      title := Overlay(s.title, d.title),
      items := Overlay(s.items, d.items))
  }

  /** Overlay of a stored `FuturePlansBlock` on its default, key by key: nothing stored gives the default, a complete stored object gives itself back. */
  function MergeFuturePlansBlock(d: FuturePlansBlock, s: StoredFuturePlansBlock): (r: FuturePlansBlock)
    ensures s == EmptyFuturePlansBlock ==> r == d
    ensures forall x :: s == AsStoredFuturePlansBlock(x) ==> r == x
  {
    FuturePlansBlock(
      enabled := Overlay(s.enabled, d.enabled),
      title := Overlay(s.title, d.title),
      items := Overlay(s.items, d.items))
  }

  /** Overlay of a stored `IssuesSections` on its default, key by key: nothing stored gives the default, a complete stored object gives itself back. */
  function MergeIssuesSections(d: IssuesSections, s: StoredIssuesSections): (r: IssuesSections)
    ensures s == EmptyIssuesSections ==> r == d
    ensures forall x :: s == AsStoredIssuesSections(x) ==> r == x
  {
    IssuesSections(
      accomplishments := MergeAccomplishmentsBlock(d.accomplishments, s.accomplishments),
      futurePlans := MergeFuturePlansBlock(d.futurePlans, s.futurePlans))
  }

  /** Overlay of a stored `IssuesSection` on its default, key by key: nothing stored gives the default, a complete stored object gives itself back. */
  function MergeIssuesSection(d: IssuesSection, s: StoredIssuesSection): (r: IssuesSection)
    ensures s == EmptyIssuesSection ==> r == d
    ensures forall x :: s == AsStoredIssuesSection(x) ==> r == x
  {
    IssuesSection(
      title := Overlay(s.title, d.title),
      subtitle := Overlay(s.subtitle, d.subtitle),
      sections := MergeIssuesSections(d.sections, s.sections),
      callToAction := MergeCallToAction(d.callToAction, s.callToAction))
  }

  /** Overlay of a stored `EndorsementsSection` on its default, key by key: nothing stored gives the default, a complete stored object gives itself back. */
  function MergeEndorsementsSection(d: EndorsementsSection, s: StoredEndorsementsSection): (r: EndorsementsSection)
    ensures s == EmptyEndorsementsSection ==> r == d
    ensures forall x :: s == AsStoredEndorsementsSection(x) ==> r == x
  {
    EndorsementsSection(
      title := Overlay(s.title, d.title),
      subtitle := Overlay(s.subtitle, d.subtitle),
      individualEndorsements := Overlay(s.individualEndorsements, d.individualEndorsements),
      organizationEndorsements := Overlay(s.organizationEndorsements, d.organizationEndorsements),
      mediaEndorsements := Overlay(s.mediaEndorsements, d.mediaEndorsements))
  }

  /** Overlay of a stored `VolunteerCallToAction` on its default, key by key: nothing stored gives the default, a complete stored object gives itself back. */
  function MergeVolunteerCallToAction(d: VolunteerCallToAction, s: StoredVolunteerCallToAction): (r: VolunteerCallToAction)
    ensures s == EmptyVolunteerCallToAction ==> r == d
    ensures forall x :: s == AsStoredVolunteerCallToAction(x) ==> r == x
  {
    VolunteerCallToAction(
      title := Overlay(s.title, d.title),
      message := Overlay(s.message, d.message),
      formFields := Overlay(s.formFields, d.formFields))
  }

  /** Overlay of a stored `VolunteerSection` on its default, key by key: nothing stored gives the default, a complete stored object gives itself back. */
  function MergeVolunteerSection(d: VolunteerSection, s: StoredVolunteerSection): (r: VolunteerSection)
    ensures s == EmptyVolunteerSection ==> r == d
    ensures forall x :: s == AsStoredVolunteerSection(x) ==> r == x
  {
    VolunteerSection(
      title := Overlay(s.title, d.title),
      subtitle := Overlay(s.subtitle, d.subtitle),
      introduction := Overlay(s.introduction, d.introduction),
      roles := Overlay(s.roles, d.roles),
      benefits := Overlay(s.benefits, d.benefits),
      callToAction := MergeVolunteerCallToAction(d.callToAction, s.callToAction))
  }

  /** Overlay of a stored `RegistrationContent` on its default, key by key: nothing stored gives the default, a complete stored object gives itself back. */
  function MergeRegistrationContent(d: RegistrationContent, s: StoredRegistrationContent): (r: RegistrationContent)
    ensures s == EmptyRegistrationContent ==> r == d
    ensures forall x :: s == AsStoredRegistrationContent(x) ==> r == x
  {
    RegistrationContent(
      whoCanRegister := Overlay(s.whoCanRegister, d.whoCanRegister),
      howToRegister := Overlay(s.howToRegister, d.howToRegister),
      whatYouNeed := Overlay(s.whatYouNeed, d.whatYouNeed),
      checkStatus := Overlay(s.checkStatus, d.checkStatus),
      needHelp := Overlay(s.needHelp, d.needHelp))
  }

  /** Overlay of a stored `RegistrationTab` on its default, key by key: nothing stored gives the default, a complete stored object gives itself back. */
  function MergeRegistrationTab(d: RegistrationTab, s: StoredRegistrationTab): (r: RegistrationTab)
    ensures s == EmptyRegistrationTab ==> r == d
    ensures forall x :: s == AsStoredRegistrationTab(x) ==> r == x
  {
    RegistrationTab(
      enabled := Overlay(s.enabled, d.enabled),
      labelText := Overlay(s.labelText, d.labelText),
      title := Overlay(s.title, d.title),
      subtitle := Overlay(s.subtitle, d.subtitle),
      content := MergeRegistrationContent(d.content, s.content))
  }

  /** Overlay of a stored `DistrictLookup` on its default, key by key: nothing stored gives the default, a complete stored object gives itself back. */
  function MergeDistrictLookup(d: DistrictLookup, s: StoredDistrictLookup): (r: DistrictLookup)
    ensures s == EmptyDistrictLookup ==> r == d
    ensures forall x :: s == AsStoredDistrictLookup(x) ==> r == x
  {
    DistrictLookup(
      title := Overlay(s.title, d.title),
      description := Overlay(s.description, d.description),
      buttonText := Overlay(s.buttonText, d.buttonText))
  }

  /** Overlay of a stored `LocationsTab` on its default, key by key: nothing stored gives the default, a complete stored object gives itself back. */
  function MergeLocationsTab(d: LocationsTab, s: StoredLocationsTab): (r: LocationsTab)
    ensures s == EmptyLocationsTab ==> r == d
    ensures forall x :: s == AsStoredLocationsTab(x) ==> r == x
  {
    LocationsTab(
      enabled := Overlay(s.enabled, d.enabled),
      labelText := Overlay(s.labelText, d.labelText),
      title := Overlay(s.title, d.title),
      subtitle := Overlay(s.subtitle, d.subtitle),
      pollingLocations := Overlay(s.pollingLocations, d.pollingLocations),
      districtLookup := MergeDistrictLookup(d.districtLookup, s.districtLookup))
  }

  /** Overlay of a stored `DatesTab` on its default, key by key: nothing stored gives the default, a complete stored object gives itself back. */
  function MergeDatesTab(d: DatesTab, s: StoredDatesTab): (r: DatesTab)
    ensures s == EmptyDatesTab ==> r == d
    ensures forall x :: s == AsStoredDatesTab(x) ==> r == x
  {
    DatesTab(
      enabled := Overlay(s.enabled, d.enabled),
      labelText := Overlay(s.labelText, d.labelText),
      title := Overlay(s.title, d.title),
      subtitle := Overlay(s.subtitle, d.subtitle),
      importantDates := Overlay(s.importantDates, d.importantDates),
      electionDayReminders := MergeTitledList(d.electionDayReminders, s.electionDayReminders))
  }

  /** Overlay of a stored `LearnMore` on its default, key by key: nothing stored gives the default, a complete stored object gives itself back. */
  function MergeLearnMore(d: LearnMore, s: StoredLearnMore): (r: LearnMore)
    ensures s == EmptyLearnMore ==> r == d
    ensures forall x :: s == AsStoredLearnMore(x) ==> r == x
  {
    LearnMore(
      title := Overlay(s.title, d.title),
      description := Overlay(s.description, d.description),
      buttons := Overlay(s.buttons, d.buttons))
  }

  /** Overlay of a stored `CandidatesTab` on its default, key by key: nothing stored gives the default, a complete stored object gives itself back. */
  function MergeCandidatesTab(d: CandidatesTab, s: StoredCandidatesTab): (r: CandidatesTab)
    ensures s == EmptyCandidatesTab ==> r == d
    ensures forall x :: s == AsStoredCandidatesTab(x) ==> r == x
  {
    CandidatesTab(
      enabled := Overlay(s.enabled, d.enabled),
      labelText := Overlay(s.labelText, d.labelText),
      title := Overlay(s.title, d.title),
      subtitle := Overlay(s.subtitle, d.subtitle),
      candidateInfo := Overlay(s.candidateInfo, d.candidateInfo),
      learnMore := MergeLearnMore(d.learnMore, s.learnMore))
  }

  /** Overlay of a stored `VoteTabs` on its default, key by key: nothing stored gives the default, a complete stored object gives itself back. */
  function MergeVoteTabs(d: VoteTabs, s: StoredVoteTabs): (r: VoteTabs)
    ensures s == EmptyVoteTabs ==> r == d
    ensures forall x :: s == AsStoredVoteTabs(x) ==> r == x
  {
    VoteTabs(
      registration := MergeRegistrationTab(d.registration, s.registration),
      locations := MergeLocationsTab(d.locations, s.locations),
      dates := MergeDatesTab(d.dates, s.dates),
      candidates := MergeCandidatesTab(d.candidates, s.candidates))
  }

  /** Overlay of a stored `VoteCallToAction` on its default, key by key: nothing stored gives the default, a complete stored object gives itself back. */
  function MergeVoteCallToAction(d: VoteCallToAction, s: StoredVoteCallToAction): (r: VoteCallToAction)
    ensures s == EmptyVoteCallToAction ==> r == d
    ensures forall x :: s == AsStoredVoteCallToAction(x) ==> r == x
  {
    VoteCallToAction(
      title := Overlay(s.title, d.title),
      message := Overlay(s.message, d.message),
      buttons := Overlay(s.buttons, d.buttons))
  }

  /** Overlay of a stored `NeedAssistance` on its default, key by key: nothing stored gives the default, a complete stored object gives itself back. */
  function MergeNeedAssistance(d: NeedAssistance, s: StoredNeedAssistance): (r: NeedAssistance)
    ensures s == EmptyNeedAssistance ==> r == d
    ensures forall x :: s == AsStoredNeedAssistance(x) ==> r == x
  {
    NeedAssistance(
      title := Overlay(s.title, d.title),
      contacts := Overlay(s.contacts, d.contacts))
  }

  /** Overlay of a stored `VotingRights` on its default, key by key: nothing stored gives the default, a complete stored object gives itself back. */
  function MergeVotingRights(d: VotingRights, s: StoredVotingRights): (r: VotingRights)
    ensures s == EmptyVotingRights ==> r == d
    ensures forall x :: s == AsStoredVotingRights(x) ==> r == x
  {
    VotingRights(
      title := Overlay(s.title, d.title),
      youHaveTheRight := MergeTitledList(d.youHaveTheRight, s.youHaveTheRight),
      needAssistance := MergeNeedAssistance(d.needAssistance, s.needAssistance))
  }

  /** Overlay of a stored `VoteSection` on its default, key by key: nothing stored gives the default, a complete stored object gives itself back. */
  function MergeVoteSection(d: VoteSection, s: StoredVoteSection): (r: VoteSection)
    ensures s == EmptyVoteSection ==> r == d
    ensures forall x :: s == AsStoredVoteSection(x) ==> r == x
  {
    VoteSection(
      title := Overlay(s.title, d.title),
      subtitle := Overlay(s.subtitle, d.subtitle),
      introduction := Overlay(s.introduction, d.introduction),
      tabs := MergeVoteTabs(d.tabs, s.tabs),
      callToAction := MergeVoteCallToAction(d.callToAction, s.callToAction),
      votingRights := MergeVotingRights(d.votingRights, s.votingRights))
  }

  /** Overlay of a stored `MailingAddress` on its default, key by key: nothing stored gives the default, a complete stored object gives itself back. */
  function MergeMailingAddress(d: MailingAddress, s: StoredMailingAddress): (r: MailingAddress)
    ensures s == EmptyMailingAddress ==> r == d
    ensures forall x :: s == AsStoredMailingAddress(x) ==> r == x
  {
    MailingAddress(
      organization := Overlay(s.organization, d.organization),
      addressLine1 := Overlay(s.addressLine1, d.addressLine1),
      addressLine2 := Overlay(s.addressLine2, d.addressLine2))
  }

  /** Overlay of a stored `ContactForm` on its default, key by key: nothing stored gives the default, a complete stored object gives itself back. */
  function MergeContactForm(d: ContactForm, s: StoredContactForm): (r: ContactForm)
    ensures s == EmptyContactForm ==> r == d
    ensures forall x :: s == AsStoredContactForm(x) ==> r == x
  {
    ContactForm(
      title := Overlay(s.title, d.title),
      subtitle := Overlay(s.subtitle, d.subtitle),
      fields := Overlay(s.fields, d.fields),
      submitButtonText := Overlay(s.submitButtonText, d.submitButtonText),
      successMessage := Overlay(s.successMessage, d.successMessage))
  }

  /** Overlay of a stored `OfficeHours` on its default, key by key: nothing stored gives the default, a complete stored object gives itself back. */
  function MergeOfficeHours(d: OfficeHours, s: StoredOfficeHours): (r: OfficeHours)
    ensures s == EmptyOfficeHours ==> r == d
    ensures forall x :: s == AsStoredOfficeHours(x) ==> r == x
  {
    OfficeHours(
      title := Overlay(s.title, d.title),
      schedule := Overlay(s.schedule, d.schedule))
  }

  /** Overlay of a stored `ContactSection` on its default, key by key: nothing stored gives the default, a complete stored object gives itself back. */
  function MergeContactSection(d: ContactSection, s: StoredContactSection): (r: ContactSection)
    ensures s == EmptyContactSection ==> r == d
    ensures forall x :: s == AsStoredContactSection(x) ==> r == x
  {
    ContactSection(
      title := Overlay(s.title, d.title),
      subtitle := Overlay(s.subtitle, d.subtitle),
      showPhoneNumber := Overlay(s.showPhoneNumber, d.showPhoneNumber),
      phoneNumber := Overlay(s.phoneNumber, d.phoneNumber),
      email := Overlay(s.email, d.email),
      mailingAddress := MergeMailingAddress(d.mailingAddress, s.mailingAddress),
      contactForm := MergeContactForm(d.contactForm, s.contactForm),
      officeHours := MergeOfficeHours(d.officeHours, s.officeHours),
      socialMedia := Overlay(s.socialMedia, d.socialMedia))
  }

  /** Overlay of a stored `SiteContent` on its default, key by key: nothing stored gives the default, a complete stored object gives itself back. */
  function MergeSiteContent(d: SiteContent, s: StoredSiteContent): (r: SiteContent)
    ensures s == EmptySiteContent ==> r == d
    ensures forall x :: s == AsStoredSiteContent(x) ==> r == x
  {
    SiteContent(
      header := MergeHeaderSection(d.header, s.header),
      footer := MergeFooterSection(d.footer, s.footer),
      sidebar := MergeSidebarSection(d.sidebar, s.sidebar),
      home := MergeHomeSection(d.home, s.home),
      about := MergeAboutSection(d.about, s.about),
      candidates := MergeCandidatesSection(d.candidates, s.candidates),
      issues := MergeIssuesSection(d.issues, s.issues),
      endorsements := MergeEndorsementsSection(d.endorsements, s.endorsements),
      volunteer := MergeVolunteerSection(d.volunteer, s.volunteer),
      vote := MergeVoteSection(d.vote, s.vote),
      contact := MergeContactSection(d.contact, s.contact))
  }

}

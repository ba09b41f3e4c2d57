/** Stored (parsed, possibly partial) site content as the merge receives it. */
module SiteStored {
  import opened Wrappers
  import opened SiteSchema

  /** A stored, possibly partial `Logo`: absent keys are `None`. */
  datatype StoredLogo = StoredLogo(
    src: Option<string>,
    alt: Option<string>,
    fallbackText: Option<string>
  )

  /** The stored form of a complete `Logo` (every key present). */
  function AsStoredLogo(x: Logo): StoredLogo {
    StoredLogo(
      src := Some(x.src),
      alt := Some(x.alt),
      fallbackText := Some(x.fallbackText))
  }

  /** The stored `Logo` with no keys at all (`{}`). */
  const EmptyLogo: StoredLogo :=
    StoredLogo(
      src := None,
      alt := None,
      fallbackText := None)

  /** A stored, possibly partial `DonateButton`: absent keys are `None`. */
  datatype StoredDonateButton = StoredDonateButton(
    text: Option<string>,
    link: Option<string>
  )

  /** The stored form of a complete `DonateButton` (every key present). */
  function AsStoredDonateButton(x: DonateButton): StoredDonateButton {
    StoredDonateButton(
      text := Some(x.text),
      link := Some(x.link))
  }

  /** The stored `DonateButton` with no keys at all (`{}`). */
  const EmptyDonateButton: StoredDonateButton :=
    StoredDonateButton(
      text := None,
      link := None)

  /** A stored, possibly partial `HeaderSection`: absent keys are `None`. */
  datatype StoredHeaderSection = StoredHeaderSection(
    logo: StoredLogo,
    navigation: Option<seq<NavItem>>,
    donateButton: StoredDonateButton
  )

  /** The stored form of a complete `HeaderSection` (every key present). */
  function AsStoredHeaderSection(x: HeaderSection): StoredHeaderSection {
    StoredHeaderSection(
      logo := AsStoredLogo(x.logo),
      navigation := Some(x.navigation),
      donateButton := AsStoredDonateButton(x.donateButton))
  }

  /** The stored `HeaderSection` with no keys at all (`{}`). */
  const EmptyHeaderSection: StoredHeaderSection :=
    StoredHeaderSection(
      logo := EmptyLogo,
      navigation := None,
      donateButton := EmptyDonateButton)

  /** A stored, possibly partial `OurTown`: absent keys are `None`. */
  datatype StoredOurTown = StoredOurTown(
    title: Option<string>,
    quote: Option<string>,
    attribution: Option<string>
  )

  /** The stored form of a complete `OurTown` (every key present). */
  function AsStoredOurTown(x: OurTown): StoredOurTown {
    StoredOurTown(
      title := Some(x.title),
      quote := Some(x.quote),
      attribution := Some(x.attribution))
  }

  /** The stored `OurTown` with no keys at all (`{}`). */
  const EmptyOurTown: StoredOurTown :=
    StoredOurTown(
      title := None,
      quote := None,
      attribution := None)

  /** A stored, possibly partial `FooterCategories`: absent keys are `None`. */
  datatype StoredFooterCategories = StoredFooterCategories(
    title: Option<string>,
    links: Option<seq<Link>>
  )

  /** The stored form of a complete `FooterCategories` (every key present). */
  function AsStoredFooterCategories(x: FooterCategories): StoredFooterCategories {
    StoredFooterCategories(
      title := Some(x.title),
      links := Some(x.links))
  }

  /** The stored `FooterCategories` with no keys at all (`{}`). */
  const EmptyFooterCategories: StoredFooterCategories :=
    StoredFooterCategories(
      title := None,
      links := None)

  /** A stored, possibly partial `Copyright`: absent keys are `None`. */
  datatype StoredCopyright = StoredCopyright(
    text: Option<string>,
    address: Option<string>
  )

  /** The stored form of a complete `Copyright` (every key present). */
  function AsStoredCopyright(x: Copyright): StoredCopyright {
    StoredCopyright(
      text := Some(x.text),
      address := Some(x.address))
  }

  /** The stored `Copyright` with no keys at all (`{}`). */
  const EmptyCopyright: StoredCopyright :=
    StoredCopyright(
      text := None,
      address := None)

  /** A stored, possibly partial `FooterSection`: absent keys are `None`. */
  datatype StoredFooterSection = StoredFooterSection(
    ourTown: StoredOurTown,
    categories: StoredFooterCategories,
    copyright: StoredCopyright
  )

  /** The stored form of a complete `FooterSection` (every key present). */
  function AsStoredFooterSection(x: FooterSection): StoredFooterSection {
    StoredFooterSection(
      ourTown := AsStoredOurTown(x.ourTown),
      categories := AsStoredFooterCategories(x.categories),
      copyright := AsStoredCopyright(x.copyright))
  }

  /** The stored `FooterSection` with no keys at all (`{}`). */
  const EmptyFooterSection: StoredFooterSection :=
    StoredFooterSection(
      ourTown := EmptyOurTown,
      categories := EmptyFooterCategories,
      copyright := EmptyCopyright)

  /** A stored, possibly partial `SearchBox`: absent keys are `None`. */
  datatype StoredSearchBox = StoredSearchBox(
    placeholder: Option<string>,
    enabled: Option<bool>
  )

  /** The stored form of a complete `SearchBox` (every key present). */
  function AsStoredSearchBox(x: SearchBox): StoredSearchBox {
    StoredSearchBox(
      placeholder := Some(x.placeholder),
      enabled := Some(x.enabled))
  }

  /** The stored `SearchBox` with no keys at all (`{}`). */
  const EmptySearchBox: StoredSearchBox :=
    StoredSearchBox(
      placeholder := None,
      enabled := None)

  /** A stored, possibly partial `Widget`: absent keys are `None`. */
  datatype StoredWidget = StoredWidget(
    title: Option<string>,
    linkText: Option<string>,
    linkHref: Option<string>
  )

  /** The stored form of a complete `Widget` (every key present). */
  function AsStoredWidget(x: Widget): StoredWidget {
    StoredWidget(
      title := Some(x.title),
      linkText := Some(x.linkText),
      linkHref := Some(x.linkHref))
  }

  /** The stored `Widget` with no keys at all (`{}`). */
  const EmptyWidget: StoredWidget :=
    StoredWidget(
      title := None,
      linkText := None,
      linkHref := None)

  /** A stored, possibly partial `SidebarSection`: absent keys are `None`. */
  datatype StoredSidebarSection = StoredSidebarSection(
    search: StoredSearchBox,
    contactWidget: StoredWidget,
    aboutWidget: StoredWidget
  )

  /** The stored form of a complete `SidebarSection` (every key present). */
  function AsStoredSidebarSection(x: SidebarSection): StoredSidebarSection {
    StoredSidebarSection(
      search := AsStoredSearchBox(x.search),
      contactWidget := AsStoredWidget(x.contactWidget),
      aboutWidget := AsStoredWidget(x.aboutWidget))
  }

  /** The stored `SidebarSection` with no keys at all (`{}`). */
  const EmptySidebarSection: StoredSidebarSection :=
    StoredSidebarSection(
      search := EmptySearchBox,
      contactWidget := EmptyWidget,
      aboutWidget := EmptyWidget)

  /** A stored, possibly partial `HomeSection`: absent keys are `None`. */
  datatype StoredHomeSection = StoredHomeSection(
    title: Option<string>,
    heroSlider: Option<seq<HeroSlide>>,
    welcomeMessage: Option<seq<string>>,
    featureBlocks: Option<seq<FeatureBlock>>
  )

  /** The stored form of a complete `HomeSection` (every key present). */
  function AsStoredHomeSection(x: HomeSection): StoredHomeSection {
    StoredHomeSection(
      title := Some(x.title),
      heroSlider := Some(x.heroSlider),
      welcomeMessage := Some(x.welcomeMessage),
      featureBlocks := Some(x.featureBlocks))
  }

  /** The stored `HomeSection` with no keys at all (`{}`). */
  const EmptyHomeSection: StoredHomeSection :=
    StoredHomeSection(
      title := None,
      heroSlider := None,
      welcomeMessage := None,
      featureBlocks := None)

  /** A stored, possibly partial `TitledList`: absent keys are `None`. */
  datatype StoredTitledList = StoredTitledList(
    title: Option<string>,
    items: Option<seq<string>>
  )

  /** The stored form of a complete `TitledList` (every key present). */
  function AsStoredTitledList(x: TitledList): StoredTitledList {
    StoredTitledList(
      title := Some(x.title),
      items := Some(x.items))
  }

  /** The stored `TitledList` with no keys at all (`{}`). */
  const EmptyTitledList: StoredTitledList :=
    StoredTitledList(
      title := None,
      items := None)

  /** A stored, possibly partial `AboutSections`: absent keys are `None`. */
  datatype StoredAboutSections = StoredAboutSections(
    whoWeAre: Option<TitledText>,
    officers: Option<TitledText>,
    whatWeStriveFor: Option<TitledList>
  )

  /** The stored form of a complete `AboutSections` (every key present). */
  function AsStoredAboutSections(x: AboutSections): StoredAboutSections {
    StoredAboutSections(
      whoWeAre := Some(x.whoWeAre),
      officers := Some(x.officers),
      whatWeStriveFor := Some(x.whatWeStriveFor))
  }

  /** The stored `AboutSections` with no keys at all (`{}`). */
  const EmptyAboutSections: StoredAboutSections :=
    StoredAboutSections(
      whoWeAre := None,
      officers := None,
      whatWeStriveFor := None)

  /** A stored, possibly partial `AboutSection`: absent keys are `None`. */
  datatype StoredAboutSection = StoredAboutSection(
    title: Option<string>,
    sections: StoredAboutSections,
    joinUsMessage: Option<string>
  )

  /** The stored form of a complete `AboutSection` (every key present). */
  function AsStoredAboutSection(x: AboutSection): StoredAboutSection {
    StoredAboutSection(
      title := Some(x.title),
      sections := AsStoredAboutSections(x.sections),
      joinUsMessage := Some(x.joinUsMessage))
  }

  /** The stored `AboutSection` with no keys at all (`{}`). */
  const EmptyAboutSection: StoredAboutSection :=
    StoredAboutSection(
      title := None,
      sections := EmptyAboutSections,
      joinUsMessage := None)

  /** A stored, possibly partial `CallToAction`: absent keys are `None`. */
  datatype StoredCallToAction = StoredCallToAction(
    title: Option<string>,
    message: Option<string>,
    buttons: Option<seq<LinkButton>>
  )

  /** The stored form of a complete `CallToAction` (every key present). */
  function AsStoredCallToAction(x: CallToAction): StoredCallToAction {
    StoredCallToAction(
      title := Some(x.title),
      message := Some(x.message),
      buttons := Some(x.buttons))
  }

  /** The stored `CallToAction` with no keys at all (`{}`). */
  const EmptyCallToAction: StoredCallToAction :=
    StoredCallToAction(
      title := None,
      message := None,
      buttons := None)

  /** A stored, possibly partial `CandidatesSection`: absent keys are `None`. */
  datatype StoredCandidatesSection = StoredCandidatesSection(
    title: Option<string>,
    subtitle: Option<string>,
    candidates: Option<seq<Candidate>>,
    callToAction: StoredCallToAction
  )

  /** The stored form of a complete `CandidatesSection` (every key present). */
  function AsStoredCandidatesSection(x: CandidatesSection): StoredCandidatesSection {
    StoredCandidatesSection(
      title := Some(x.title),
      subtitle := Some(x.subtitle),
      candidates := Some(x.candidates),
      callToAction := AsStoredCallToAction(x.callToAction))
  }

  /** The stored `CandidatesSection` with no keys at all (`{}`). */
  const EmptyCandidatesSection: StoredCandidatesSection :=
    StoredCandidatesSection(
      title := None,
      subtitle := None,
      candidates := None,
      callToAction := EmptyCallToAction)

  /** A stored, possibly partial `AccomplishmentsBlock`: absent keys are `None`. */
  datatype StoredAccomplishmentsBlock = StoredAccomplishmentsBlock(
    enabled: Option<bool>,
    title: Option<string>,
    items: Option<seq<Accomplishment>>
  )

  /** The stored form of a complete `AccomplishmentsBlock` (every key present). */
  function AsStoredAccomplishmentsBlock(x: AccomplishmentsBlock): StoredAccomplishmentsBlock {
    StoredAccomplishmentsBlock(
      enabled := Some(x.enabled),
      title := Some(x.title),
      items := Some(x.items))
  }

  /** The stored `AccomplishmentsBlock` with no keys at all (`{}`). */
  const EmptyAccomplishmentsBlock: StoredAccomplishmentsBlock :=
    StoredAccomplishmentsBlock(
      enabled := None,
      title := None,
      items := None)

  /** A stored, possibly partial `FuturePlansBlock`: absent keys are `None`. */
  datatype StoredFuturePlansBlock = StoredFuturePlansBlock(
    enabled: Option<bool>,
    title: Option<string>,
    items: Option<seq<FuturePlan>>
  )

  /** The stored form of a complete `FuturePlansBlock` (every key present). */
  function AsStoredFuturePlansBlock(x: FuturePlansBlock): StoredFuturePlansBlock {
    StoredFuturePlansBlock(
      enabled := Some(x.enabled),
      title := Some(x.title),
      items := Some(x.items))
  }

  /** The stored `FuturePlansBlock` with no keys at all (`{}`). */
  const EmptyFuturePlansBlock: StoredFuturePlansBlock :=
    StoredFuturePlansBlock(
      enabled := None,
      title := None,
      items := None)

  /** A stored, possibly partial `IssuesSections`: absent keys are `None`. */
  datatype StoredIssuesSections = StoredIssuesSections(
    accomplishments: StoredAccomplishmentsBlock,
    futurePlans: StoredFuturePlansBlock
  )

  /** The stored form of a complete `IssuesSections` (every key present). */
  function AsStoredIssuesSections(x: IssuesSections): StoredIssuesSections {
    StoredIssuesSections(
      accomplishments := AsStoredAccomplishmentsBlock(x.accomplishments),
      futurePlans := AsStoredFuturePlansBlock(x.futurePlans))
  }

  /** The stored `IssuesSections` with no keys at all (`{}`). */
  const EmptyIssuesSections: StoredIssuesSections :=
    StoredIssuesSections(
      accomplishments := EmptyAccomplishmentsBlock,
      futurePlans := EmptyFuturePlansBlock)

  /** A stored, possibly partial `IssuesSection`: absent keys are `None`. */
  datatype StoredIssuesSection = StoredIssuesSection(
    title: Option<string>,
    subtitle: Option<string>,
    sections: StoredIssuesSections,
    callToAction: StoredCallToAction
  )

  /** The stored form of a complete `IssuesSection` (every key present). */
  function AsStoredIssuesSection(x: IssuesSection): StoredIssuesSection {
    StoredIssuesSection(
      title := Some(x.title),
      subtitle := Some(x.subtitle),
      sections := AsStoredIssuesSections(x.sections),
      callToAction := AsStoredCallToAction(x.callToAction))
  }

  /** The stored `IssuesSection` with no keys at all (`{}`). */
  const EmptyIssuesSection: StoredIssuesSection :=
    StoredIssuesSection(
      title := None,
      subtitle := None,
      sections := EmptyIssuesSections,
      callToAction := EmptyCallToAction)

  /** A stored, possibly partial `EndorsementsSection`: absent keys are `None`. */
  datatype StoredEndorsementsSection = StoredEndorsementsSection(
    title: Option<string>,
    subtitle: Option<string>,
    individualEndorsements: Option<seq<IndividualEndorsement>>,
    organizationEndorsements: Option<seq<OrganizationEndorsement>>,
    mediaEndorsements: Option<seq<MediaEndorsement>>
  )

  /** The stored form of a complete `EndorsementsSection` (every key present). */
  function AsStoredEndorsementsSection(x: EndorsementsSection): StoredEndorsementsSection {
    StoredEndorsementsSection(
      title := Some(x.title),
      subtitle := Some(x.subtitle),
      individualEndorsements := Some(x.individualEndorsements),
      organizationEndorsements := Some(x.organizationEndorsements),
      mediaEndorsements := Some(x.mediaEndorsements))
  }

  /** The stored `EndorsementsSection` with no keys at all (`{}`). */
  const EmptyEndorsementsSection: StoredEndorsementsSection :=
    StoredEndorsementsSection(
      title := None,
      subtitle := None,
      individualEndorsements := None,
      organizationEndorsements := None,
      mediaEndorsements := None)

  /** A stored, possibly partial `VolunteerCallToAction`: absent keys are `None`. */
  datatype StoredVolunteerCallToAction = StoredVolunteerCallToAction(
    title: Option<string>,
    message: Option<string>,
    formFields: Option<seq<FormField>>
  )

  /** The stored form of a complete `VolunteerCallToAction` (every key present). */
  function AsStoredVolunteerCallToAction(x: VolunteerCallToAction): StoredVolunteerCallToAction {
    StoredVolunteerCallToAction(
      title := Some(x.title),
      message := Some(x.message),
      formFields := Some(x.formFields))
  }

  /** The stored `VolunteerCallToAction` with no keys at all (`{}`). */
  const EmptyVolunteerCallToAction: StoredVolunteerCallToAction :=
    StoredVolunteerCallToAction(
      title := None,
      message := None,
      formFields := None)

  /** A stored, possibly partial `VolunteerSection`: absent keys are `None`. */
  datatype StoredVolunteerSection = StoredVolunteerSection(
    title: Option<string>,
    subtitle: Option<string>,
    introduction: Option<string>,
    roles: Option<seq<VolunteerRole>>,
    benefits: Option<seq<string>>,
    callToAction: StoredVolunteerCallToAction
  )

  /** The stored form of a complete `VolunteerSection` (every key present). */
  function AsStoredVolunteerSection(x: VolunteerSection): StoredVolunteerSection {
    StoredVolunteerSection(
      title := Some(x.title),
      subtitle := Some(x.subtitle),
      introduction := Some(x.introduction),
      roles := Some(x.roles),
      benefits := Some(x.benefits),
      callToAction := AsStoredVolunteerCallToAction(x.callToAction))
  }

  /** The stored `VolunteerSection` with no keys at all (`{}`). */
  const EmptyVolunteerSection: StoredVolunteerSection :=
    StoredVolunteerSection(
      title := None,
      subtitle := None,
      introduction := None,
      roles := None,
      benefits := None,
      callToAction := EmptyVolunteerCallToAction)

  /** A stored, possibly partial `RegistrationContent`: absent keys are `None`. */
  datatype StoredRegistrationContent = StoredRegistrationContent(
    whoCanRegister: Option<TitledList>,
    howToRegister: Option<TitledList>,
    whatYouNeed: Option<TitledList>,
    checkStatus: Option<CheckStatus>,
    needHelp: Option<NeedHelp>
  )

  /** The stored form of a complete `RegistrationContent` (every key present). */
  function AsStoredRegistrationContent(x: RegistrationContent): StoredRegistrationContent {
    StoredRegistrationContent(
      whoCanRegister := Some(x.whoCanRegister),
      howToRegister := Some(x.howToRegister),
      whatYouNeed := Some(x.whatYouNeed),
      checkStatus := Some(x.checkStatus),
      needHelp := Some(x.needHelp))
  }

  /** The stored `RegistrationContent` with no keys at all (`{}`). */
  const EmptyRegistrationContent: StoredRegistrationContent :=
    StoredRegistrationContent(
      whoCanRegister := None,
      howToRegister := None,
      whatYouNeed := None,
      checkStatus := None,
      needHelp := None)

  /** A stored, possibly partial `RegistrationTab`: absent keys are `None`. */
  datatype StoredRegistrationTab = StoredRegistrationTab(
    enabled: Option<bool>,
    labelText: Option<string>,
    title: Option<string>,
    subtitle: Option<string>,
    content: StoredRegistrationContent
  )

  /** The stored form of a complete `RegistrationTab` (every key present). */
  function AsStoredRegistrationTab(x: RegistrationTab): StoredRegistrationTab {
    StoredRegistrationTab(
      enabled := Some(x.enabled),
      labelText := Some(x.labelText),
      title := Some(x.title),
      subtitle := Some(x.subtitle),
      content := AsStoredRegistrationContent(x.content))
  }

  /** The stored `RegistrationTab` with no keys at all (`{}`). */
  const EmptyRegistrationTab: StoredRegistrationTab :=
    StoredRegistrationTab(
      enabled := None,
      labelText := None,
      title := None,
      subtitle := None,
      content := EmptyRegistrationContent)

  /** A stored, possibly partial `DistrictLookup`: absent keys are `None`. */
  datatype StoredDistrictLookup = StoredDistrictLookup(
    title: Option<string>,
    description: Option<string>,
    buttonText: Option<string>
  )

  /** The stored form of a complete `DistrictLookup` (every key present). */
  function AsStoredDistrictLookup(x: DistrictLookup): StoredDistrictLookup {
    StoredDistrictLookup(
      title := Some(x.title),
      description := Some(x.description),
      buttonText := Some(x.buttonText))
  }

  /** The stored `DistrictLookup` with no keys at all (`{}`). */
  const EmptyDistrictLookup: StoredDistrictLookup :=
    StoredDistrictLookup(
      title := None,
      description := None,
      buttonText := None)

  /** A stored, possibly partial `LocationsTab`: absent keys are `None`. */
  datatype StoredLocationsTab = StoredLocationsTab(
    enabled: Option<bool>,
    labelText: Option<string>,
    title: Option<string>,
    subtitle: Option<string>,
    pollingLocations: Option<seq<PollingLocation>>,
    districtLookup: StoredDistrictLookup
  )

  /** The stored form of a complete `LocationsTab` (every key present). */
  function AsStoredLocationsTab(x: LocationsTab): StoredLocationsTab {
    StoredLocationsTab(
      enabled := Some(x.enabled),
      labelText := Some(x.labelText),
      title := Some(x.title),
      subtitle := Some(x.subtitle),
      pollingLocations := Some(x.pollingLocations),
      districtLookup := AsStoredDistrictLookup(x.districtLookup))
  }

  /** The stored `LocationsTab` with no keys at all (`{}`). */
  const EmptyLocationsTab: StoredLocationsTab :=
    StoredLocationsTab(
      enabled := None,
      labelText := None,
      title := None,
      subtitle := None,
      pollingLocations := None,
      districtLookup := EmptyDistrictLookup)

  /** A stored, possibly partial `DatesTab`: absent keys are `None`. */
  datatype StoredDatesTab = StoredDatesTab(
    enabled: Option<bool>,
    labelText: Option<string>,
    title: Option<string>,
    subtitle: Option<string>,
    importantDates: Option<seq<ImportantDate>>,
    electionDayReminders: StoredTitledList
  )

  /** The stored form of a complete `DatesTab` (every key present). */
  function AsStoredDatesTab(x: DatesTab): StoredDatesTab {
    StoredDatesTab(
      enabled := Some(x.enabled),
      labelText := Some(x.labelText),
      title := Some(x.title),
      subtitle := Some(x.subtitle),
      importantDates := Some(x.importantDates),
      electionDayReminders := AsStoredTitledList(x.electionDayReminders))
  }

  /** The stored `DatesTab` with no keys at all (`{}`). */
  const EmptyDatesTab: StoredDatesTab :=
    StoredDatesTab(
      enabled := None,
      labelText := None,
      title := None,
      subtitle := None,
      importantDates := None,
      electionDayReminders := EmptyTitledList)

  /** A stored, possibly partial `LearnMore`: absent keys are `None`. */
  datatype StoredLearnMore = StoredLearnMore(
    title: Option<string>,
    description: Option<string>,
    buttons: Option<seq<LinkButton>>
  )

  /** The stored form of a complete `LearnMore` (every key present). */
  function AsStoredLearnMore(x: LearnMore): StoredLearnMore {
    StoredLearnMore(
      title := Some(x.title),
      description := Some(x.description),
      buttons := Some(x.buttons))
  }

  /** The stored `LearnMore` with no keys at all (`{}`). */
  const EmptyLearnMore: StoredLearnMore :=
    StoredLearnMore(
      title := None,
      description := None,
      buttons := None)

  /** A stored, possibly partial `CandidatesTab`: absent keys are `None`. */
  datatype StoredCandidatesTab = StoredCandidatesTab(
    enabled: Option<bool>,
    labelText: Option<string>,
    title: Option<string>,
    subtitle: Option<string>,
    candidateInfo: Option<seq<Race>>,
    learnMore: StoredLearnMore
  )

  /** The stored form of a complete `CandidatesTab` (every key present). */
  function AsStoredCandidatesTab(x: CandidatesTab): StoredCandidatesTab {
    StoredCandidatesTab(
      enabled := Some(x.enabled),
      labelText := Some(x.labelText),
      title := Some(x.title),
      subtitle := Some(x.subtitle),
      candidateInfo := Some(x.candidateInfo),
      learnMore := AsStoredLearnMore(x.learnMore))
  }

  /** The stored `CandidatesTab` with no keys at all (`{}`). */
  const EmptyCandidatesTab: StoredCandidatesTab :=
    StoredCandidatesTab(
      enabled := None,
      labelText := None,
      title := None,
      subtitle := None,
      candidateInfo := None,
      learnMore := EmptyLearnMore)

  /** A stored, possibly partial `VoteTabs`: absent keys are `None`. */
  datatype StoredVoteTabs = StoredVoteTabs(
    registration: StoredRegistrationTab,
    locations: StoredLocationsTab,
    dates: StoredDatesTab,
    candidates: StoredCandidatesTab
  )

  /** The stored form of a complete `VoteTabs` (every key present). */
  function AsStoredVoteTabs(x: VoteTabs): StoredVoteTabs {
    StoredVoteTabs(
      registration := AsStoredRegistrationTab(x.registration),
      locations := AsStoredLocationsTab(x.locations),
      dates := AsStoredDatesTab(x.dates),
      candidates := AsStoredCandidatesTab(x.candidates))
  }

  /** The stored `VoteTabs` with no keys at all (`{}`). */
  const EmptyVoteTabs: StoredVoteTabs :=
    StoredVoteTabs(
      registration := EmptyRegistrationTab,
      locations := EmptyLocationsTab,
      dates := EmptyDatesTab,
      candidates := EmptyCandidatesTab)

  /** A stored, possibly partial `VoteCallToAction`: absent keys are `None`. */
  datatype StoredVoteCallToAction = StoredVoteCallToAction(
    title: Option<string>,
    message: Option<string>,
    buttons: Option<seq<StyledButton>>
  )

  /** The stored form of a complete `VoteCallToAction` (every key present). */
  function AsStoredVoteCallToAction(x: VoteCallToAction): StoredVoteCallToAction {
    StoredVoteCallToAction(
      title := Some(x.title),
      message := Some(x.message),
      buttons := Some(x.buttons))
  }

  /** The stored `VoteCallToAction` with no keys at all (`{}`). */
  const EmptyVoteCallToAction: StoredVoteCallToAction :=
    StoredVoteCallToAction(
      title := None,
      message := None,
      buttons := None)

  /** A stored, possibly partial `NeedAssistance`: absent keys are `None`. */
  datatype StoredNeedAssistance = StoredNeedAssistance(
    title: Option<string>,
    contacts: Option<seq<LabeledValue>>
  )

  /** The stored form of a complete `NeedAssistance` (every key present). */
  function AsStoredNeedAssistance(x: NeedAssistance): StoredNeedAssistance {
    StoredNeedAssistance(
      title := Some(x.title),
      contacts := Some(x.contacts))
  }

  /** The stored `NeedAssistance` with no keys at all (`{}`). */
  const EmptyNeedAssistance: StoredNeedAssistance :=
    StoredNeedAssistance(
      title := None,
      contacts := None)

  /** A stored, possibly partial `VotingRights`: absent keys are `None`. */
  datatype StoredVotingRights = StoredVotingRights(
    title: Option<string>,
    youHaveTheRight: StoredTitledList,
    needAssistance: StoredNeedAssistance
  )

  /** The stored form of a complete `VotingRights` (every key present). */
  function AsStoredVotingRights(x: VotingRights): StoredVotingRights {
    StoredVotingRights(
      title := Some(x.title),
      youHaveTheRight := AsStoredTitledList(x.youHaveTheRight),
      needAssistance := AsStoredNeedAssistance(x.needAssistance))
  }

  /** The stored `VotingRights` with no keys at all (`{}`). */
  const EmptyVotingRights: StoredVotingRights :=
    StoredVotingRights(
      title := None,
      youHaveTheRight := EmptyTitledList,
      needAssistance := EmptyNeedAssistance)

  /** A stored, possibly partial `VoteSection`: absent keys are `None`. */
  datatype StoredVoteSection = StoredVoteSection(
    title: Option<string>,
    subtitle: Option<string>,
    introduction: Option<string>,
    tabs: StoredVoteTabs,
    callToAction: StoredVoteCallToAction,
    votingRights: StoredVotingRights
  )

  /** The stored form of a complete `VoteSection` (every key present). */
  function AsStoredVoteSection(x: VoteSection): StoredVoteSection {
    StoredVoteSection(
      title := Some(x.title),
      subtitle := Some(x.subtitle),
      introduction := Some(x.introduction),
      tabs := AsStoredVoteTabs(x.tabs),
      callToAction := AsStoredVoteCallToAction(x.callToAction),
      votingRights := AsStoredVotingRights(x.votingRights))
  }

  /** The stored `VoteSection` with no keys at all (`{}`). */
  const EmptyVoteSection: StoredVoteSection :=
    StoredVoteSection(
      title := None,
      subtitle := None,
      introduction := None,
      tabs := EmptyVoteTabs,
      callToAction := EmptyVoteCallToAction,
      votingRights := EmptyVotingRights)

  /** A stored, possibly partial `MailingAddress`: absent keys are `None`. */
  datatype StoredMailingAddress = StoredMailingAddress(
    organization: Option<string>,
    addressLine1: Option<string>,
    addressLine2: Option<string>
  )

  /** The stored form of a complete `MailingAddress` (every key present). */
  function AsStoredMailingAddress(x: MailingAddress): StoredMailingAddress {
    StoredMailingAddress(
      organization := Some(x.organization),
      addressLine1 := Some(x.addressLine1),
      addressLine2 := Some(x.addressLine2))
  }

  /** The stored `MailingAddress` with no keys at all (`{}`). */
  const EmptyMailingAddress: StoredMailingAddress :=
    StoredMailingAddress(
      organization := None,
      addressLine1 := None,
      addressLine2 := None)

  /** A stored, possibly partial `ContactForm`: absent keys are `None`. */
  datatype StoredContactForm = StoredContactForm(
    title: Option<string>,
    subtitle: Option<string>,
    fields: Option<seq<ContactFormField>>,
    submitButtonText: Option<string>,
    successMessage: Option<string>
  )

  /** The stored form of a complete `ContactForm` (every key present). */
  function AsStoredContactForm(x: ContactForm): StoredContactForm {
    StoredContactForm(
      title := Some(x.title),
      subtitle := Some(x.subtitle),
      fields := Some(x.fields),
      submitButtonText := Some(x.submitButtonText),
      successMessage := Some(x.successMessage))
  }

  /** The stored `ContactForm` with no keys at all (`{}`). */
  const EmptyContactForm: StoredContactForm :=
    StoredContactForm(
      title := None,
      subtitle := None,
      fields := None,
      submitButtonText := None,
      successMessage := None)

  /** A stored, possibly partial `OfficeHours`: absent keys are `None`. */
  datatype StoredOfficeHours = StoredOfficeHours(
    title: Option<string>,
    schedule: Option<seq<string>>
  )

  /** The stored form of a complete `OfficeHours` (every key present). */
  function AsStoredOfficeHours(x: OfficeHours): StoredOfficeHours {
    StoredOfficeHours(
      title := Some(x.title),
      schedule := Some(x.schedule))
  }

  /** The stored `OfficeHours` with no keys at all (`{}`). */
  const EmptyOfficeHours: StoredOfficeHours :=
    StoredOfficeHours(
      title := None,
      schedule := None)

  /** A stored, possibly partial `ContactSection`: absent keys are `None`. */
  datatype StoredContactSection = StoredContactSection(
    title: Option<string>,
    subtitle: Option<string>,
    showPhoneNumber: Option<bool>,
    phoneNumber: Option<string>,
    email: Option<string>,
    mailingAddress: StoredMailingAddress,
    contactForm: StoredContactForm,
    officeHours: StoredOfficeHours,
    socialMedia: Option<seq<SocialLink>>
  )

  /** The stored form of a complete `ContactSection` (every key present). */
  function AsStoredContactSection(x: ContactSection): StoredContactSection {
    StoredContactSection(
      title := Some(x.title),
      subtitle := Some(x.subtitle),
      showPhoneNumber := Some(x.showPhoneNumber),
      phoneNumber := Some(x.phoneNumber),
      email := Some(x.email),
      mailingAddress := AsStoredMailingAddress(x.mailingAddress),
      contactForm := AsStoredContactForm(x.contactForm),
      officeHours := AsStoredOfficeHours(x.officeHours),
      socialMedia := Some(x.socialMedia))
  }

  /** The stored `ContactSection` with no keys at all (`{}`). */
  const EmptyContactSection: StoredContactSection :=
    StoredContactSection(
      title := None,
      subtitle := None,
      showPhoneNumber := None,
      phoneNumber := None,
      email := None,
      mailingAddress := EmptyMailingAddress,
      contactForm := EmptyContactForm,
      officeHours := EmptyOfficeHours,
      socialMedia := None)

  /** A stored, possibly partial `SiteContent`: absent keys are `None`. */
  datatype StoredSiteContent = StoredSiteContent(
    header: StoredHeaderSection,
    footer: StoredFooterSection,
    sidebar: StoredSidebarSection,
    home: StoredHomeSection,
    about: StoredAboutSection,
    candidates: StoredCandidatesSection,
    issues: StoredIssuesSection,
    endorsements: StoredEndorsementsSection,
    volunteer: StoredVolunteerSection,
    vote: StoredVoteSection,
    contact: StoredContactSection
  )

  /** The stored form of a complete `SiteContent` (every key present). */
  function AsStoredSiteContent(x: SiteContent): StoredSiteContent {
    StoredSiteContent(
      header := AsStoredHeaderSection(x.header),
      footer := AsStoredFooterSection(x.footer),
      sidebar := AsStoredSidebarSection(x.sidebar),
      home := AsStoredHomeSection(x.home),
      about := AsStoredAboutSection(x.about),
      candidates := AsStoredCandidatesSection(x.candidates),
      issues := AsStoredIssuesSection(x.issues),
      endorsements := AsStoredEndorsementsSection(x.endorsements),
      volunteer := AsStoredVolunteerSection(x.volunteer),
      vote := AsStoredVoteSection(x.vote),
      contact := AsStoredContactSection(x.contact))
  }

  /** The stored `SiteContent` with no keys at all (`{}`). */
  const EmptySiteContent: StoredSiteContent :=
    StoredSiteContent(
      header := EmptyHeaderSection,
      footer := EmptyFooterSection,
      sidebar := EmptySidebarSection,
      home := EmptyHomeSection,
      about := EmptyAboutSection,
      candidates := EmptyCandidatesSection,
      issues := EmptyIssuesSection,
      endorsements := EmptyEndorsementsSection,
      volunteer := EmptyVolunteerSection,
      vote := EmptyVoteSection,
      contact := EmptyContactSection)

}

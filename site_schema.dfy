/** The site content document: one datatype per object shape of the `SiteContent` interface. */
module SiteSchema {
  import opened Wrappers

  /** Button style of a call-to-action button ('primary' | 'secondary'). */
  datatype ButtonStyle = Primary | Secondary

  /** Priority of a future plan ('high' | 'medium' | 'low'). */
  datatype Priority = High | Medium | Low

  /** Kind of a registration help contact ('phone' | 'email' | 'address'). */
  datatype ContactKind = PhoneContact | EmailContact | AddressContact

  /** Kind of an important election date. */
  datatype DateKind = RegistrationDate | EarlyVotingDate | ElectionDate | AbsenteeDate

  /** The header logo. */
  datatype Logo = Logo(
    src: string,
    alt: string,
    fallbackText: string
  )

  /** One navigation entry. */
  datatype NavItem = NavItem(
    name: string,
    href: string,
    displayName: Option<string>
  )

  /** The header donate button. */
  datatype DonateButton = DonateButton(
    text: string,
    link: string
  )

  /** The `header` section. */
  datatype HeaderSection = HeaderSection(
    logo: Logo,
    navigation: seq<NavItem>,
    donateButton: DonateButton
  )

  /** The footer quote block. */
  datatype OurTown = OurTown(
    title: string,
    quote: string,
    attribution: string
  )

  /** A named link. */
  datatype Link = Link(
    name: string,
    href: string
  )

  /** The footer category links. */
  datatype FooterCategories = FooterCategories(
    title: string,
    links: seq<Link>
  )

  /** The footer copyright line. */
  datatype Copyright = Copyright(
    text: string,
    address: string
  )

  /** The `footer` section. */
  datatype FooterSection = FooterSection(
    ourTown: OurTown,
    categories: FooterCategories,
    copyright: Copyright
  )

  /** The sidebar search box. */
  datatype SearchBox = SearchBox(
    placeholder: string,
    enabled: bool
  )

  /** A sidebar link widget. */
  datatype Widget = Widget(
    title: string,
    linkText: string,
    linkHref: string
  )

  /** The `sidebar` section. */
  datatype SidebarSection = SidebarSection(
    search: SearchBox,
    contactWidget: Widget,
    aboutWidget: Widget
  )

  /** One hero-slider slide. */
  datatype HeroSlide = HeroSlide(
    id: string,
    image: string,
    title: string,
    subtitle: string,
    isActive: bool
  )

  /** One home-page feature block. */
  datatype FeatureBlock = FeatureBlock(
    id: string,
    title: string,
    description: string,
    link: string,
    icon: string
  )

  /** The `home` section (merged by a single shallow spread). */
  datatype HomeSection = HomeSection(
    title: string,
    heroSlider: seq<HeroSlide>,
    welcomeMessage: seq<string>,
    featureBlocks: seq<FeatureBlock>
  )

  /** A titled paragraph. */
  datatype TitledText = TitledText(
    title: string,
    content: string
  )

  /** A titled list of strings. */
  datatype TitledList = TitledList(
    title: string,
    items: seq<string>
  )

  /** The `about.sections` object (merged by a single shallow spread). */
  datatype AboutSections = AboutSections(
    whoWeAre: TitledText,
    officers: TitledText,
    whatWeStriveFor: TitledList
  )

  /** The `about` section. */
  datatype AboutSection = AboutSection(
    title: string,
    sections: AboutSections,
    joinUsMessage: string
  )

  /** One candidate card. */
  datatype Candidate = Candidate(
    id: string,
    name: string,
    position: string,
    image: string,
    bio: string,
    experience: seq<string>,
    priorities: seq<string>
  )

  /** A button with a link and a style. */
  datatype LinkButton = LinkButton(
    text: string,
    link: string,
    style: ButtonStyle
  )

  /** A call-to-action block with link buttons. */
  datatype CallToAction = CallToAction(
    title: string,
    message: string,
    buttons: seq<LinkButton>
  )

  /** The `candidates` section. */
  datatype CandidatesSection = CandidatesSection(
    title: string,
    subtitle: string,
    candidates: seq<Candidate>,
    callToAction: CallToAction
  )

  /** One accomplishment card. */
  datatype Accomplishment = Accomplishment(
    id: string,
    title: string,
    description: string,
    details: seq<string>,
    icon: string
  )

  /** One future-plan card. */
  datatype FuturePlan = FuturePlan(
    id: string,
    title: string,
    description: string,
    timeline: string,
    priority: Priority
  )

  /** The accomplishments block of the issues page. */
  datatype AccomplishmentsBlock = AccomplishmentsBlock(
    enabled: bool,
    title: string,
    items: seq<Accomplishment>
  )

  /** The future-plans block of the issues page. */
  datatype FuturePlansBlock = FuturePlansBlock(
    enabled: bool,
    title: string,
    items: seq<FuturePlan>
  )

  /** The `issues.sections` object. */
  datatype IssuesSections = IssuesSections(
    accomplishments: AccomplishmentsBlock,
    futurePlans: FuturePlansBlock
  )

  /** The `issues` section. */
  datatype IssuesSection = IssuesSection(
    title: string,
    subtitle: string,
    sections: IssuesSections,
    callToAction: CallToAction
  )

  /** An endorsement by a person. */
  datatype IndividualEndorsement = IndividualEndorsement(
    id: string,
    name: string,
    title: string,
    quote: string,
    image: string
  )

  /** An endorsement by an organization. */
  datatype OrganizationEndorsement = OrganizationEndorsement(
    id: string,
    name: string,
    description: string,
    website: Option<string>
  )

  /** An endorsement by a news outlet. */
  datatype MediaEndorsement = MediaEndorsement(
    id: string,
    outlet: string,
    headline: string,
    excerpt: string,
    date: string,
    link: Option<string>
  )

  /** The `endorsements` section. */
  datatype EndorsementsSection = EndorsementsSection(
    title: string,
    subtitle: string,
    individualEndorsements: seq<IndividualEndorsement>,
    organizationEndorsements: seq<OrganizationEndorsement>,
    mediaEndorsements: seq<MediaEndorsement>
  )

  /** A volunteer role card. */
  datatype VolunteerRole = VolunteerRole(
    id: string,
    title: string,
    description: string,
    timeCommitment: string,
    requirements: seq<string>,
    tasks: seq<string>,
    icon: string
  )

  /** A volunteer sign-up form field descriptor. */
  datatype FormField = FormField(
    name: string,
    labelText: string,
    inputType: string,
    required: bool,
    options: Option<seq<string>>
  )

  /** The volunteer call-to-action block. */
  datatype VolunteerCallToAction = VolunteerCallToAction(
    title: string,
    message: string,
    formFields: seq<FormField>
  )

  /** The `volunteer` section. */
  datatype VolunteerSection = VolunteerSection(
    title: string,
    subtitle: string,
    introduction: string,
    roles: seq<VolunteerRole>,
    benefits: seq<string>,
    callToAction: VolunteerCallToAction
  )

  /** A button with a style and no link. */
  datatype StyledButton = StyledButton(
    text: string,
    style: ButtonStyle
  )

  /** The registration-status block. */
  datatype CheckStatus = CheckStatus(
    title: string,
    description: string,
    buttons: seq<StyledButton>
  )

  /** A registration help contact. */
  datatype HelpContact = HelpContact(
    kind: ContactKind,
    labelText: string,
    value: string
  )

  /** The registration help block. */
  datatype NeedHelp = NeedHelp(
    title: string,
    contacts: seq<HelpContact>
  )

  /** The registration tab body (merged by a single shallow spread). */
  datatype RegistrationContent = RegistrationContent(
    whoCanRegister: TitledList,
    howToRegister: TitledList,
    whatYouNeed: TitledList,
    checkStatus: CheckStatus,
    needHelp: NeedHelp
  )

  /** The registration tab. */
  datatype RegistrationTab = RegistrationTab(
    enabled: bool,
    labelText: string,
    title: string,
    subtitle: string,
    content: RegistrationContent
  )

  /** A polling location. */
  datatype PollingLocation = PollingLocation(
    id: string,
    name: string,
    address: string,
    districts: seq<string>,
    hours: string,
    accessibility: string,
    parking: string,
    contact: string
  )

  /** The district lookup block. */
  datatype DistrictLookup = DistrictLookup(
    title: string,
    description: string,
    buttonText: string
  )

  /** The polling-locations tab. */
  datatype LocationsTab = LocationsTab(
    enabled: bool,
    labelText: string,
    title: string,
    subtitle: string,
    pollingLocations: seq<PollingLocation>,
    districtLookup: DistrictLookup
  )

  /** An important election date. */
  datatype ImportantDate = ImportantDate(
    id: string,
    title: string,
    date: string,
    description: string,
    kind: DateKind
  )

  /** The important-dates tab. */
  datatype DatesTab = DatesTab(
    enabled: bool,
    labelText: string,
    title: string,
    subtitle: string,
    importantDates: seq<ImportantDate>,
    electionDayReminders: TitledList
  )

  /** A candidate on the ballot. */
  datatype BallotCandidate = BallotCandidate(
    name: string,
    party: string,
    description: Option<string>
  )

  /** An office and its candidates. */
  datatype Race = Race(
    office: string,
    candidates: seq<BallotCandidate>
  )

  /** The learn-more block of the candidates tab. */
  datatype LearnMore = LearnMore(
    title: string,
    description: string,
    buttons: seq<LinkButton>
  )

  /** The candidates tab. */
  datatype CandidatesTab = CandidatesTab(
    enabled: bool,
    labelText: string,
    title: string,
    subtitle: string,
    candidateInfo: seq<Race>,
    learnMore: LearnMore
  )

  /** The four tabs of the vote page. */
  datatype VoteTabs = VoteTabs(
    registration: RegistrationTab,
    locations: LocationsTab,
    dates: DatesTab,
    candidates: CandidatesTab
  )

  /** The vote call-to-action block. */
  datatype VoteCallToAction = VoteCallToAction(
    title: string,
    message: string,
    buttons: seq<StyledButton>
  )

  /** A label with a value. */
  datatype LabeledValue = LabeledValue(
    labelText: string,
    value: string
  )

  /** The voting-assistance block. */
  datatype NeedAssistance = NeedAssistance(
    title: string,
    contacts: seq<LabeledValue>
  )

  /** The voting-rights block. */
  datatype VotingRights = VotingRights(
    title: string,
    youHaveTheRight: TitledList,
    needAssistance: NeedAssistance
  )

  /** The `vote` section. */
  datatype VoteSection = VoteSection(
    title: string,
    subtitle: string,
    introduction: string,
    tabs: VoteTabs,
    callToAction: VoteCallToAction,
    votingRights: VotingRights
  )

  /** A postal address. */
  datatype MailingAddress = MailingAddress(
    organization: string,
    addressLine1: string,
    addressLine2: string
  )

  /** A contact form field descriptor. */
  datatype ContactFormField = ContactFormField(
    name: string,
    labelText: string,
    inputType: string,
    required: bool,
    placeholder: Option<string>
  )

  /** The contact form block. */
  datatype ContactForm = ContactForm(
    title: string,
    subtitle: string,
    fields: seq<ContactFormField>,
    submitButtonText: string,
    successMessage: string
  )

  /** The office-hours block. */
  datatype OfficeHours = OfficeHours(
    title: string,
    schedule: seq<string>
  )

  /** A social media link. */
  datatype SocialLink = SocialLink(
    platform: string,
    url: string,
    isActive: bool
  )

  /** The `contact` section. */
  datatype ContactSection = ContactSection(
    title: string,
    subtitle: string,
    showPhoneNumber: bool,
    phoneNumber: string,
    email: string,
    mailingAddress: MailingAddress,
    contactForm: ContactForm,
    officeHours: OfficeHours,
    socialMedia: seq<SocialLink>
  )

  /** The whole site content document. */
  datatype SiteContent = SiteContent(
    header: HeaderSection,
    footer: FooterSection,
    sidebar: SidebarSection,
    home: HomeSection,
    about: AboutSection,
    candidates: CandidatesSection,
    issues: IssuesSection,
    endorsements: EndorsementsSection,
    volunteer: VolunteerSection,
    vote: VoteSection,
    contact: ContactSection
  )

}

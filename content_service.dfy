/**
 * Reading and writing the two content documents through storage:
 * `getSiteContent`, `saveSiteContent`, the `use*Content` hooks,
 * `getDonationContent`, `saveDonationContent` and `useDonationContent`.
 */
module ContentService {
  import opened Wrappers
  import opened SiteSchema
  import opened SiteStored
  import opened SiteMerge
  import opened SiteDefaults
  import opened DonationSchema
  import opened DonationStored
  import opened DonationMerge
  import opened DonationDefaults
  import opened BrowserStorage
  import opened ContentMergeLaws

  // ------------------------------------------------------------------
  // site content

  /** `getSiteContent()`: the stored document overlaid on the defaults, or the defaults when nothing parses. */
  function GetSiteContent(st: Storage): (r: SiteContent)
    reads st`siteContent
    ensures !st.siteContent.Parsed? ==> r == DefaultSiteContent
    ensures st.siteContent == Parsed(EmptySiteContent) ==> r == DefaultSiteContent
  {
    SiteMergeOfEmpty(DefaultSiteContent);
    match st.siteContent
    case Parsed(stored) => MergeSiteContent(DefaultSiteContent, stored)
    case _ => DefaultSiteContent
  }

  /** With the key missing or unparseable, the defaults are returned exactly. */
  lemma GetSiteContentFallback(st: Storage)
    requires !st.siteContent.Parsed?
    ensures GetSiteContent(st) == DefaultSiteContent
  {
  }

  /**
   * `saveSiteContent(content)`: writes the document under `siteContent`. A
   * failing write (`writeFails`, the storage quota) is caught and changes nothing.
   */
  method SaveSiteContent(st: Storage, content: SiteContent, writeFails: bool)
    modifies st
    ensures st.siteContent == if writeFails then old(st.siteContent) else Parsed(AsStoredSiteContent(content))
    ensures !writeFails ==> GetSiteContent(st) == content
    ensures st.donationContent == old(st.donationContent) && st.emailRecipients == old(st.emailRecipients)
    ensures st.lastSubmission == old(st.lastSubmission) && st.testSubmission == old(st.testSubmission)
  {
    if !writeFails {
      st.siteContent := Parsed(AsStoredSiteContent(content));
      SiteMergeOfComplete(DefaultSiteContent, content);
    }
  }

  function UseHeaderContent(st: Storage): (r: HeaderSection)
    reads st`siteContent
    ensures !st.siteContent.Parsed? ==> r == DefaultSiteContent.header
    ensures st.siteContent.Parsed? ==> r == MergeHeaderSection(DefaultSiteContent.header, st.siteContent.value.header)
  {
    GetSiteContent(st).header
  }
  function UseFooterContent(st: Storage): (r: FooterSection)
    reads st`siteContent
    ensures !st.siteContent.Parsed? ==> r == DefaultSiteContent.footer
    ensures st.siteContent.Parsed? ==> r == MergeFooterSection(DefaultSiteContent.footer, st.siteContent.value.footer)
  {
    GetSiteContent(st).footer
  }
  function UseSidebarContent(st: Storage): (r: SidebarSection)
    reads st`siteContent
    ensures !st.siteContent.Parsed? ==> r == DefaultSiteContent.sidebar
    ensures st.siteContent.Parsed? ==> r == MergeSidebarSection(DefaultSiteContent.sidebar, st.siteContent.value.sidebar)
  {
    GetSiteContent(st).sidebar
  }
  function UseHomeContent(st: Storage): (r: HomeSection)
    reads st`siteContent
    ensures !st.siteContent.Parsed? ==> r == DefaultSiteContent.home
    ensures st.siteContent.Parsed? ==> r == MergeHomeSection(DefaultSiteContent.home, st.siteContent.value.home)
  {
    GetSiteContent(st).home
  }
  function UseAboutContent(st: Storage): (r: AboutSection)
    reads st`siteContent
    ensures !st.siteContent.Parsed? ==> r == DefaultSiteContent.about
    ensures st.siteContent.Parsed? ==> r == MergeAboutSection(DefaultSiteContent.about, st.siteContent.value.about)
  {
    GetSiteContent(st).about
  }
  function UseCandidatesContent(st: Storage): (r: CandidatesSection)
    reads st`siteContent
    ensures !st.siteContent.Parsed? ==> r == DefaultSiteContent.candidates
    ensures st.siteContent.Parsed? ==> r == MergeCandidatesSection(DefaultSiteContent.candidates, st.siteContent.value.candidates)
  {
    GetSiteContent(st).candidates
  }
  function UseIssuesContent(st: Storage): (r: IssuesSection)
    reads st`siteContent
    ensures !st.siteContent.Parsed? ==> r == DefaultSiteContent.issues
    ensures st.siteContent.Parsed? ==> r == MergeIssuesSection(DefaultSiteContent.issues, st.siteContent.value.issues)
  {
    GetSiteContent(st).issues
  }
  function UseEndorsementsContent(st: Storage): (r: EndorsementsSection)
    reads st`siteContent
    ensures !st.siteContent.Parsed? ==> r == DefaultSiteContent.endorsements
    ensures st.siteContent.Parsed? ==> r == MergeEndorsementsSection(DefaultSiteContent.endorsements, st.siteContent.value.endorsements)
  {
    GetSiteContent(st).endorsements
  }
  function UseVolunteerContent(st: Storage): (r: VolunteerSection)
    reads st`siteContent
    ensures !st.siteContent.Parsed? ==> r == DefaultSiteContent.volunteer
    ensures st.siteContent.Parsed? ==> r == MergeVolunteerSection(DefaultSiteContent.volunteer, st.siteContent.value.volunteer)
  {
    GetSiteContent(st).volunteer
  }
  function UseVoteContent(st: Storage): (r: VoteSection)
    reads st`siteContent
    ensures !st.siteContent.Parsed? ==> r == DefaultSiteContent.vote
    ensures st.siteContent.Parsed? ==> r == MergeVoteSection(DefaultSiteContent.vote, st.siteContent.value.vote)
  {
    GetSiteContent(st).vote
  }
  function UseContactContent(st: Storage): (r: ContactSection)
    reads st`siteContent
    ensures !st.siteContent.Parsed? ==> r == DefaultSiteContent.contact
    ensures st.siteContent.Parsed? ==> r == MergeContactSection(DefaultSiteContent.contact, st.siteContent.value.contact)
  {
    GetSiteContent(st).contact
  }
  function UseSiteContent(st: Storage): (r: SiteContent)
    reads st`siteContent
    ensures !st.siteContent.Parsed? ==> r == DefaultSiteContent
    ensures st.siteContent.Parsed? ==> r == MergeSiteContent(DefaultSiteContent, st.siteContent.value)
  {
    GetSiteContent(st)
  }

  /** After a document has been saved, every hook yields that document's section. */
  lemma HooksAfterSave(st: Storage, doc: SiteContent)
    requires st.siteContent == Parsed(AsStoredSiteContent(doc))
    ensures UseHeaderContent(st) == doc.header && UseFooterContent(st) == doc.footer
    ensures UseSidebarContent(st) == doc.sidebar && UseHomeContent(st) == doc.home
    ensures UseAboutContent(st) == doc.about && UseCandidatesContent(st) == doc.candidates
    ensures UseIssuesContent(st) == doc.issues && UseEndorsementsContent(st) == doc.endorsements
    ensures UseVolunteerContent(st) == doc.volunteer && UseVoteContent(st) == doc.vote
    ensures UseContactContent(st) == doc.contact && UseSiteContent(st) == doc
  {
    SiteMergeOfComplete(DefaultSiteContent, doc);
  }

  /** With nothing usable stored, every hook yields the default section. */
  lemma HooksFallback(st: Storage)
    requires !st.siteContent.Parsed?
    ensures UseHeaderContent(st) == DefaultSiteContent.header && UseFooterContent(st) == DefaultSiteContent.footer
    ensures UseSidebarContent(st) == DefaultSiteContent.sidebar && UseHomeContent(st) == DefaultSiteContent.home
    ensures UseAboutContent(st) == DefaultSiteContent.about && UseCandidatesContent(st) == DefaultSiteContent.candidates
    ensures UseIssuesContent(st) == DefaultSiteContent.issues && UseEndorsementsContent(st) == DefaultSiteContent.endorsements
    ensures UseVolunteerContent(st) == DefaultSiteContent.volunteer && UseVoteContent(st) == DefaultSiteContent.vote
    ensures UseContactContent(st) == DefaultSiteContent.contact
  {
  }

  // ------------------------------------------------------------------
  // donation content

  /** `getDonationContent()`: the stored document overlaid on the defaults, or the defaults when nothing parses. */
  function GetDonationContent(st: Storage): (r: DonationContent)
    reads st`donationContent
    ensures !st.donationContent.Parsed? ==> r == DefaultDonationContent
    ensures st.donationContent == Parsed(EmptyDonationContent) ==> r == DefaultDonationContent
  {
    DonationMergeOfEmpty(DefaultDonationContent);
    match st.donationContent
    case Parsed(stored) => MergeDonationContent(DefaultDonationContent, stored)
    case _ => DefaultDonationContent
  }

  /** `useDonationContent()`. */
  function UseDonationContent(st: Storage): (r: DonationContent)
    reads st`donationContent
    ensures !st.donationContent.Parsed? ==> r == DefaultDonationContent
    ensures st.donationContent.Parsed? ==> r == MergeDonationContent(DefaultDonationContent, st.donationContent.value)
  {
    GetDonationContent(st)
  }

  /** With the key missing or unparseable, the defaults are returned exactly. */
  lemma GetDonationContentFallback(st: Storage)
    requires !st.donationContent.Parsed?
    ensures GetDonationContent(st) == DefaultDonationContent
    ensures UseDonationContent(st) == DefaultDonationContent
  {
  }

  /** `saveDonationContent(content)`: writes the document under `donationContent`; a failing write changes nothing. */
  method SaveDonationContent(st: Storage, content: DonationContent, writeFails: bool)
    modifies st
    ensures st.donationContent == if writeFails then old(st.donationContent) else Parsed(AsStoredDonationContent(content))
    ensures !writeFails ==> GetDonationContent(st) == content
    ensures st.siteContent == old(st.siteContent) && st.emailRecipients == old(st.emailRecipients)
    ensures st.lastSubmission == old(st.lastSubmission) && st.testSubmission == old(st.testSubmission)
  {
    if !writeFails {
      st.donationContent := Parsed(AsStoredDonationContent(content));
      DonationMergeOfComplete(DefaultDonationContent, content);
    }
  }
}

/**
 * The volunteer page: the sign-up form record, its input and interest
 * handlers, role selection with its lookup in the page's own role list, and
 * the submit that resets the form.
 */
module Volunteer {
  import opened Wrappers
  import opened Seqs
  import opened SiteSchema

  // ------------------------------------------------------------------
  // the form record

  datatype VolunteerForm = VolunteerForm(
    firstName: string,
    lastName: string,
    email: string,
    phone: string,
    address: string,
    skills: string,
    availability: string,
    experience: string,
    interests: seq<string>,
    emergencyContact: string,
    emergencyPhone: string,
    backgroundCheck: bool,
    agreement: bool)

  /** The record the page starts from and returns to after a submission. */
  const EmptyVolunteerForm: VolunteerForm := VolunteerForm(
    firstName := "", lastName := "", email := "", phone := "", address := "",
    skills := "", availability := "", experience := "", interests := [],
    emergencyContact := "", emergencyPhone := "",
    backgroundCheck := false, agreement := false)

  /** The inputs wired to `handleInputChange`, by their `name`. */
  datatype VolunteerField =
    | FirstNameField | LastNameField | EmailField | PhoneField | AddressField
    | SkillsField | AvailabilityField | ExperienceField
    | EmergencyContactField | EmergencyPhoneField
    | BackgroundCheckField | AgreementField

  /** The two checkboxes among them. */
  predicate IsCheckboxField(name: VolunteerField) {
    name.BackgroundCheckField? || name.AgreementField?
  }

  datatype VolunteerValue = TextValue(text: string) | FlagValue(flag: bool)

  /** `formData[name]`. */
  function Get(f: VolunteerForm, name: VolunteerField): VolunteerValue {
    match name
    case FirstNameField => TextValue(f.firstName)
    case LastNameField => TextValue(f.lastName)
    case EmailField => TextValue(f.email)
    case PhoneField => TextValue(f.phone)
    case AddressField => TextValue(f.address)
    case SkillsField => TextValue(f.skills)
    case AvailabilityField => TextValue(f.availability)
    case ExperienceField => TextValue(f.experience)
    case EmergencyContactField => TextValue(f.emergencyContact)
    case EmergencyPhoneField => TextValue(f.emergencyPhone)
    case BackgroundCheckField => FlagValue(f.backgroundCheck)
    case AgreementField => FlagValue(f.agreement)
  }

  /** What `handleInputChange` reads from `e.target`: the name, the text, whether it is a checkbox and its state. */
  datatype VolunteerInput = VolunteerInput(name: VolunteerField, value: string, isCheckbox: bool, checked: bool)

  /** The page's checkboxes are exactly its checkbox fields. */
  predicate WellTyped(e: VolunteerInput) {
    e.isCheckbox <==> IsCheckboxField(e.name)
  }

  /**
   * `handleInputChange`: the named field takes the checkbox's state or the
   * input's text; every other field, the interests included, is unchanged.
   */
  function ApplyInput(f: VolunteerForm, e: VolunteerInput): (r: VolunteerForm)
    requires WellTyped(e)
    ensures Get(r, e.name) == if e.isCheckbox then FlagValue(e.checked) else TextValue(e.value)
    ensures forall g :: g != e.name ==> Get(r, g) == Get(f, g)
    ensures r.interests == f.interests
  {
    match e.name
    case FirstNameField => f.(firstName := e.value)
    case LastNameField => f.(lastName := e.value)
    case EmailField => f.(email := e.value)
    case PhoneField => f.(phone := e.value)
    case AddressField => f.(address := e.value)
    case SkillsField => f.(skills := e.value)
    case AvailabilityField => f.(availability := e.value)
    case ExperienceField => f.(experience := e.value)
    case EmergencyContactField => f.(emergencyContact := e.value)
    case EmergencyPhoneField => f.(emergencyPhone := e.value)
    case BackgroundCheckField => f.(backgroundCheck := e.checked)
    case AgreementField => f.(agreement := e.checked)
  }

  // ------------------------------------------------------------------
  // interests

  /**
   * `handleInterestChange(interest)`: an interest already chosen is removed
   * wherever it occurs, any other is appended at the end. Its membership flips
   * and no other interest's membership changes.
   */
  function ToggleInterest(interests: seq<string>, interest: string): (r: seq<string>)
    ensures interest in interests ==> r == RemoveAll(interests, interest)
    ensures interest !in interests ==> r == interests + [interest]
    ensures interest in r <==> interest !in interests
    ensures forall i :: 0 <= i < |interests| && interests[i] != interest ==> interests[i] in r
    ensures forall i :: 0 <= i < |r| && r[i] != interest ==> r[i] in interests
  {
    if interest in interests then RemoveAll(interests, interest) else interests + [interest]
  }

  /** Toggling an interest that is not chosen, twice, restores the list. */
  lemma ToggleTwice(interests: seq<string>, interest: string)
    requires interest !in interests
    ensures ToggleInterest(ToggleInterest(interests, interest), interest) == interests
  {
    RemoveAppended(interests, interest);
  }

  /** A toggle leaves the other interests, and their order, as they were. */
  lemma ToggleKeepsOthers(interests: seq<string>, interest: string)
    ensures RemoveAll(ToggleInterest(interests, interest), interest) == RemoveAll(interests, interest)
  {
    if interest in interests {
      RemoveAbsent(RemoveAll(interests, interest), interest);
    } else {
      RemoveAppended(interests, interest);
      RemoveAbsent(interests, interest);
    }
  }

  // ------------------------------------------------------------------
  // roles

  /** The role descriptions hard-coded in the page, looked up by id. */
  const HardCodedRoles: seq<VolunteerRole> := [
    VolunteerRole(
      id := "campaign", title := "Campaign Support",
      description := "Help with phone banking, canvassing, and voter outreach efforts.",
      timeCommitment := "2-10 hours/week",
      requirements := ["Friendly communication skills", "Reliable schedule", "Basic computer skills"],
      tasks := ["Phone banking to registered voters", "Door-to-door canvassing", "Data entry and voter database management", "Distributing campaign materials"],
      icon := "📞"),
    VolunteerRole(
      id := "events", title := "Event Organization",
      description := "Organize and coordinate campaign events, town halls, and community gatherings.",
      timeCommitment := "5-15 hours/week",
      requirements := ["Event planning experience", "Strong organizational skills", "Leadership abilities"],
      tasks := ["Planning and coordinating events", "Venue management and setup", "Volunteer coordination", "Vendor and catering management"],
      icon := "🎪"),
    VolunteerRole(
      id := "digital", title := "Digital Outreach",
      description := "Manage social media, website content, and digital communications.",
      timeCommitment := "3-8 hours/week",
      requirements := ["Social media experience", "Basic graphic design", "Content writing skills"],
      tasks := ["Social media content creation", "Website updates and maintenance", "Email newsletter management", "Online community engagement"],
      icon := "💻"),
    VolunteerRole(
      id := "admin", title := "Administrative Support",
      description := "Provide office support, data management, and organizational assistance.",
      timeCommitment := "4-12 hours/week",
      requirements := ["Office experience", "Computer proficiency", "Attention to detail"],
      tasks := ["Filing and document organization", "Database management", "Phone answering and scheduling", "General office support"],
      icon := "📋"),
    VolunteerRole(
      id := "fundraising", title := "Fundraising Team",
      description := "Support fundraising efforts and donor relations.",
      timeCommitment := "3-10 hours/week",
      requirements := ["Sales or fundraising experience", "Strong interpersonal skills", "Professional demeanor"],
      tasks := ["Donor outreach and cultivation", "Fundraising event support", "Grant research and writing", "Financial tracking and reporting"],
      icon := "💰"),
    VolunteerRole(
      id := "community", title := "Community Liaison",
      description := "Connect with local organizations and community groups.",
      timeCommitment := "5-15 hours/week",
      requirements := ["Local community connections", "Public speaking skills", "Cultural sensitivity"],
      tasks := ["Representing campaign at community events", "Building coalition partnerships", "Organizing community forums", "Stakeholder relationship management"],
      icon := "🤝")
  ]

  /** `volunteerRoles.find(role => role.id === selectedRole)`: nothing while no role is selected. */
  function SelectedRoleData(roles: seq<VolunteerRole>, selected: Option<string>): (r: Option<VolunteerRole>)
    ensures selected.None? ==> r.None?
    ensures r.Some? ==> r.value in roles && selected == Some(r.value.id)
    ensures r.None? && selected.Some? ==> forall i :: 0 <= i < |roles| ==> roles[i].id != selected.value
  {
    match selected
    case None => None
    case Some(id) => Find(roles, (role: VolunteerRole) => role.id == id)
  }

  /** The role found is the first one with the selected id. */
  lemma SelectedRoleIsFirst(roles: seq<VolunteerRole>, id: string, i: nat)
    requires i < |roles| && roles[i].id == id
    requires forall j :: 0 <= j < i ==> roles[j].id != id
    ensures SelectedRoleData(roles, Some(id)) == Some(roles[i])
  {
    FindFirst(roles, (role: VolunteerRole) => role.id == id, i);
  }

  /** The ids of the hard-coded roles, in their order. */
  lemma HardCodedIds()
    ensures |HardCodedRoles| == 6
    ensures HardCodedRoles[0].id == "campaign" && HardCodedRoles[1].id == "events"
    ensures HardCodedRoles[2].id == "digital" && HardCodedRoles[3].id == "admin"
    ensures HardCodedRoles[4].id == "fundraising" && HardCodedRoles[5].id == "community"
  {
  }

  /** "campaign" finds the first hard-coded role. */
  lemma CampaignLookup()
    ensures SelectedRoleData(HardCodedRoles, Some("campaign")) == Some(HardCodedRoles[0])
  {
    HardCodedIds();
    SelectedRoleIsFirst(HardCodedRoles, "campaign", 0);
  }

  /** "community" finds the last hard-coded role. */
  lemma CommunityLookup()
    ensures SelectedRoleData(HardCodedRoles, Some("community")) == Some(HardCodedRoles[5])
  {
    HardCodedIds();
    assert "campaign"[1] != "community"[1];
    assert "events"[0] != "community"[0];
    assert "digital"[0] != "community"[0];
    assert "admin"[0] != "community"[0];
    assert "fundraising"[0] != "community"[0];
    SelectedRoleIsFirst(HardCodedRoles, "community", 5);
  }

  /** The default content's "phone-banking" opportunity finds no hard-coded role. */
  lemma PhoneBankingLookup()
    ensures SelectedRoleData(HardCodedRoles, Some("phone-banking")).None?
  {
    HardCodedIds();
    var id := "phone-banking";
    assert "campaign"[0] != id[0];
    assert "events"[0] != id[0];
    assert "digital"[0] != id[0];
    assert "admin"[0] != id[0];
    assert "fundraising"[0] != id[0];
    assert "community"[0] != id[0];
  }

  /** `!selectedRole`: the role list shows while no role, or the empty id, is selected. */
  predicate ShowsRoleList(selected: Option<string>) {
    selected.None? || selected == Some("")
  }

  /**
   * Whether the page shows the submit message as written: the message banner
   * sits inside the application form, which renders only while a role is
   * selected.
   */
  predicate MessageShown(selected: Option<string>, message: string) {
    !ShowsRoleList(selected) && message != ""
  }

  /** Where the banner belongs: above both branches, so that any non-empty message shows. */
  predicate MessageShownAbove(selected: Option<string>, message: string) {
    message != ""
  }

  /**
   * As written, the thanks set by a submission is never seen: the same
   * submission clears the selected role, so the role list replaces the form
   * and its banner; the message shows only if a role is selected again.
   */
  lemma SubmittedThanksHidden(selected: Option<string>)
    ensures VolunteerThankYou != "" && !MessageShown(None, VolunteerThankYou)
    ensures MessageShown(selected, VolunteerThankYou) <==> selected.Some? && selected.value != ""
  {
  }

  /** With the banner above the branches, the thanks shows on the role list the submission returns to. */
  lemma SubmittedThanksShownAbove()
    ensures MessageShownAbove(None, VolunteerThankYou)
    ensures forall selected :: MessageShownAbove(selected, VolunteerThankYou)
  {
  }

  // ------------------------------------------------------------------
  // the page

  const VolunteerThankYou: string := "Thank you for volunteering! We'll contact you within 2-3 business days to discuss next steps."

  class VolunteerPage {
    var formData: VolunteerForm
    var selectedRole: Option<string>
    var isSubmitting: bool
    var submitMessage: string

    constructor ()
      ensures formData == EmptyVolunteerForm && selectedRole.None? && !isSubmitting && submitMessage == ""
    {
      formData := EmptyVolunteerForm;
      selectedRole := None;
      isSubmitting := false;
      submitMessage := "";
    }

    /** The details block's role: the first hard-coded role with the selected id. */
    function RoleDetails(): Option<VolunteerRole>
      reads this
    {
      SelectedRoleData(HardCodedRoles, selectedRole)
    }

    method HandleInputChange(e: VolunteerInput)
      requires WellTyped(e)
      modifies this
      ensures formData == ApplyInput(old(formData), e)
      ensures selectedRole == old(selectedRole) && isSubmitting == old(isSubmitting) && submitMessage == old(submitMessage)
    {
      formData := ApplyInput(formData, e);
    }

    method HandleInterestChange(interest: string)
      modifies this
      ensures formData == old(formData).(interests := ToggleInterest(old(formData).interests, interest))
      ensures selectedRole == old(selectedRole) && isSubmitting == old(isSubmitting) && submitMessage == old(submitMessage)
    {
      formData := formData.(interests := ToggleInterest(formData.interests, interest));
    }

    /** `handleRoleSelect(roleId)`. */
    method HandleRoleSelect(roleId: string)
      modifies this
      ensures selectedRole == Some(roleId)
      ensures formData == old(formData) && isSubmitting == old(isSubmitting) && submitMessage == old(submitMessage)
    {
      selectedRole := Some(roleId);
    }

    /** The "Back to Volunteer Opportunities" button. */
    method BackToRoles()
      modifies this
      ensures selectedRole.None? && ShowsRoleList(selectedRole)
      ensures formData == old(formData) && isSubmitting == old(isSubmitting) && submitMessage == old(submitMessage)
    {
      selectedRole := None;
    }

    /**
     * `handleSubmit`, once its delay has passed: thanks, an empty form, no role
     * selected, no longer submitting; the thanks is set but, as the page is
     * laid out, not shown.
     */
    method HandleSubmit()
      modifies this
      ensures submitMessage == VolunteerThankYou
      ensures formData == EmptyVolunteerForm && formData.interests == []
      ensures selectedRole.None? && ShowsRoleList(selectedRole) && !isSubmitting
      ensures !MessageShown(selectedRole, submitMessage) && MessageShownAbove(selectedRole, submitMessage)
    {
      isSubmitting := true;
      submitMessage := VolunteerThankYou;
      formData := EmptyVolunteerForm;
      selectedRole := None;
      isSubmitting := false;
    }
  }
}

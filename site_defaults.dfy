/** The compiled-in default site content (`defaultSiteContent`). */
module SiteDefaults {
  import opened Wrappers
  import opened SiteSchema

  const DefaultSiteContent: SiteContent :=
    SiteContent(
      header := HeaderSection(
        logo := Logo(
          src := "/media/bridgewater-dtc-logo.png",
          alt := "Bridgewater Democratic Town Committee",
          fallbackText := "Bridgewater Democratic Town Committee"),
        navigation := [
          NavItem(
            name := "Home",
            href := "/",
            displayName := None),
          NavItem(
            name := "Candidates",
            href := "/candidates",
            displayName := None),
          NavItem(
            name := "Issues",
            href := "/issues",
            displayName := None),
          NavItem(
            name := "Endorsements",
            href := "/endorsements",
            displayName := None),
          NavItem(
            name := "FactCheck",
            href := "/factcheck",
            displayName := Some("FACT CHECK")),
          NavItem(
            name := "Events",
            href := "/events",
            displayName := None),
          NavItem(
            name := "Volunteer",
            href := "/volunteer",
            displayName := None),
          NavItem(
            name := "Vote!",
            href := "/vote",
            displayName := None)
        ],
        donateButton := DonateButton(
          text := "DONATE",
          link := "/donate")),
      footer := FooterSection(
        ourTown := OurTown(
          title := "Our Town",
          quote := "Outside, I'm all for progress. But once across the big bridge, progress wears a different face. It means preserving our tranquility against distant forces which press against us. We like it here; we mean to keep it this way. That's basic politics in Bridgewater.",
          attribution := "-- 1985 - Theodore H. White, American political journalist, historian, and novelist."),
        categories := FooterCategories(
          title := "Categories",
          links := [
            Link(
              name := "Voting",
              href := "#vote"),
            Link(
              name := "Endorsements",
              href := "#endorsements"),
            Link(
              name := "Issues",
              href := "/issues"),
            Link(
              name := "The 2021 Candidates",
              href := "#candidates")
          ]),
        copyright := Copyright(
          text := "Copyright © 2024 Bridgewater DTC. All rights reserved. Paid for by the Bridgewater DTC, Cynthia Feuer, Treasurer",
          address := "P.O. Box 132, Bridgewater, CT 06752")),
      sidebar := SidebarSection(
        search := SearchBox(
          placeholder := "Search",
          enabled := true),
        contactWidget := Widget(
          title := "Contact Us",
          linkText := "eMail/USMail us here",
          linkHref := "/contact"),
        aboutWidget := Widget(
          title := "ABOUT US",
          linkText := "About the DTC",
          linkHref := "/about")),
      home := HomeSection(
        title := "Bridgewater Democratic Town Committee",
        heroSlider := [
          HeroSlide(
            id := "slide1",
            image := "https://ext.same-assets.com/249616470/1885902561.jpeg",
            title := "Bridgewater",
            subtitle := "We love our town.",
            isActive := true),
          HeroSlide(
            id := "slide2",
            image := "https://ext.same-assets.com/249616470/848745050.jpeg",
            title := "Bridgewater",
            subtitle := "Things are good in Bridgewater.",
            isActive := true),
          HeroSlide(
            id := "slide3",
            image := "https://ext.same-assets.com/249616470/1410192107.jpeg",
            title := "Bridgewater",
            subtitle := "The town has improved,\nand it's also stayed the same.\n\nThat's letting Bridgewater be Bridgewater.",
            isActive := true),
          HeroSlide(
            id := "slide4",
            image := "https://i.imgur.com/QskNK32.jpeg",
            title := "Eric Gsell",
            subtitle := "Bridgewater's First Selectman",
            isActive := true),
          HeroSlide(
            id := "slide5",
            image := "https://i.imgur.com/0nTbSKK.jpeg",
            title := "Carolan Dwyer",
            subtitle := "Bridgewater's Selectman",
            isActive := true)
        ],
        welcomeMessage := [
          "The Bridgewater Democratic Town Committee is the voice and face of the Democratic Party in Bridgewater, Connecticut. We love Bridgewater and think is a great place to live. We are grateful for all that nature has given us here.",
          "We understand that it takes effort, discipline and skill to care for our beautiful surroundings, for the town's infrastructure and its operations, and for all of the residents who have chosen to make Bridgewater their home.",
          "We are here to preserve, to protect, to progress, and play fair.",
          "And we welcome help from any members of the Bridgewater community in our efforts."
        ],
        featureBlocks := [
          FeatureBlock(
            id := "candidates",
            title := "Candidates",
            description := "The slate, strong and qualified.",
            link := "/candidates",
            icon := "👥"),
          FeatureBlock(
            id := "endorsements",
            title := "Endorsements",
            description := "Supporters, loud and clear.",
            link := "/endorsements",
            icon := "🗳️"),
          FeatureBlock(
            id := "issues",
            title := "Issues",
            description := "Successes and plans.",
            link := "/issues",
            icon := "📋")
        ]),
      about := AboutSection(
        title := "About Bridgewater Democrats",
        sections := AboutSections(
          whoWeAre := TitledText(
            title := "Who We Are",
            content := "We're a committee of 24 Democrats elected by a caucus of Bridgewater residents who are themselves registered Democrats. We represent the Democratic Party in Bridgewater, and represent Bridgewater regionally, state-wide and nationally in the Democratic Party."),
          officers := TitledText(
            title := "Our Officers Are",
            content := "Curtis S. Read, Chairman\nKathleen Creighton, Secretary\nCynthia Feuer, Treasurer"),
          whatWeStriveFor := TitledList(
            title := "What We Strive For",
            items := [
              "Maintaining the small town advantage.",
              "Providing quality education.",
              "Preserving small towns in must-do state mandates.",
              "Continuing to maintain reasonable tax rates with rising demand for services.",
              "Continuing to balance pressure for growth with environment, open space, and quality of life.",
              "Providing reasonable housing for the elderly.",
              "Providing housing opportunities for younger generations."
            ])),
        joinUsMessage := "Would you like to join us? Click here to contact us."),
      candidates := CandidatesSection(
        title := "2021 Candidates",
        subtitle := "Meet the dedicated individuals running to serve Bridgewater. Our slate represents experience, integrity, and a shared vision for our community's future.",
        candidates := [
          Candidate(
            id := "curtis-read",
            name := "Curtis Read",
            position := "First Selectman",
            image := "https://ext.same-assets.com/1303823124/4232692335.jpeg",
            bio := "Curtis Read has served Bridgewater with dedication and integrity. As First Selectman, he has led initiatives to improve our town's infrastructure while preserving its small-town character.",
            experience := [
              "Bridgewater First Selectman (2019-present)",
              "Town Planning Commission (2015-2019)",
              "Local Business Owner (20+ years)",
              "Volunteer Fire Department"
            ],
            priorities := [
              "Responsible fiscal management",
              "Infrastructure improvements",
              "Preserving Bridgewater's character",
              "Supporting local businesses"
            ]),
          Candidate(
            id := "alan-brown",
            name := "Alan Brown",
            position := "Selectman",
            image := "https://ext.same-assets.com/1303823124/642631049.jpeg",
            bio := "Alan Brown brings years of public service experience to the Board of Selectmen. His commitment to transparent government and community engagement makes him an invaluable team member.",
            experience := [
              "Bridgewater Selectman (2019-present)",
              "Board of Education (2012-2019)",
              "Environmental Commission Chair",
              "Community Volunteer"
            ],
            priorities := [
              "Transparent governance",
              "Environmental protection",
              "Educational excellence",
              "Community engagement"
            ])
        ],
        callToAction := CallToAction(
          title := "Your Team, Your Town",
          message := "This experienced team is committed to preserving what makes Bridgewater special while ensuring our town continues to thrive for future generations.",
          buttons := [
            LinkButton(
              text := "See Endorsements",
              link := "/endorsements",
              style := Primary),
            LinkButton(
              text := "View Issues",
              link := "/issues",
              style := Secondary)
          ])),
      issues := IssuesSection(
        title := "Issues & Accomplishments",
        subtitle := "Over the past four years, our team has delivered on our promises while maintaining the values and character that make Bridgewater a special place to call home.",
        sections := IssuesSections(
          accomplishments := AccomplishmentsBlock(
            enabled := true,
            title := "Our Accomplishments",
            items := [
              Accomplishment(
                id := "infrastructure",
                title := "Infrastructure Improvements",
                description := "Significant improvements to town roads, bridges, and public facilities while maintaining fiscal responsibility.",
                details := [
                  "Completed Route 202 bridge repairs",
                  "Resurfaced 12 miles of town roads",
                  "Upgraded town hall heating system",
                  "Improved emergency services equipment"
                ],
                icon := "🏗️"),
              Accomplishment(
                id := "fiscal",
                title := "Fiscal Management",
                description := "Maintained stable tax rates while investing in essential services and infrastructure.",
                details := [
                  "Zero tax increase for three consecutive years",
                  "Improved bond rating from AA- to AA",
                  "Reduced long-term debt by 15%",
                  "Increased emergency fund reserves"
                ],
                icon := "💰")
            ]),
          futurePlans := FuturePlansBlock(
            enabled := true,
            title := "Looking Forward: Our Plans",
            items := [
              FuturePlan(
                id := "broadband",
                title := "Broadband Expansion",
                description := "Bring high-speed internet to all residents",
                timeline := "2024-2025",
                priority := High),
              FuturePlan(
                id := "parks",
                title := "Park Improvements",
                description := "Upgrade playground equipment and trails",
                timeline := "2024",
                priority := Medium)
            ])),
        callToAction := CallToAction(
          title := "Continue the Progress",
          message := "Our proven track record shows we deliver results while maintaining fiscal responsibility.",
          buttons := [
            LinkButton(
              text := "Meet the Team",
              link := "/candidates",
              style := Primary),
            LinkButton(
              text := "Get Involved",
              link := "/contact",
              style := Secondary)
          ])),
      endorsements := EndorsementsSection(
        title := "Endorsements",
        subtitle := "Supporters from across our community and region recognize the exceptional leadership and results our team has delivered for Bridgewater.",
        individualEndorsements := [
          IndividualEndorsement(
            id := "robert-thompson",
            name := "Robert Thompson",
            title := "Former Mayor, Litchfield",
            quote := "Curtis Read and his team have demonstrated exceptional leadership and fiscal responsibility. Bridgewater is fortunate to have such dedicated public servants.",
            image := "https://images.unsplash.com/photo-1472099645785-5658abf4ff4e?w=200&h=200&fit=crop&crop=face")
        ],
        organizationEndorsements := [
          OrganizationEndorsement(
            id := "teachers-union",
            name := "Bridgewater Teachers Association",
            description := "Supporting education and community values",
            website := None)
        ],
        mediaEndorsements := [
          MediaEndorsement(
            id := "litchfield-county-times",
            outlet := "Litchfield County Times",
            headline := "Bridgewater Democrats Deliver Results",
            excerpt := "Fiscal responsibility meets community progress in Bridgewater...",
            date := "October 15, 2021",
            link := None)
        ]),
      volunteer := VolunteerSection(
        title := "Volunteer Opportunities",
        subtitle := "Make a difference in your community by joining our team of dedicated volunteers.",
        introduction := "Whether you have 30 minutes or 30 hours to spare, there's a way for you to contribute to our mission of strengthening Bridgewater's democratic voice.",
        roles := [
          VolunteerRole(
            id := "phone-banking",
            title := "Phone Banking",
            description := "Contact voters to share information about candidates and issues",
            timeCommitment := "2-4 hours per week",
            requirements := [
              "Comfortable speaking on the phone",
              "Basic computer skills"
            ],
            tasks := [
              "Make voter contact calls",
              "Update voter databases",
              "Follow up with interested voters"
            ],
            icon := "📞")
        ],
        benefits := [
          "Meet like-minded community members",
          "Gain valuable campaign experience",
          "Make a real difference in local politics",
          "Flexible scheduling to fit your availability"
        ],
        callToAction := VolunteerCallToAction(
          title := "Ready to Get Involved?",
          message := "Sign up below and we'll contact you with volunteer opportunities that match your interests and availability.",
          formFields := [
            FormField(
              name := "name",
              labelText := "Full Name",
              inputType := "text",
              required := true,
              options := None),
            FormField(
              name := "email",
              labelText := "Email Address",
              inputType := "email",
              required := true,
              options := None),
            FormField(
              name := "phone",
              labelText := "Phone Number",
              inputType := "tel",
              required := false,
              options := None),
            FormField(
              name := "interests",
              labelText := "Areas of Interest",
              inputType := "select",
              required := false,
              options := Some([
                "Phone Banking",
                "Canvassing",
                "Event Planning",
                "Data Entry",
                "Social Media"
              ]))
          ])),
      vote := VoteSection(
        title := "Voting Information",
        subtitle := "Everything you need to know to make your voice heard in Bridgewater elections.",
        introduction := "Voting is one of our most fundamental rights and responsibilities. Here's how to participate in Bridgewater's democratic process.",
        tabs := VoteTabs(
          registration := RegistrationTab(
            enabled := true,
            labelText := "Registration",
            title := "Voter Registration",
            subtitle := "Get registered to vote in Bridgewater elections",
            content := RegistrationContent(
              whoCanRegister := TitledList(
                title := "Who Can Register?",
                items := [
                  "U.S. citizen",
                  "Connecticut resident",
                  "At least 18 years old by Election Day",
                  "Not currently serving a felony sentence"
                ]),
              howToRegister := TitledList(
                title := "How to Register",
                items := [
                  "Online at ct.gov/vote",
                  "By mail using voter registration form",
                  "In person at Town Clerk's office",
                  "At DMV when getting driver's license"
                ]),
              whatYouNeed := TitledList(
                title := "What You Need",
                items := [
                  "Valid Connecticut driver's license OR",
                  "Last 4 digits of Social Security number",
                  "Current address in Bridgewater"
                ]),
              checkStatus := CheckStatus(
                title := "Check Your Status",
                description := "Verify your voter registration status and find your polling location.",
                buttons := [
                  StyledButton(
                    text := "Check Registration Status",
                    style := Primary),
                  StyledButton(
                    text := "Register Online",
                    style := Secondary)
                ]),
              needHelp := NeedHelp(
                title := "Need Help?",
                contacts := [
                  HelpContact(
                    kind := PhoneContact,
                    labelText := "Town Clerk",
                    value := "(860) 555-0123"),
                  HelpContact(
                    kind := EmailContact,
                    labelText := "Email",
                    value := "clerk@bridgewater.gov"),
                  HelpContact(
                    kind := AddressContact,
                    labelText := "Town Hall",
                    value := "100 Main St\nMonday-Friday 9AM-5PM")
                ]))),
          locations := LocationsTab(
            enabled := true,
            labelText := "Polling Locations",
            title := "Polling Locations",
            subtitle := "Find your designated polling place",
            pollingLocations := [
              PollingLocation(
                id := "community-center",
                name := "Bridgewater Community Center",
                address := "123 Main Street, Bridgewater, CT 06752",
                districts := [
                  "District 1",
                  "District 2"
                ],
                hours := "6:00 AM - 8:00 PM",
                accessibility := "Fully Accessible",
                parking := "Free parking available",
                contact := "(860) 555-0123"),
              PollingLocation(
                id := "burnham-library",
                name := "Burnham Library",
                address := "456 Library Lane, Bridgewater, CT 06752",
                districts := [
                  "District 3"
                ],
                hours := "6:00 AM - 8:00 PM",
                accessibility := "Wheelchair Accessible",
                parking := "Street parking",
                contact := "(860) 555-0145"),
              PollingLocation(
                id := "elementary-school",
                name := "Bridgewater Elementary School",
                address := "789 School Drive, Bridgewater, CT 06752",
                districts := [
                  "District 4",
                  "District 5"
                ],
                hours := "6:00 AM - 8:00 PM",
                accessibility := "Fully Accessible",
                parking := "Large parking lot",
                contact := "(860) 555-0167")
            ],
            districtLookup := DistrictLookup(
              title := "Don't Know Your District?",
              description := "Use our district lookup tool to find your voting district and polling location.",
              buttonText := "Find My District")),
          dates := DatesTab(
            enabled := true,
            labelText := "Important Dates",
            title := "Important Election Dates",
            subtitle := "Key dates and deadlines for upcoming elections",
            importantDates := [
              ImportantDate(
                id := "registration-deadline",
                title := "Voter Registration Deadline",
                date := "2024-10-29",
                description := "Last day to register to vote for the November election",
                kind := RegistrationDate),
              ImportantDate(
                id := "absentee-deadline",
                title := "Absentee Ballot Application Deadline",
                date := "2024-10-30",
                description := "Last day to apply for an absentee ballot",
                kind := AbsenteeDate),
              ImportantDate(
                id := "early-voting",
                title := "Early Voting Begins",
                date := "2024-11-04",
                description := "Early voting period starts at designated locations",
                kind := EarlyVotingDate),
              ImportantDate(
                id := "election-day",
                title := "Election Day",
                date := "2024-11-05",
                description := "General Election - Polls open 6:00 AM to 8:00 PM",
                kind := ElectionDate)
            ],
            electionDayReminders := TitledList(
              title := "🗳️ Election Day Reminders",
              items := [
                "Polls are open from 6:00 AM to 8:00 PM",
                "Bring a valid ID if you're a first-time voter",
                "You can still vote if you're in line when polls close",
                "Report any voting issues to election officials",
                "No campaigning within 75 feet of polling places"
              ])),
          candidates := CandidatesTab(
            enabled := true,
            labelText := "Candidates",
            title := "2024 Election Candidates",
            subtitle := "Learn about the candidates on your ballot",
            candidateInfo := [
              Race(
                office := "First Selectman",
                candidates := [
                  BallotCandidate(
                    name := "Curtis Read",
                    party := "Democratic",
                    description := Some("Incumbent seeking re-election")),
                  BallotCandidate(
                    name := "John Smith",
                    party := "Republican",
                    description := None)
                ]),
              Race(
                office := "Selectman",
                candidates := [
                  BallotCandidate(
                    name := "Alan Brown",
                    party := "Democratic",
                    description := Some("Incumbent seeking re-election")),
                  BallotCandidate(
                    name := "Mary Johnson",
                    party := "Republican",
                    description := None)
                ]),
              Race(
                office := "Town Clerk",
                candidates := [
                  BallotCandidate(
                    name := "Susan Miller",
                    party := "Democratic",
                    description := Some("Incumbent seeking re-election")),
                  BallotCandidate(
                    name := "Robert Wilson",
                    party := "Republican",
                    description := None)
                ]),
              Race(
                office := "Board of Education (3 seats)",
                candidates := [
                  BallotCandidate(
                    name := "Jennifer Davis",
                    party := "Democratic",
                    description := None),
                  BallotCandidate(
                    name := "Michael Thompson",
                    party := "Democratic",
                    description := Some("Incumbent seeking re-election")),
                  BallotCandidate(
                    name := "Sarah Williams",
                    party := "Republican",
                    description := None),
                  BallotCandidate(
                    name := "David Martinez",
                    party := "Republican",
                    description := Some("Incumbent seeking re-election"))
                ])
            ],
            learnMore := LearnMore(
              title := "📋 Learn More About Candidates",
              description := "Research candidates' positions on issues important to Bridgewater.",
              buttons := [
                LinkButton(
                  text := "View Democratic Candidates",
                  link := "/candidates",
                  style := Primary),
                LinkButton(
                  text := "Read About Issues",
                  link := "/issues",
                  style := Secondary)
              ]))),
        callToAction := VoteCallToAction(
          title := "Make Your Voice Heard",
          message := "Every vote matters in Bridgewater. Your participation helps shape our community's future and ensures that our values are represented in local government.",
          buttons := [
            StyledButton(
              text := "🗳️ Check My Registration",
              style := Primary),
            StyledButton(
              text := "📍 Find My Polling Place",
              style := Secondary)
          ]),
        votingRights := VotingRights(
          title := "Your Voting Rights",
          youHaveTheRight := TitledList(
            title := "You Have the Right To:",
            items := [
              "Vote if you're in line when polls close",
              "Request help if you have a disability",
              "Vote privately and independently",
              "Receive a new ballot if you make a mistake",
              "Report voting problems to election officials"
            ]),
          needAssistance := NeedAssistance(
            title := "Need Assistance?",
            contacts := [
              LabeledValue(
                labelText := "📞 Election Protection Hotline",
                value := "1-866-OUR-VOTE"),
              LabeledValue(
                labelText := "📧 Secretary of State",
                value := "elections@ct.gov"),
              LabeledValue(
                labelText := "🌐 Connecticut Voting Rights",
                value := "ct.gov/vote"),
              LabeledValue(
                labelText := "📱 Text Help",
                value := "Text \"CTHELP\" to 67369 for assistance")
            ]))),
      contact := ContactSection(
        title := "Contact Us",
        subtitle := "Get in touch with the Bridgewater Democratic Town Committee",
        showPhoneNumber := false,
        phoneNumber := "(860) 555-0123",
        email := "info@bridgewaterdems.org",
        mailingAddress := MailingAddress(
          organization := "Bridgewater Democratic Town Committee",
          addressLine1 := "P.O. Box 132",
          addressLine2 := "Bridgewater, CT 06752"),
        contactForm := ContactForm(
          title := "Send us a Message",
          subtitle := "We'd love to hear from you. Send us a message and we'll respond as soon as possible.",
          fields := [
            ContactFormField(
              name := "name",
              labelText := "Your Name",
              inputType := "text",
              required := true,
              placeholder := Some("Enter your full name")),
            ContactFormField(
              name := "email",
              labelText := "Email Address",
              inputType := "email",
              required := true,
              placeholder := Some("your@email.com")),
            ContactFormField(
              name := "subject",
              labelText := "Subject",
              inputType := "text",
              required := true,
              placeholder := Some("What is this regarding?")),
            ContactFormField(
              name := "message",
              labelText := "Message",
              inputType := "textarea",
              required := true,
              placeholder := Some("Your message here..."))
          ],
          submitButtonText := "Send Message",
          successMessage := "Thank you for your message! We'll get back to you soon."),
        officeHours := OfficeHours(
          title := "Office Hours",
          schedule := [
            "Monday - Friday: 9:00 AM - 5:00 PM",
            "Saturday: 10:00 AM - 2:00 PM",
            "Sunday: Closed"
          ]),
        socialMedia := [
          SocialLink(
            platform := "Facebook",
            url := "https://facebook.com/bridgewaterdems",
            isActive := false),
          SocialLink(
            platform := "Twitter",
            url := "https://twitter.com/bridgewaterdems",
            isActive := false)
        ]))
}

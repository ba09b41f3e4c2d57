/**
 * The e-mails sent after a SEEC form submission: the plain-text admin
 * notification (`formatSEECEmailContent`), the donor confirmation with its
 * placeholder substitutions, the stored-or-default recipient list and the
 * result the two send functions report.
 */
module EmailService {
  import opened Wrappers
  import opened JsStrings
  import opened JsNumbers
  import opened SeecRecord
  import opened DonationSchema
  import opened DonationDefaults
  import opened BrowserStorage
  import opened ContentService

  // ------------------------------------------------------------------
  // layout helpers

  /** A text without line breaks: one line of an e-mail. */
  predicate OneLine(s: string) {
    '\n' !in s
  }

  /** Two texts without line breaks, one after the other, hold none. */
  lemma OneLineConcat(a: string, b: string)
    requires OneLine(a) && OneLine(b)
    ensures OneLine(a + b)
  {
  }

  /** `true ? 'Yes' : 'No'`. */
  function YesNo(b: bool): string {
    if b then "Yes" else "No"
  }

  /** Joining one-line parts with a one-line separator gives one line. */
  lemma {:induction false} JoinOneLine(parts: seq<string>, sep: string)
    requires OneLine(sep)
    requires forall i :: 0 <= i < |parts| ==> OneLine(parts[i])
    ensures OneLine(Join(parts, sep))
    decreases |parts|
  {
    if |parts| > 1 {
      JoinOneLine(parts[1..], sep);
    }
  }

  /**
   * A template literal that starts with a line break, holds `lines` one per line
   * and ends in a line break and indentation, once trimmed, is the lines joined
   * with line breaks, provided the first line does not start and the last does
   * not end with white space; it then starts with the first line and ends with
   * the last two.
   */
  lemma TrimmedLayout(lines: seq<string>, post: string)
    requires |lines| >= 3 && AllWhitespace(post)
    requires lines[0] != "" && !IsJsWhitespace(lines[0][0])
    requires var last := lines[|lines| - 1]; last != "" && !IsJsWhitespace(last[|last| - 1])
    ensures var r := Trim("\n" + Join(lines, "\n") + post);
      r == Join(lines, "\n")
      && |lines[0]| <= |r| && r[..|lines[0]|] == lines[0]
      && r == Join(lines[..|lines| - 2], "\n") + "\n" + lines[|lines| - 2] + "\n" + lines[|lines| - 1]
  {
    var n := |lines|;
    var body := Join(lines, "\n");
    var last := lines[n - 1];
    JoinStartsWithFirst(lines, "\n");
    JoinLastTwo(lines, "\n");
    assert body[|body| - 1] == last[|last| - 1];
    assert body[0] == lines[0][0];
    assert AllWhitespace("\n");
    TrimOfPadded("\n", body, post);
  }

  /** The joined text ends with the separator, the last-but-one part, the separator and the last part. */
  lemma JoinLastTwo(lines: seq<string>, sep: string)
    requires |lines| >= 3
    ensures Join(lines, sep) == Join(lines[..|lines| - 2], sep) + sep + lines[|lines| - 2] + sep + lines[|lines| - 1]
  {
    var n := |lines|;
    assert lines[..n - 1] == lines[..n - 2] + [lines[n - 2]];
    assert lines == lines[..n - 1] + [lines[n - 1]];
    JoinSnoc(lines[..n - 2], lines[n - 2], sep);
    JoinSnoc(lines[..n - 1], lines[n - 1], sep);
  }

  // ------------------------------------------------------------------
  // admin notification

  /** The name line: first name, a space, the initial, ". ", the last name. */
  function NameLine(f: SeecFormData): string {
    f.firstName + " " + f.initial + ". " + f.lastName
  }

  /** The header, the introduction and the data header, each followed by a blank line. */
  function IntroBlock(t: AdminNotificationTemplate): seq<string> {
    [t.header, "", t.introText, "", t.dataHeader + ":", ""]
  }

  /** Name, street, "city, state  zip", phone and e-mail, then a blank line. */
  function ContributorBlock(f: SeecFormData): seq<string> {
    [NameLine(f), f.street, f.city + ", " + f.state + "  " + f.zip, f.phone, f.email, ""]
  }

  /** The amount after a `$`, then the under-18 answer and age. */
  function AmountBlock(f: SeecFormData): seq<string> {
    ["Donation Amount: $" + NumberText(f.donation), "",
     "Under 18: " + YesNo(f.under18), "   If yes, age: " + f.age, ""]
  }

  function EmploymentBlock(f: SeecFormData): seq<string> {
    ["Employer: " + f.employer, "Principal Occupation: " + f.occupation, ""]
  }

  /** The legal disclosures, the branches joined with ", ". */
  function DisclosureBlock(f: SeecFormData): seq<string> {
    ["Communicator Lobbyist? " + f.lobbyist,
     "Spouse or Dependent? " + f.spouse,
     "    Elected official? " + f.elected,
     "State Contractor or Potential " + "State Contractor? " + f.contractor,
     "    Which branch(es)? " + Join(f.branches, ", "),
     "    Elected official? " + f.contractorOfficial,
     "CAS Prequalification Holder? " + f.casHolder, ""]
  }

  /** Payment method, signature, the `--` line and the footer. */
  function ClosingBlock(t: AdminNotificationTemplate, f: SeecFormData): seq<string> {
    ["Method of Contribution: PayPal", "",
     "Digitally Signed Certification: " + f.signature, "",
     "--", t.footer]
  }

  /** The lines of the admin notification, in the template's fixed order. */
  function AdminNotificationLines(t: AdminNotificationTemplate, f: SeecFormData): (lines: seq<string>)
    ensures |lines| == 34
  {
    IntroBlock(t) + ContributorBlock(f) + AmountBlock(f) + EmploymentBlock(f) + DisclosureBlock(f) + ClosingBlock(t, f)
  }

  /** `formatSEECEmailContent(formData)`, given the admin template `getDonationContent()` supplies. */
  function FormatSeecEmailContent(t: AdminNotificationTemplate, f: SeecFormData): (r: string)
    ensures r != "" ==> !IsJsWhitespace(r[0]) && !IsJsWhitespace(r[|r| - 1])
  {
    Trim("\n" + Join(AdminNotificationLines(t, f), "\n") + "\n  ")
  }

  /** The template keys that go into the admin notification hold no line breaks. */
  predicate AdminTemplateOneLine(t: AdminNotificationTemplate) {
    OneLine(t.header) && OneLine(t.introText) && OneLine(t.dataHeader) && OneLine(t.footer)
  }

  /** The form fields that go into the admin notification hold no line breaks. */
  predicate FormOneLine(f: SeecFormData) {
    OneLine(f.firstName) && OneLine(f.initial) && OneLine(f.lastName)
    && OneLine(f.email) && OneLine(f.phone)
    && OneLine(f.street) && OneLine(f.city) && OneLine(f.state) && OneLine(f.zip)
    && OneLine(f.age) && OneLine(f.employer) && OneLine(f.occupation)
    && OneLine(f.lobbyist) && OneLine(f.spouse) && OneLine(f.elected) && OneLine(f.contractor)
    && (forall i :: 0 <= i < |f.branches| ==> OneLine(f.branches[i]))
    && OneLine(f.contractorOfficial) && OneLine(f.casHolder) && OneLine(f.signature)
  }

  /** A template whose header does not start and whose footer does not end with white space. */
  predicate AdminTemplateUnpadded(t: AdminNotificationTemplate) {
    t.header != "" && !IsJsWhitespace(t.header[0])
    && t.footer != "" && !IsJsWhitespace(t.footer[|t.footer| - 1])
  }

  /** The first, last-but-one and last lines of the notification. */
  lemma AdminNotificationFrame(t: AdminNotificationTemplate, f: SeecFormData)
    ensures var lines := AdminNotificationLines(t, f);
      lines[0] == t.header && lines[32] == "--" && lines[33] == t.footer
  {
    var lines := AdminNotificationLines(t, f);
    assert lines[28..] == ClosingBlock(t, f);
  }

  /** Every line in `lines` is a single line. */
  predicate AllOneLine(lines: seq<string>) {
    forall x :: x in lines ==> OneLine(x)
  }

  lemma ContributorOneLine(f: SeecFormData)
    requires FormOneLine(f)
    ensures AllOneLine(ContributorBlock(f)) && AllOneLine(EmploymentBlock(f))
  {
  }

  lemma AmountOneLine(f: SeecFormData)
    requires FormOneLine(f)
    ensures AllOneLine(AmountBlock(f))
  {
    NumberTextPlain(f.donation);
    assert OneLine(YesNo(f.under18));
    AmountLinesOneLine(NumberText(f.donation), YesNo(f.under18), f.age);
  }

  /** The amount block's labels hold no line break, so its lines are one line each when the values are. */
  lemma AmountLinesOneLine(amount: string, under18: string, age: string)
    requires OneLine(amount) && OneLine(under18) && OneLine(age)
    ensures AllOneLine(["Donation Amount: $" + amount, "", "Under 18: " + under18, "   If yes, age: " + age, ""])
  {
    assert OneLine("Donation Amount: $");
    OneLineConcat("Donation Amount: $", amount);
    assert OneLine("Under 18: ");
    OneLineConcat("Under 18: ", under18);
    assert OneLine("   If yes, age: ");
    OneLineConcat("   If yes, age: ", age);
  }

  lemma DisclosureOneLine(f: SeecFormData)
    requires FormOneLine(f)
    ensures AllOneLine(DisclosureBlock(f))
  {
    DisclosureFirstLinesOneLine(f);
    DisclosureLastLinesOneLine(f);
  }

  lemma DisclosureFirstLinesOneLine(f: SeecFormData)
    requires FormOneLine(f)
    ensures var b := DisclosureBlock(f); OneLine(b[0]) && OneLine(b[1]) && OneLine(b[2]) && OneLine(b[3])
  {
    assert OneLine("Communicator Lobbyist? ") && OneLine("Spouse or Dependent? ");
    assert OneLine("    Elected official? ");
    assert OneLine("State Contractor or Potential ") && OneLine("State Contractor? ");
  }

  lemma DisclosureLastLinesOneLine(f: SeecFormData)
    requires FormOneLine(f)
    ensures var b := DisclosureBlock(f); OneLine(b[4]) && OneLine(b[5]) && OneLine(b[6]) && OneLine(b[7])
  {
    JoinOneLine(f.branches, ", ");
    assert OneLine("    Which branch(es)? ") && OneLine("    Elected official? ");
    assert OneLine("CAS Prequalification Holder? ");
  }

  lemma IntroAndClosingOneLine(t: AdminNotificationTemplate, f: SeecFormData)
    requires AdminTemplateOneLine(t) && FormOneLine(f)
    ensures AllOneLine(IntroBlock(t)) && AllOneLine(ClosingBlock(t, f))
  {
    assert OneLine("Method of Contribution: PayPal");
    assert OneLine("Digitally Signed Certification: ");
  }

  /** Each line of the notification is one line when the template keys and the form fields are. */
  lemma AdminNotificationLinesOneLine(t: AdminNotificationTemplate, f: SeecFormData)
    requires AdminTemplateOneLine(t) && FormOneLine(f)
    ensures var lines := AdminNotificationLines(t, f);
      forall i :: 0 <= i < |lines| ==> OneLine(lines[i])
  {
    var lines := AdminNotificationLines(t, f);
    IntroAndClosingOneLine(t, f);
    ContributorOneLine(f);
    AmountOneLine(f);
    DisclosureOneLine(f);
    assert AllOneLine(lines);
    forall i | 0 <= i < |lines|
      ensures OneLine(lines[i])
    {
      assert lines[i] in lines;
    }
  }

  /** What the data, amount, under-18 and branch lines say. */
  lemma AdminNotificationLineContents(t: AdminNotificationTemplate, f: SeecFormData)
    ensures var ls := AdminNotificationLines(t, f);
      ls[2] == t.introText
      && ls[4] == t.dataHeader + ":"
      && ls[6] == f.firstName + " " + f.initial + ". " + f.lastName
      && ls[12] == "Donation Amount: $" + NumberText(f.donation)
      && (ls[14] == "Under 18: Yes" <==> f.under18)
      && (ls[14] == "Under 18: No" <==> !f.under18)
      && ls[24] == "    Which branch(es)? " + Join(f.branches, ", ")
      && (f.branches == [] ==> ls[24] == "    Which branch(es)? ")
  {
    var ls := AdminNotificationLines(t, f);
    assert ls[..6] == IntroBlock(t);
    assert ls[6..12] == ContributorBlock(f);
    assert ls[12..17] == AmountBlock(f);
    assert ls[20..28] == DisclosureBlock(f);
    if f.under18 {
      assert |"Under 18: No"| != |ls[14]|;
    } else {
      assert |"Under 18: Yes"| != |ls[14]|;
    }
  }

  /** The trimmed notification starts with the header and ends with `--`, a line break and the footer. */
  lemma AdminNotificationEnds(t: AdminNotificationTemplate, f: SeecFormData)
    requires AdminTemplateUnpadded(t)
    ensures var r := FormatSeecEmailContent(t, f);
      r == Join(AdminNotificationLines(t, f), "\n")
      && |t.header| <= |r| && r[..|t.header|] == t.header
      && r == Join(AdminNotificationLines(t, f)[..32], "\n") + "\n" + "--" + "\n" + t.footer
  {
    AdminNotificationFrame(t, f);
    TrimmedLayout(AdminNotificationLines(t, f), "\n  ");
  }

  /**
   * When no template key and no form field holds a line break, the lines of
   * the notification are exactly its layout, so that the data header is
   * followed by a colon, the amount follows a `$`, the under-18 box reads
   * "Yes" or "No" and the branches are joined with ", " in list order.
   */
  lemma AdminNotificationLayout(t: AdminNotificationTemplate, f: SeecFormData)
    requires AdminTemplateUnpadded(t) && AdminTemplateOneLine(t) && FormOneLine(f)
    ensures Split(FormatSeecEmailContent(t, f), '\n') == AdminNotificationLines(t, f)
  {
    AdminNotificationEnds(t, f);
    AdminNotificationLinesOneLine(t, f);
    SplitJoin(AdminNotificationLines(t, f), '\n');
  }

  /** The default template's header starts and its footer ends with a printing character. */
  lemma DefaultAdminTemplateUnpadded()
    ensures AdminTemplateUnpadded(DefaultAdminNotification)
  {
  }

  /** The default header and intro text hold no line break. */
  lemma DefaultAdminHeaderOneLine()
    ensures OneLine(DefaultAdminNotification.header) && OneLine(DefaultAdminNotification.introText)
  {
    AdminHeaderSingleLine();
    AdminIntroSingleLine();
  }

  /** The default data header and footer hold no line break. */
  lemma DefaultAdminFooterOneLine()
    ensures OneLine(DefaultAdminNotification.dataHeader) && OneLine(DefaultAdminNotification.footer)
  {
    AdminDataHeaderSingleLine();
    AdminFooterSingleLine();
  }

  /** With the default template the data-header line ends in "::", the template's own colon doubled. */
  lemma DefaultAdminDoubledColon(f: SeecFormData)
    requires FormOneLine(f)
    ensures var t := DefaultAdminNotification;
      var lines := Split(FormatSeecEmailContent(t, f), '\n');
      |lines| == 34 && lines[4] == t.dataHeader + ":" && |lines[4]| >= 2 && lines[4][|lines[4]| - 2..] == "::"
  {
    var t := DefaultAdminNotification;
    DefaultAdminTemplateUnpadded();
    DefaultAdminHeaderOneLine();
    DefaultAdminFooterOneLine();
    DataHeaderColonLine(t, f);
    DefaultDataHeaderColon();
  }

  /** The default data header ends in its own colon, so the line the layout builds from it ends in two. */
  lemma DefaultDataHeaderColon()
    ensures var h := DefaultAdminNotification.dataHeader + ":"; |h| >= 2 && h[|h| - 2..] == "::"
  {
  }

  /** With a one-line template and form, the fifth line of the notification is the data header and a colon. */
  lemma DataHeaderColonLine(t: AdminNotificationTemplate, f: SeecFormData)
    requires AdminTemplateUnpadded(t) && AdminTemplateOneLine(t) && FormOneLine(f)
    ensures var lines := Split(FormatSeecEmailContent(t, f), '\n');
      |lines| == 34 && lines[4] == t.dataHeader + ":"
  {
    AdminNotificationLayout(t, f);
    DataHeaderLine(t, f);
  }

  /** The fifth line of the layout is the data header and a colon. */
  lemma DataHeaderLine(t: AdminNotificationTemplate, f: SeecFormData)
    ensures |AdminNotificationLines(t, f)| == 34 && AdminNotificationLines(t, f)[4] == t.dataHeader + ":"
  {
    assert AdminNotificationLines(t, f)[..6] == IntroBlock(t);
  }

  // ------------------------------------------------------------------
  // donor confirmation

  /** First name, a space, last name. */
  function DonorName(f: SeecFormData): string {
    f.firstName + " " + f.lastName
  }

  /** The greeting: the first `{donor_name}` of the template replaced by the donor's name. */
  function Greeting(t: DonorConfirmationTemplate, f: SeecFormData): (r: string)
    ensures IndexOf(t.greeting, "{donor_name}").None? ==> r == t.greeting
  {
    ReplaceFirst(t.greeting, "{donor_name}", DonorName(f))
  }

  /** The main message: the first `{donation_amount}` replaced by the amount's decimal text. */
  function MainMessage(t: DonorConfirmationTemplate, f: SeecFormData): (r: string)
    ensures IndexOf(t.mainMessage, "{donation_amount}").None? ==> r == t.mainMessage
  {
    ReplaceFirst(t.mainMessage, "{donation_amount}", NumberText(f.donation))
  }

  /**
   * Only the first placeholder is replaced: a greeting `before + "{donor_name}" + after`
   * with no earlier placeholder becomes `before`, the name, then `after` verbatim,
   * later placeholders included.
   */
  lemma GreetingReplacesFirstOnly(t: DonorConfirmationTemplate, f: SeecFormData, before: string, after: string)
    requires t.greeting == before + "{donor_name}" + after
    requires forall j :: 0 <= j < |before| ==> !OccursAt(t.greeting, "{donor_name}", j)
    requires '$' !in DonorName(f)
    ensures Greeting(t, f) == before + DonorName(f) + after
  {
    ReplaceFirstAt(before, "{donor_name}", after, DonorName(f));
  }

  /** Likewise for the amount placeholder, whose replacement never holds a `$`. */
  lemma MainMessageReplacesFirstOnly(t: DonorConfirmationTemplate, f: SeecFormData, before: string, after: string)
    requires t.mainMessage == before + "{donation_amount}" + after
    requires forall j :: 0 <= j < |before| ==> !OccursAt(t.mainMessage, "{donation_amount}", j)
    ensures MainMessage(t, f) == before + NumberText(f.donation) + after
  {
    NumberTextPlain(f.donation);
    ReplaceFirstAt(before, "{donation_amount}", after, NumberText(f.donation));
  }

  /** A template without the placeholder is left as it is. */
  lemma MainMessageWithoutPlaceholder(t: DonorConfirmationTemplate, f: SeecFormData)
    requires forall j :: !OccursAt(t.mainMessage, "{donation_amount}", j)
    ensures MainMessage(t, f) == t.mainMessage
  {
  }

  /** The default greeting is "Dear", the donor's name and a comma. */
  lemma DefaultGreeting(f: SeecFormData)
    requires '$' !in DonorName(f)
    ensures Greeting(DefaultDonorConfirmation, f) == "Dear " + DonorName(f) + ","
  {
    var t := DefaultDonorConfirmation;
    assert t.greeting == "Dear " + "{donor_name}" + ",";
    NoEarlierOccurrence("Dear ", "{donor_name}", ",");
    GreetingReplacesFirstOnly(t, f, "Dear ", ",");
  }

  /** The default main message, cut around its placeholder. */
  lemma DefaultMainMessageParts()
    ensures DefaultDonorConfirmation.mainMessage
      == "Thank you for your donation of $" + "{donation_amount}" + (" to the Bridgewater " + "Democratic Town Committee!")
  {
  }

  /** The default main message puts the amount right after its `$`. */
  lemma DefaultMainMessage(f: SeecFormData)
    ensures MainMessage(DefaultDonorConfirmation, f)
      == "Thank you for your donation of $" + NumberText(f.donation) + (" to the Bridgewater " + "Democratic Town Committee!")
  {
    var before := "Thank you for your donation of $";
    var after := " to the Bridgewater " + "Democratic Town Committee!";
    DefaultMainMessageParts();
    assert '{' !in before;
    NoEarlierOccurrence(before, "{donation_amount}", after);
    MainMessageReplacesFirstOnly(DefaultDonorConfirmation, f, before, after);
  }

  /** So a donation of 100 reads "$100". */
  lemma DefaultMainMessageOf100(f: SeecFormData)
    requires f.donation == Whole(100)
    ensures MainMessage(DefaultDonorConfirmation, f)
      == "Thank you for your donation of $" + "100" + (" to the Bridgewater " + "Democratic Town Committee!")
  {
    DefaultMainMessage(f);
    assert NatToString(1) == "1";
    assert NatToString(10) == "10";
    assert NatToString(100) == "100";
  }

  /** The lines of the donor confirmation; `dateText` is the locale date the browser formats. */
  function DonorConfirmationLines(t: DonorConfirmationTemplate, f: SeecFormData, dateText: string): (lines: seq<string>)
    ensures |lines| == 18
  {
    [ Greeting(t, f), "", MainMessage(t, f), "", t.summaryHeader, "",
      "Donation Amount: " + NumberText(f.donation), "Method: PayPal", "Date: " + dateText, "",
      t.supportMessage, "", t.contactMessage, "", t.closing, "",
      "--", t.footer ]
  }

  /** The confirmation text `sendDonorConfirmation` composes. */
  function FormatDonorConfirmation(t: DonorConfirmationTemplate, f: SeecFormData, dateText: string): (r: string)
    ensures r != "" ==> !IsJsWhitespace(r[0]) && !IsJsWhitespace(r[|r| - 1])
  {
    Trim("\n" + Join(DonorConfirmationLines(t, f, dateText), "\n") + "\n    ")
  }

  /** The first, last-but-one and last lines of the confirmation. */
  lemma DonorConfirmationFrame(t: DonorConfirmationTemplate, f: SeecFormData, dateText: string)
    ensures var lines := DonorConfirmationLines(t, f, dateText);
      lines[0] == Greeting(t, f) && lines[16] == "--" && lines[17] == t.footer
  {
  }

  /** The trimmed confirmation starts with the greeting and ends with `--`, a line break and the footer. */
  lemma DonorConfirmationEnds(t: DonorConfirmationTemplate, f: SeecFormData, dateText: string)
    requires Greeting(t, f) != "" && !IsJsWhitespace(Greeting(t, f)[0])
    requires t.footer != "" && !IsJsWhitespace(t.footer[|t.footer| - 1])
    ensures var r := FormatDonorConfirmation(t, f, dateText);
      r == Join(DonorConfirmationLines(t, f, dateText), "\n")
      && |Greeting(t, f)| <= |r| && r[..|Greeting(t, f)|] == Greeting(t, f)
      && r == Join(DonorConfirmationLines(t, f, dateText)[..16], "\n") + "\n" + "--" + "\n" + t.footer
  {
    DonorConfirmationFrame(t, f, dateText);
    TrimmedLayout(DonorConfirmationLines(t, f, dateText), "\n    ");
  }

  /** The slots of the confirmation other than the closing hold no line breaks. */
  predicate DonorSlotsOneLine(t: DonorConfirmationTemplate, f: SeecFormData, dateText: string) {
    OneLine(Greeting(t, f)) && OneLine(MainMessage(t, f)) && OneLine(t.summaryHeader) && OneLine(dateText)
    && OneLine(t.supportMessage) && OneLine(t.contactMessage) && OneLine(t.footer)
  }

  /** The greeting starts and the footer ends with a printing character, so the trim keeps both. */
  predicate DonorEndsUnpadded(t: DonorConfirmationTemplate, f: SeecFormData) {
    Greeting(t, f) != "" && !IsJsWhitespace(Greeting(t, f)[0])
    && t.footer != "" && !IsJsWhitespace(t.footer[|t.footer| - 1])
  }

  /** With one-line slots, every line of the confirmation before and after the closing is one line. */
  lemma DonorLinesOneLine(t: DonorConfirmationTemplate, f: SeecFormData, dateText: string)
    requires DonorSlotsOneLine(t, f, dateText)
    ensures var lines := DonorConfirmationLines(t, f, dateText);
      lines == lines[..14] + [t.closing] + lines[15..]
      && AllOneLine(lines[..14]) && AllOneLine(lines[15..])
  {
    var lines := DonorConfirmationLines(t, f, dateText);
    var amount := "Donation Amount: " + NumberText(f.donation);
    var date := "Date: " + dateText;
    NumberTextPlain(f.donation);
    assert OneLine("Donation Amount: ");
    OneLineConcat("Donation Amount: ", NumberText(f.donation));
    assert OneLine("Date: ");
    OneLineConcat("Date: ", dateText);
    SlotLinesOneLine(Greeting(t, f), MainMessage(t, f), t.summaryHeader, amount, date, t.supportMessage, t.contactMessage, t.footer);
    assert lines[..14] == [ Greeting(t, f), "", MainMessage(t, f), "", t.summaryHeader, "", amount, "Method: PayPal", date, "",
                            t.supportMessage, "", t.contactMessage, "" ];
    assert lines[15..] == ["", "--", t.footer];
  }

  /** The fixed lines of the confirmation hold no line break, so only its slots can. */
  lemma SlotLinesOneLine(greeting: string, message: string, header: string, amount: string, date: string,
                         support: string, contact: string, footer: string)
    requires OneLine(greeting) && OneLine(message) && OneLine(header) && OneLine(amount) && OneLine(date)
    requires OneLine(support) && OneLine(contact) && OneLine(footer)
    ensures AllOneLine([ greeting, "", message, "", header, "", amount, "Method: PayPal", date, "",
                         support, "", contact, "" ])
    ensures AllOneLine(["", "--", footer])
  {
    assert OneLine("Method: PayPal") && OneLine("--") && OneLine("");
  }

  /** One-line parts joined with line breaks split back into those parts. */
  lemma SplitOfOneLineParts(a: seq<string>, x: string, b: seq<string>)
    requires AllOneLine(a) && OneLine(x) && AllOneLine(b)
    ensures Split(Join(a + [x] + b, "\n"), '\n') == a + [x] + b
  {
    var parts := a + [x] + b;
    forall i | 0 <= i < |parts|
      ensures '\n' !in parts[i]
    {
      if i < |a| {
        assert parts[i] == a[i] && a[i] in a;
      } else if i > |a| {
        assert parts[i] == b[i - |a| - 1] && b[i - |a| - 1] in b;
      }
    }
    SplitJoin(parts, '\n');
  }

  /** A part made of two lines splits into those two lines among the others. */
  lemma SplitOfTwoLinePart(a: seq<string>, x: string, y: string, b: seq<string>)
    requires AllOneLine(a) && OneLine(x) && OneLine(y) && AllOneLine(b)
    ensures Split(Join(a + [x + "\n" + y] + b, "\n"), '\n') == a + [x, y] + b
  {
    JoinInsideSep(a, x, y, b, "\n");
    assert a + [x, y] + b == a + [x] + ([y] + b);
    assert AllOneLine([y] + b);
    SplitOfOneLineParts(a, x, [y] + b);
  }

  /**
   * When no slot holds a line break, the confirmation sent splits at its line
   * breaks into exactly its 18 lines.
   */
  lemma DonorConfirmationLayout(t: DonorConfirmationTemplate, f: SeecFormData, dateText: string)
    requires DonorEndsUnpadded(t, f) && DonorSlotsOneLine(t, f, dateText) && OneLine(t.closing)
    ensures Split(FormatDonorConfirmation(t, f, dateText), '\n') == DonorConfirmationLines(t, f, dateText)
    ensures |Split(FormatDonorConfirmation(t, f, dateText), '\n')| == 18
  {
    var lines := DonorConfirmationLines(t, f, dateText);
    DonorConfirmationEnds(t, f, dateText);
    DonorLinesOneLine(t, f, dateText);
    SplitOfOneLineParts(lines[..14], t.closing, lines[15..]);
  }

  /**
   * A closing of two lines, as the default "Best regards," over the
   * committee's name, adds a line: the confirmation then splits into 19
   * lines, the closing's two halves in place of the closing.
   */
  lemma DonorConfirmationTwoLineClosing(t: DonorConfirmationTemplate, f: SeecFormData, dateText: string, x: string, y: string)
    requires DonorEndsUnpadded(t, f) && DonorSlotsOneLine(t, f, dateText)
    requires t.closing == x + "\n" + y && OneLine(x) && OneLine(y)
    ensures var lines := DonorConfirmationLines(t, f, dateText);
      Split(FormatDonorConfirmation(t, f, dateText), '\n') == lines[..14] + [x, y] + lines[15..]
    ensures |Split(FormatDonorConfirmation(t, f, dateText), '\n')| == 19
  {
    var lines := DonorConfirmationLines(t, f, dateText);
    DonorConfirmationEnds(t, f, dateText);
    DonorLinesOneLine(t, f, dateText);
    SplitOfTwoLinePart(lines[..14], x, y, lines[15..]);
  }

  /** The default closing is two one-line halves. */
  lemma DefaultClosingTwoLines()
    ensures DefaultDonorConfirmation.closing == "Best regards," + "\n" + "Bridgewater Democratic Town Committee"
    ensures OneLine("Best regards,") && OneLine("Bridgewater Democratic Town Committee")
  {
    ClosingHalvesSingleLine();
  }

  // ------------------------------------------------------------------
  // recipients and send results

  /** The addresses notified when none are stored. */
  const DefaultRecipients: seq<string> := ["treasurer@bridgewaterdems.org", "admin@bridgewaterdems.org"]

  /** `getEmailRecipients()`: the stored list under `donationEmailRecipients` when it parses, else the defaults. */
  function GetEmailRecipients(st: Storage): (r: seq<string>)
    reads st`emailRecipients
    ensures st.emailRecipients.Parsed? ==> r == st.emailRecipients.value
    ensures !st.emailRecipients.Parsed? ==> r == ["treasurer@bridgewaterdems.org", "admin@bridgewaterdems.org"]
  {
    match st.emailRecipients
    case Parsed(list) => list
    case _ => DefaultRecipients
  }

  /** What a send's `catch` receives: an `Error` with its message, or some other thrown value. */
  datatype Fault = ErrorWithMessage(message: string) | NonErrorThrown

  /** `{ success, error? }`. */
  datatype SendResult = SendResult(success: bool, error: Option<string>)

  /**
   * The result of `sendSEECNotification` and of `sendDonorConfirmation`, given
   * what (if anything) was thrown while composing and dispatching the e-mail.
   */
  function SendOutcome(fault: Option<Fault>): (r: SendResult)
    ensures r.success <==> fault.None?
    ensures r.success ==> r.error.None?
    ensures fault.Some? && fault.value.ErrorWithMessage? ==> r.error == Some(fault.value.message)
    ensures fault == Some(NonErrorThrown) ==> r.error == Some("Unknown error")
  {
    match fault
    case None => SendResult(true, None)
    case Some(ErrorWithMessage(m)) => SendResult(false, Some(m))
    case Some(NonErrorThrown) => SendResult(false, Some("Unknown error"))
  }
  // ------------------------------------------------------------------
  // templates read from storage

  /** `formatSEECEmailContent(formData)`, reading its template through `getDonationContent()`. */
  function SeecEmailContent(st: Storage, f: SeecFormData): (r: string)
    reads st`donationContent
    ensures !st.donationContent.Parsed? ==> r == FormatSeecEmailContent(DefaultAdminNotification, f)
  {
    FormatSeecEmailContent(GetDonationContent(st).emailTemplates.adminNotification, f)
  }

  /**
   * The data-header line of the notification is the stored `dataHeader`
   * when the stored document has one, otherwise the default, followed by
   * the colon the layout adds.
   */
  lemma SeecEmailDataHeader(st: Storage, f: SeecFormData)
    requires FormOneLine(f)
    requires var t := GetDonationContent(st).emailTemplates.adminNotification;
      AdminTemplateUnpadded(t) && AdminTemplateOneLine(t)
    ensures var lines := Split(SeecEmailContent(st, f), '\n');
      |lines| == 34
      && lines[4] == (match st.donationContent
        case Parsed(stored) => Overlay(stored.emailTemplates.adminNotification.dataHeader, DefaultAdminNotification.dataHeader)
        case _ => DefaultAdminNotification.dataHeader) + ":"
  {
    DataHeaderColonLine(GetDonationContent(st).emailTemplates.adminNotification, f);
  }

  /** Without a stored document, the notification the site sends carries the default's doubled colon. */
  lemma SeecEmailFallbackDoubledColon(st: Storage, f: SeecFormData)
    requires !st.donationContent.Parsed? && FormOneLine(f)
    ensures var lines := Split(SeecEmailContent(st, f), '\n');
      |lines| == 34 && |lines[4]| >= 2 && lines[4][|lines[4]| - 2..] == "::"
  {
    GetDonationContentFallback(st);
    DefaultAdminDoubledColon(f);
  }

  /** Without a stored document, the donor is thanked for the amount in the default wording. */
  lemma DonorMessageFallback(st: Storage, f: SeecFormData)
    requires !st.donationContent.Parsed?
    ensures MainMessage(GetDonationContent(st).emailTemplates.donorConfirmation, f)
      == "Thank you for your donation of $" + NumberText(f.donation) + (" to the Bridgewater " + "Democratic Town Committee!")
  {
    GetDonationContentFallback(st);
    DefaultMainMessage(f);
  }
}

# Bridgewater Democratic Town Committee site — a verified model of its core

This project is a Dafny model of the logic behind the Bridgewater DTC web site. The model covers:

- **Content service.** The site keeps two editable content documents in the browser's `localStorage`. `getSiteContent` and `getDonationContent` lay a stored document over the built-in defaults. They replace arrays whole and merge nested objects one level deep. `saveSiteContent` and `saveDonationContent` write a document back. The `use*Content` hooks read one section each.
- **E-mail service.** The plain-text SEEC notification goes to the committee, the thank-you confirmation goes to the donor, and the recipient list is read from storage. A send reports `{ success, error }`.
- **Pages with logic of their own:**
  - the hero slider (active slides, next and previous modulo the slide count, the dots);
  - the SEEC Individual Contributor Form (its change reducer; submitting sends both e-mails, stores a snapshot and redirects);
  - the thank-you page (restoring that snapshot, the summary block);
  - the volunteer page (form, interests, role lookup, submit);
  - the events page (type filter, colours, upcoming events in date order, the month grid);
  - the fact-check page (published posts, newest first);
  - the vote page (enabled tabs, the one visible panel, upcoming dates, multi-line contacts);
  - the donation-flow test page (its five-step state machine).

How the model is built:

- **Storage.** `localStorage` is the class `BrowserStorage.Storage`. It has one typed slot per key the site uses: `siteContent`, `donationContent`, `donationEmailRecipients`, `lastSEECSubmission` and `testSEECSubmission`. A slot is `Missing`, `Corrupt` (the text does not parse) or `Parsed(value)`.
- **Stored documents.** Each has a "stored" twin type in `SiteStored` and `DonationStored`. Every leaf that may be absent is an `Option`. An absent object level spreads like `{}`, so it is modelled as an object whose keys are all absent.
- **Dates.** Calendar dates are day keys, counted in days since 1970-01-01, in `CivilDates`. The current instant is a parameter in milliseconds.
- **Pages.** A page whose state React updates is a class whose fields are its `useState` variables. Each handler is a method that states the page's whole new state. Most methods are tied to a pure function, and lemmas are proved about that function.

## Model

| member | source | states |
|---|---|---|
| ContentMergeLaws.SiteMergeOfEmpty | src/utils/contentService.ts:1191-1312 | With nothing stored, the merged site content is exactly the defaults. |
| ContentMergeLaws.SiteMergeOfComplete | src/utils/contentService.ts:1191-1312 | A complete document that was saved comes back unchanged from the merge, whatever the defaults. |
| ContentMergeLaws.SiteMergeIdempotent | src/utils/contentService.ts:1191-1312 | Storing a merged document and merging it again changes nothing. |
| ContentMergeLaws.SiteArraysReplacedWhole | src/utils/contentService.ts:1193-1305 | Each of the 27 array fields, `items` lists of titled lists included, is either the stored array verbatim or the default array, never an element-wise mix. |
| ContentMergeLaws.SiteNestedObjectsOverlaid | src/utils/contentService.ts:1193-1217 | The logo, donate button, search box and the two sidebar widgets are merged key by key: each key is stored-or-default on its own. |
| ContentMergeLaws.SiteShallowSectionsReplaceWhole | src/utils/contentService.ts:1218-1287 | A stored hero-slider list, about sub-section or registration sub-block is taken as it is; the defaults for that key are not consulted. |
| ContentMergeLaws.DonationMergeOfEmpty | src/utils/contentService.ts:149-157 | With nothing stored, the merged donation content is exactly the defaults. |
| ContentMergeLaws.DonationMergeOfComplete | src/utils/contentService.ts:149-157 | A complete saved donation document comes back unchanged, whatever the defaults. |
| ContentMergeLaws.DonationMergeIdempotent | src/utils/contentService.ts:149-157 | Merging an already merged donation document again changes nothing. |
| ContentMergeLaws.DonationSubRecordsOverlaid | src/utils/contentService.ts:150-156 | Every key of both e-mail templates is stored-or-default on its own; the mailing address and the next-steps list are stored-or-default as whole values. |
| ContentMergeLaws.DonatePageOverlaid | src/utils/contentService.ts:151 | Each of the 13 keys of the donate page is stored-or-default on its own, the mailing address as a whole value. |
| ContentMergeLaws.ThankYouPageOverlaid | src/utils/contentService.ts:152 | Each of the 8 keys of the thank-you page copy is stored-or-default on its own, the next-steps list as a whole value. |
| ContentMergeLaws.SeecFormContentOverlaid | src/utils/contentService.ts:153 | Each of the 13 keys of the donor form copy is stored-or-default on its own. |
| ContentService.GetSiteContent | src/utils/contentService.ts:1175-1188 | A missing or unparseable key, or a stored document with every key absent, gives the defaults exactly. |
| ContentService.UseHeaderContent | src/utils/contentService.ts:1324 | The `header` section: the default section when nothing parses, otherwise the stored section overlaid on the default one. |
| ContentService.UseFooterContent | src/utils/contentService.ts:1325 | The `footer` section: the default section when nothing parses, otherwise the stored section overlaid on the default one. |
| ContentService.UseSidebarContent | src/utils/contentService.ts:1326 | The `sidebar` section: the default section when nothing parses, otherwise the stored section overlaid on the default one. |
| ContentService.UseHomeContent | src/utils/contentService.ts:1327 | The `home` section: the default section when nothing parses, otherwise the stored section overlaid on the default one. |
| ContentService.UseAboutContent | src/utils/contentService.ts:1328 | The `about` section: the default section when nothing parses, otherwise the stored section overlaid on the default one. |
| ContentService.UseCandidatesContent | src/utils/contentService.ts:1329 | The `candidates` section: the default section when nothing parses, otherwise the stored section overlaid on the default one. |
| ContentService.UseIssuesContent | src/utils/contentService.ts:1330 | The `issues` section: the default section when nothing parses, otherwise the stored section overlaid on the default one. |
| ContentService.UseEndorsementsContent | src/utils/contentService.ts:1331 | The `endorsements` section: the default section when nothing parses, otherwise the stored section overlaid on the default one. |
| ContentService.UseVolunteerContent | src/utils/contentService.ts:1332 | The `volunteer` section: the default section when nothing parses, otherwise the stored section overlaid on the default one. |
| ContentService.UseVoteContent | src/utils/contentService.ts:1333 | The `vote` section: the default section when nothing parses, otherwise the stored section overlaid on the default one. |
| ContentService.UseContactContent | src/utils/contentService.ts:1334 | The `contact` section: the default section when nothing parses, otherwise the stored section overlaid on the default one. |
| ContentService.UseSiteContent | src/utils/contentService.ts:1335 | The default document when nothing parses, otherwise the stored document overlaid on the defaults. |
| ContentService.GetDonationContent | src/utils/contentService.ts:143-164 | A missing or unparseable key, or a stored document with every key absent, gives the defaults exactly. |
| ContentService.UseDonationContent | src/utils/contentService.ts:176-178 | The default donation document when nothing parses, otherwise the stored one overlaid on the defaults. |
| ContentService.GetSiteContentFallback | src/utils/contentService.ts:1175-1188 | A missing or unparseable `siteContent` key yields the defaults exactly. |
| ContentService.SaveSiteContent | src/utils/contentService.ts:1315-1321 | A successful save makes the next `getSiteContent` return the saved document. A failed write is caught and changes nothing. No other key changes. |
| ContentService.HooksAfterSave | src/utils/contentService.ts:1324-1335 | After a save, each of the twelve hooks returns the saved document's section. |
| ContentService.HooksFallback | src/utils/contentService.ts:1324-1335 | With nothing usable stored, each hook returns the default section. |
| ContentService.GetDonationContentFallback | src/utils/contentService.ts:143-164 | A missing or unparseable `donationContent` key makes both `getDonationContent` and `useDonationContent` yield the defaults exactly. |
| ContentService.SaveDonationContent | src/utils/contentService.ts:167-174 | A successful save makes the next `getDonationContent` return the saved document. A failed write is caught and changes nothing. No other key changes. |
| SiteMerge.MergeLogo | src/utils/contentService.ts:1196 | The logo: with nothing stored it is the default, and a complete stored copy comes back unchanged. |
| SiteMerge.MergeDonateButton | src/utils/contentService.ts:1198 | The donate button: with nothing stored it is the default, and a complete stored copy comes back unchanged. |
| SiteMerge.MergeHeaderSection | src/utils/contentService.ts:1193-1199 | The header section: with nothing stored it is the default, and a complete stored copy comes back unchanged. |
| SiteMerge.MergeOurTown | src/utils/contentService.ts:1203 | The footer's "our town" block: with nothing stored it is the default, and a complete stored copy comes back unchanged. |
| SiteMerge.MergeFooterCategories | src/utils/contentService.ts:1204-1208 | The footer categories: with nothing stored it is the default, and a complete stored copy comes back unchanged. |
| SiteMerge.MergeCopyright | src/utils/contentService.ts:1209 | The copyright block: with nothing stored it is the default, and a complete stored copy comes back unchanged. |
| SiteMerge.MergeFooterSection | src/utils/contentService.ts:1200-1210 | The footer section: with nothing stored it is the default, and a complete stored copy comes back unchanged. |
| SiteMerge.MergeSearchBox | src/utils/contentService.ts:1214 | The sidebar search box: with nothing stored it is the default, and a complete stored copy comes back unchanged. |
| SiteMerge.MergeWidget | src/utils/contentService.ts:1215-1216 | The contact and about widgets: with nothing stored it is the default, and a complete stored copy comes back unchanged. |
| SiteMerge.MergeSidebarSection | src/utils/contentService.ts:1211-1217 | The sidebar section: with nothing stored it is the default, and a complete stored copy comes back unchanged. |
| SiteMerge.MergeHomeSection | src/utils/contentService.ts:1218 | The home section: with nothing stored it is the default, and a complete stored copy comes back unchanged. |
| SiteMerge.MergeTitledList | src/utils/contentService.ts:1286 | The election-day reminders and "you have the right" lists: with nothing stored it is the default, and a complete stored copy comes back unchanged. |
| SiteMerge.MergeAboutSections | src/utils/contentService.ts:1222-1225 | The about sub-sections: with nothing stored it is the default, and a complete stored copy comes back unchanged. |
| SiteMerge.MergeAboutSection | src/utils/contentService.ts:1219-1226 | The about section: with nothing stored it is the default, and a complete stored copy comes back unchanged. |
| SiteMerge.MergeCallToAction | src/utils/contentService.ts:1231 | The candidates and issues call to action: with nothing stored it is the default, and a complete stored copy comes back unchanged. |
| SiteMerge.MergeCandidatesSection | src/utils/contentService.ts:1227-1232 | The candidates section: with nothing stored it is the default, and a complete stored copy comes back unchanged. |
| SiteMerge.MergeAccomplishmentsBlock | src/utils/contentService.ts:1237-1241 | The accomplishments block: with nothing stored it is the default, and a complete stored copy comes back unchanged. |
| SiteMerge.MergeFuturePlansBlock | src/utils/contentService.ts:1242-1246 | The future-plans block: with nothing stored it is the default, and a complete stored copy comes back unchanged. |
| SiteMerge.MergeIssuesSections | src/utils/contentService.ts:1236-1247 | The issues sub-sections: with nothing stored it is the default, and a complete stored copy comes back unchanged. |
| SiteMerge.MergeIssuesSection | src/utils/contentService.ts:1233-1249 | The issues section: with nothing stored it is the default, and a complete stored copy comes back unchanged. |
| SiteMerge.MergeEndorsementsSection | src/utils/contentService.ts:1250-1256 | The endorsements section: with nothing stored it is the default, and a complete stored copy comes back unchanged. |
| SiteMerge.MergeVolunteerCallToAction | src/utils/contentService.ts:1262 | The volunteer call to action: with nothing stored it is the default, and a complete stored copy comes back unchanged. |
| SiteMerge.MergeVolunteerSection | src/utils/contentService.ts:1257-1263 | The volunteer section: with nothing stored it is the default, and a complete stored copy comes back unchanged. |
| SiteMerge.MergeRegistrationContent | src/utils/contentService.ts:1271-1274 | The registration text block: with nothing stored it is the default, and a complete stored copy comes back unchanged. |
| SiteMerge.MergeRegistrationTab | src/utils/contentService.ts:1268-1275 | The registration tab: with nothing stored it is the default, and a complete stored copy comes back unchanged. |
| SiteMerge.MergeDistrictLookup | src/utils/contentService.ts:1280 | The district lookup: with nothing stored it is the default, and a complete stored copy comes back unchanged. |
| SiteMerge.MergeLocationsTab | src/utils/contentService.ts:1276-1281 | The locations tab: with nothing stored it is the default, and a complete stored copy comes back unchanged. |
| SiteMerge.MergeDatesTab | src/utils/contentService.ts:1282-1287 | The dates tab: with nothing stored it is the default, and a complete stored copy comes back unchanged. |
| SiteMerge.MergeLearnMore | src/utils/contentService.ts:1292 | The "learn more" block: with nothing stored it is the default, and a complete stored copy comes back unchanged. |
| SiteMerge.MergeCandidatesTab | src/utils/contentService.ts:1288-1293 | The candidates tab: with nothing stored it is the default, and a complete stored copy comes back unchanged. |
| SiteMerge.MergeVoteTabs | src/utils/contentService.ts:1267-1294 | The four vote tabs: with nothing stored it is the default, and a complete stored copy comes back unchanged. |
| SiteMerge.MergeVoteCallToAction | src/utils/contentService.ts:1295 | The vote call to action: with nothing stored it is the default, and a complete stored copy comes back unchanged. |
| SiteMerge.MergeNeedAssistance | src/utils/contentService.ts:1300 | The "need assistance" block: with nothing stored it is the default, and a complete stored copy comes back unchanged. |
| SiteMerge.MergeVotingRights | src/utils/contentService.ts:1296-1301 | The voting-rights block: with nothing stored it is the default, and a complete stored copy comes back unchanged. |
| SiteMerge.MergeVoteSection | src/utils/contentService.ts:1264-1302 | The vote section: with nothing stored it is the default, and a complete stored copy comes back unchanged. |
| SiteMerge.MergeMailingAddress | src/utils/contentService.ts:1306 | The mailing address: with nothing stored it is the default, and a complete stored copy comes back unchanged. |
| SiteMerge.MergeContactForm | src/utils/contentService.ts:1307 | The contact form copy: with nothing stored it is the default, and a complete stored copy comes back unchanged. |
| SiteMerge.MergeOfficeHours | src/utils/contentService.ts:1308 | The office hours: with nothing stored it is the default, and a complete stored copy comes back unchanged. |
| SiteMerge.MergeContactSection | src/utils/contentService.ts:1303-1310 | The contact section: with nothing stored it is the default, and a complete stored copy comes back unchanged. |
| SiteMerge.MergeSiteContent | src/utils/contentService.ts:1191-1312 | The whole site document: with nothing stored it is the default, and a complete stored copy comes back unchanged. |
| DonationMerge.MergeDonatePage | src/utils/contentService.ts:150 | The donate page copy: with nothing stored it is the default, and a complete stored copy comes back unchanged. |
| DonationMerge.MergeThankYouPageContent | src/utils/contentService.ts:151 | The thank-you page copy: with nothing stored it is the default, and a complete stored copy comes back unchanged. |
| DonationMerge.MergeSeecFormContent | src/utils/contentService.ts:152 | The SEEC form copy: with nothing stored it is the default, and a complete stored copy comes back unchanged. |
| DonationMerge.MergeAdminNotificationTemplate | src/utils/contentService.ts:154 | The admin notification template: with nothing stored it is the default, and a complete stored copy comes back unchanged. |
| DonationMerge.MergeDonorConfirmationTemplate | src/utils/contentService.ts:155 | The donor confirmation template: with nothing stored it is the default, and a complete stored copy comes back unchanged. |
| DonationMerge.MergeEmailTemplates | src/utils/contentService.ts:153-156 | The pair of e-mail templates: with nothing stored it is the default, and a complete stored copy comes back unchanged. |
| DonationMerge.MergeDonationContent | src/utils/contentService.ts:149-157 | The whole donation document: with nothing stored it is the default, and a complete stored copy comes back unchanged. |
| BrowserStorage.Storage.constructor | src/utils/contentService.ts:1177 | An empty storage: every key used by the site is absent. |
| Wrappers.Overlay | src/utils/contentService.ts:1191-1312 | A spread key is the stored value when present and the default otherwise. |
| EmailService.FormatSeecEmailContent | src/utils/emailService.ts:46-86 | The notification text is trimmed: when not empty, it neither starts nor ends with white space. |
| EmailService.AdminNotificationLines | src/utils/emailService.ts:46-86 | The notification has exactly 34 lines. |
| EmailService.AdminNotificationFrame | src/utils/emailService.ts:50-85 | The notification opens with the template header and closes with a `--` line and then the template footer. |
| EmailService.AdminNotificationLineContents | src/utils/emailService.ts:52-75 | The intro line is the template's intro text and the data-header line is the template's data header followed by `:`. The name line is first, initial, `. `, last. The amount line reads `$` plus the amount. The under-18 line reads Yes exactly when the box is checked. The branches are joined with `, `. |
| EmailService.AdminNotificationEnds | src/utils/emailService.ts:50-85 | After `trim()`, the text is the lines joined with line breaks. It starts with the header and ends with `--`, a line break and the footer. |
| EmailService.AdminNotificationLayout | src/utils/emailService.ts:46-86 | When neither the template keys nor the form fields contain a line break, splitting the e-mail at line breaks gives back exactly its 34 lines. |
| EmailService.DefaultAdminTemplateUnpadded | src/utils/contentService.ts:124-127 | The default header starts, and the default footer ends, with a printing character. |
| EmailService.DefaultAdminHeaderOneLine | src/utils/contentService.ts:124-125 | The default header and intro text are single lines. |
| EmailService.DefaultAdminFooterOneLine | src/utils/contentService.ts:126-127 | The default data header and footer are single lines. |
| EmailService.DataHeaderLine | src/utils/emailService.ts:55 | The notification has 34 lines, and its fifth is the template's data header followed by `:`. |
| EmailService.DataHeaderColonLine | src/utils/emailService.ts:46-86 | When the template is unpadded and nothing holds a line break, the fifth line of the sent text, split at line breaks, is the data header followed by `:`. |
| EmailService.DefaultDataHeaderColon | src/utils/contentService.ts:126 | The default data header already ends in a colon. |
| EmailService.DefaultAdminDoubledColon | src/utils/emailService.ts:55 | With the default template, the data-header line ends in `::`: the template's own colon plus the one the e-mail adds. |
| EmailService.JoinOneLine | src/utils/emailService.ts:75 | Joining single-line items with a single-line separator gives a single line. |
| EmailService.TrimmedLayout | src/utils/emailService.ts:50-85 | A template literal that starts with a line break and ends in indentation, once trimmed, is its lines joined with line breaks. |
| EmailService.ContributorOneLine | src/utils/emailService.ts:57-61 | The contributor and employment lines are single lines when the form fields are. |
| EmailService.AmountOneLine | src/utils/emailService.ts:63-66 | The amount, under-18 and age lines are single lines when the form fields are. |
| EmailService.DisclosureOneLine | src/utils/emailService.ts:68-79 | The disclosure lines are single lines when the form fields, and each selected branch, are. |
| EmailService.IntroAndClosingOneLine | src/utils/emailService.ts:51-55 | The intro and closing blocks are single lines when the template keys and the signature are. |
| EmailService.AdminNotificationLinesOneLine | src/utils/emailService.ts:46-86 | Every one of the 34 lines is a single line when the template keys and the form fields are. |
| EmailService.Greeting | src/utils/emailService.ts:166-167 | A greeting template without `{donor_name}` is sent as it is. |
| EmailService.MainMessage | src/utils/emailService.ts:168 | A main message without `{donation_amount}` is sent as it is. |
| EmailService.GreetingReplacesFirstOnly | src/utils/emailService.ts:166-167 | Only the first `{donor_name}` of the greeting is replaced by the donor's name; any later occurrence stays. |
| EmailService.MainMessageReplacesFirstOnly | src/utils/emailService.ts:168 | Only the first `{donation_amount}` of the main message is replaced by the amount's decimal text. |
| EmailService.MainMessageWithoutPlaceholder | src/utils/emailService.ts:168 | A main message without the placeholder is sent as it is. |
| EmailService.DefaultGreeting | src/utils/contentService.ts:131 | The default greeting reads `Dear `, then the donor's first and last name, then a comma. |
| EmailService.DefaultMainMessageParts | src/utils/contentService.ts:132 | The default main message is its text up to `$`, the placeholder, then the rest. |
| EmailService.DefaultMainMessage | src/utils/emailService.ts:168 | With the default template the amount comes right after the `$`. |
| EmailService.DefaultMainMessageOf100 | src/utils/emailService.ts:168 | A donation of 100 reads `$100` in the default main message. |
| EmailService.FormatDonorConfirmation | src/utils/emailService.ts:170-189 | The confirmation text is trimmed: when not empty, it neither starts nor ends with white space. |
| EmailService.DonorConfirmationLines | src/utils/emailService.ts:170-189 | The confirmation is laid out in 18 template slots: greeting, message, summary header, amount, method, date, support, contact, closing, `--` and footer, with blank slots between. |
| EmailService.DonorConfirmationFrame | src/utils/emailService.ts:170-189 | The confirmation opens with the greeting and closes with a `--` line and then the footer. |
| EmailService.DonorConfirmationEnds | src/utils/emailService.ts:170-189 | After `trim()`, the text is the lines joined with line breaks. It starts with the greeting and ends with `--`, a line break and the footer. |
| EmailService.DonorConfirmationLayout | src/utils/emailService.ts:170-189 | When no slot holds a line break, the text sent splits at its line breaks into exactly the 18 slot lines. |
| EmailService.DonorConfirmationTwoLineClosing | src/utils/emailService.ts:170-189 | A closing of two lines adds a line: the text splits into 19 lines, the closing's halves in place of the closing. |
| EmailService.DefaultClosingTwoLines | src/utils/contentService.ts:136 | The default closing is "Best regards," and the committee's name on two lines, so the default confirmation has 19 lines when the other slots are single lines. |
| EmailService.GetEmailRecipients | src/utils/emailService.ts:137-156 | A parseable stored list is returned as it is. A missing or corrupt one gives the treasurer and admin addresses. |
| EmailService.SendOutcome | src/utils/emailService.ts:89-134 | A send succeeds exactly when nothing is thrown, and then carries no error. A thrown `Error` gives its message. Any other thrown value gives "Unknown error". |
| EmailService.SeecEmailContent | src/utils/emailService.ts:46-86 | Without a usable stored donation document, the notification is composed from the default template. |
| EmailService.SeecEmailDataHeader | src/utils/emailService.ts:46-55 | The data-header line the site sends is the stored template's `dataHeader` when stored, otherwise the default, followed by `:`. |
| EmailService.SeecEmailFallbackDoubledColon | src/utils/emailService.ts:46-55 | Without a stored donation document, the data-header line the site sends ends in `::`. |
| EmailService.DonorMessageFallback | src/utils/emailService.ts:163-168 | Without a stored donation document, the donor is thanked for `$` and the amount's text in the default wording. |
| JsStrings.IntToString | src/utils/emailService.ts:168 | `toString()` of an integer: non-empty, a sign exactly for negatives, digits otherwise. |
| JsNumbers.Reduce | src/pages/SEECForm.tsx:92 | A value is brought to lowest terms without changing it: the scale only shrinks and the units scale back to the original. |
| JsNumbers.Negate | src/pages/SEECForm.tsx:92 | Unary minus flips the sign of the units and keeps the scale, staying in lowest terms. |
| JsNumbers.ExponentAt | src/pages/SEECForm.tsx:92 | The exponent marker is the first `e` or `E` of the text; none occurs before it. |
| JsNumbers.NumberValue | src/pages/SEECForm.tsx:92 | `Number(text)` of blank text is 0. |
| JsNumbers.NumberText | src/utils/emailService.ts:168 | `toString()` of a number is non-empty and holds only digits, `.` and `-`; for an integer it is its decimal text. |
| JsNumbers.NumberTextPlain | src/utils/emailService.ts:63 | The text of an amount never contains a line break or a `$`. |
| JsNumbers.UnsignedValueOfMagnitude | src/pages/SEECForm.tsx:92 | Reading back the unsigned digits of a magnitude in lowest terms gives that magnitude. |
| JsNumbers.NumberValueOfNumberText | src/pages/SEECForm.tsx:92 | `Number(x.toString())` is `x` for every number, fractions and negatives included. |
| JsNumbers.NumberValueOfIntToString | src/pages/SEECForm.tsx:92 | `Number` of the decimal text of an integer gives that integer back. |
| JsNumbers.AmountTexts | src/pages/SEECForm.tsx:92 | `Number("25.5")` and `Number("25.50")` are 25.5, `Number("1e1")` is 10 and `Number("")` is 0. |
| JsStrings.DigitsValueOfNatToString | src/utils/emailService.ts:63 | The decimal text of a natural number reads back as that number. |
| JsStrings.Split | src/pages/Vote.tsx:141 | `split` gives at least one piece, and no piece contains the separator. |
| JsStrings.JoinSplit | src/pages/Vote.tsx:141 | Joining the pieces of a split with the separator gives back the original text. |
| JsStrings.SplitJoin | src/pages/Vote.tsx:141 | Splitting pieces that were joined, none of which contains the separator, gives back exactly those pieces. |
| JsStrings.Trim | src/utils/emailService.ts:85 | `trim()` removes the longest white-space prefix and suffix and keeps the middle; the result is empty exactly when the text is all white space. |
| JsStrings.TrimOfPadded | src/utils/emailService.ts:85 | Trimming white space around a core that has printing ends gives back the core. |
| JsStrings.IndexOf | src/utils/emailService.ts:167 | The first occurrence of a pattern, or none when it never occurs. |
| JsStrings.ReplaceFirst | src/utils/emailService.ts:167-168 | `replace` with a string pattern that does not occur returns the text unchanged. |
| JsStrings.ReplaceFirstAt | src/utils/emailService.ts:167-168 | With a first occurrence after `before`, and a replacement without `$`, only that occurrence is replaced. |
| JsStrings.SubstitutionLiteral | src/utils/emailService.ts:167-168 | A replacement text without `$` is inserted literally. |
| HeroSlider.ActiveSlides | src/components/HeroSlider.tsx:9 | The slides shown are active slides of the content, and every active slide is shown. |
| HeroSlider.ActiveSlidesCount | src/components/HeroSlider.tsx:9 | Each active slide appears as often as in the content, each inactive one never. |
| HeroSlider.ActiveSlidesKeepOrder | src/components/HeroSlider.tsx:9 | The filter preserves the content's order. |
| HeroSlider.NothingRenderedWithoutActive | src/components/HeroSlider.tsx:26-28 | The component renders nothing exactly when no slide is active. |
| HeroSlider.DefaultSlidesShown | src/utils/contentService.ts:621-657 | The five default slides are all active, so all five are shown in order. |
| HeroSlider.NextIndex | src/components/HeroSlider.tsx:11-13 | Next moves one slide on and wraps from the last slide to the first. |
| HeroSlider.PrevIndex | src/components/HeroSlider.tsx:15-17 | Previous moves one slide back and wraps from the first slide to the last. |
| HeroSlider.PrevUndoesNext | src/components/HeroSlider.tsx:11-17 | Previous after next, and next after previous, return to the same slide. |
| HeroSlider.AdvanceIsModular | src/components/HeroSlider.tsx:11-23 | `k` auto-advances from slide `i` land on `(i + k) mod n`. |
| HeroSlider.FullCycle | src/components/HeroSlider.tsx:11-23 | `n` advances return to the start, and no fewer do. |
| HeroSlider.ModSuccessor | src/components/HeroSlider.tsx:12 | The remainder of a successor is the successor of the remainder, wrapping at `n`. |
| HeroSlider.Opacities | src/components/HeroSlider.tsx:37-38 | Exactly the current slide is opaque; every other slide is transparent. |
| HeroSlider.Slider.constructor | src/components/HeroSlider.tsx:5-9 | The slider starts on slide 0 of the active slides. |
| HeroSlider.Slider.Next | src/components/HeroSlider.tsx:11-13 | `nextSlide` sets the current slide to its successor and keeps it in range. |
| HeroSlider.Slider.Prev | src/components/HeroSlider.tsx:15-17 | `prevSlide` sets the current slide to its predecessor and keeps it in range. |
| HeroSlider.Slider.GoTo | src/components/HeroSlider.tsx:84-89 | A click on dot `k` shows slide `k`. |
| SeecForm.SetText | src/pages/SEECForm.tsx:90-93 | A text input sets its own field and leaves every other field unchanged. |
| SeecForm.ApplyChange | src/pages/SEECForm.tsx:60-95 | A checked branch is appended and an unchecked one is removed everywhere. The under-18 box takes its checked state, the amount takes `Number(value)` of any text the number input holds, fractions and exponents included, and a text input takes its text. Every other field is unchanged. |
| SeecForm.AmountTyped | src/pages/SEECForm.tsx:90-93 | Typing a text into the amount sets the amount to `Number` of that text. |
| SeecForm.WholeAmountTyped | src/pages/SEECForm.tsx:90-93 | Typing an integer's decimal text sets the amount to that integer. |
| SeecForm.FractionalAmountKept | src/pages/SEECForm.tsx:90-93 | Typing `25.5` or `25.50` stores 25.5, which fails the amount's constraints; typing `1e1` stores 10. |
| SeecForm.ValidDonationWhole | src/pages/SEECForm.tsx:232-234 | An amount meets `min`, `max` and `step` exactly when it is a whole multiple of 5 from 5 to 2000. |
| SeecForm.BranchCheckUncheck | src/pages/SEECForm.tsx:64-77 | Checking a branch that is not listed and then unchecking it restores the record. |
| SeecForm.TextChangeOverwrites | src/pages/SEECForm.tsx:90-93 | Typing into a text field twice keeps only the second value. |
| SeecForm.InitialRecord | src/pages/SEECForm.tsx:32-56 | The form starts with an amount of 5, empty texts, no branch and an unchecked under-18 box. |
| SeecRecord.ValidDonation | src/pages/SEECForm.tsx:232-234 | An amount the number input accepts: integral, from 5 to 2000, in steps of 5 from 5. |
| SeecForm.SeecFormPage.constructor | src/pages/SEECForm.tsx:32-58 | The page starts with the initial record, not submitting and with no message. |
| SeecForm.SeecFormPage.HandleInputChange | src/pages/SEECForm.tsx:60-95 | One change event updates the record as `ApplyChange` says, and nothing else on the page. |
| SeecForm.SeecFormPage.HandleSubmit | src/pages/SEECForm.tsx:97-134 | The admin notification, then the donor confirmation, are attempted, and neither failure stops the flow. The snapshot stores both success flags and the page redirects to `/thankyou`. Only a failing storage write shows the error message and ends submitting. Other storage keys are unchanged. |
| ThankYou.SummaryLines | src/pages/ThankYou.tsx:68-76 | The summary renders exactly when `donationInfo` is set, as four lines ending with the PayPal method. |
| ThankYou.SummaryShowsSubmittedAmount | src/pages/ThankYou.tsx:21-26 | The summary shows the submitted donor's name and donation whatever the return query holds; the `amount` parameter does not change the amount shown. |
| ThankYou.DemoSummary | src/pages/ThankYou.tsx:30-41 | Without a stored submission the summary reads "Demo Donor", demo@example.com and $100. |
| ThankYou.ThankYouPage.constructor | src/pages/ThankYou.tsx:7 | `donationInfo` starts unset. |
| ThankYou.ThankYouPage.RestoreSubmission | src/pages/ThankYou.tsx:10-42 | A parsed snapshot gives its form record with the three query values. A corrupt one leaves the state unchanged. A missing one gives the demo record. |
| ThankYou.MountThankYouPage | src/pages/ThankYou.tsx:7-76 | On a fresh page the summary renders exactly when the stored snapshot is not corrupt, and it shows the snapshot's donor and amount. |
| Volunteer.ApplyInput | src/pages/Volunteer.tsx:96-102 | The named field takes the checkbox state or the text; every other field, interests included, is unchanged. |
| Volunteer.ToggleInterest | src/pages/Volunteer.tsx:104-111 | A chosen interest is removed everywhere, any other is appended. Its membership flips and no other interest's membership changes. |
| Volunteer.ToggleTwice | src/pages/Volunteer.tsx:104-111 | Toggling an unchosen interest twice restores the list. |
| Volunteer.ToggleKeepsOthers | src/pages/Volunteer.tsx:104-111 | A toggle leaves the other interests, and their order, as they were. |
| Volunteer.SelectedRoleData | src/pages/Volunteer.tsx:147 | With no role selected nothing is found. A found role has the selected id. When nothing is found, no role has that id. |
| Volunteer.SelectedRoleIsFirst | src/pages/Volunteer.tsx:147 | `find` returns the first role with the selected id. |
| Volunteer.HardCodedIds | src/pages/Volunteer.tsx:26-94 | The page's six role ids, in order. |
| Volunteer.CampaignLookup | src/pages/Volunteer.tsx:26-147 | "campaign" finds the first hard-coded role. |
| Volunteer.CommunityLookup | src/pages/Volunteer.tsx:26-147 | "community" finds the last hard-coded role. |
| Volunteer.PhoneBankingLookup | src/utils/contentService.ts:886 | The default content's "phone-banking" opportunity matches no hard-coded role, so no details are found. |
| Volunteer.SubmittedThanksHidden | src/pages/Volunteer.tsx:117-145 | As written, with no role selected the thank-you banner does not render; it renders only while a role is selected. |
| Volunteer.SubmittedThanksShownAbove | src/pages/Volunteer.tsx:117-145 | With the banner placed outside the role branch, the thank-you message shows after a submit. |
| Volunteer.VolunteerPage.constructor | src/pages/Volunteer.tsx:6-24 | Empty form, no role, not submitting, no message. |
| Volunteer.VolunteerPage.HandleInputChange | src/pages/Volunteer.tsx:96-102 | The form changes as `ApplyInput` says; nothing else changes. |
| Volunteer.VolunteerPage.HandleInterestChange | src/pages/Volunteer.tsx:104-111 | Only the interests change, as `ToggleInterest` says. |
| Volunteer.VolunteerPage.HandleRoleSelect | src/pages/Volunteer.tsx:113-115 | The clicked role becomes the selected one; nothing else changes. |
| Volunteer.VolunteerPage.BackToRoles | src/pages/Volunteer.tsx:231 | The selection is cleared, so the role list shows again. |
| Volunteer.VolunteerPage.HandleSubmit | src/pages/Volunteer.tsx:117-145 | After submitting, the thank-you message is set but not shown, because clearing the role replaces the form, and its message banner, with the role list. The form is empty, no role is selected and the page is not submitting. |
| Events.FilteredEvents | src/pages/Events.tsx:125-127 | "All" keeps the list. Any other type keeps exactly the events of that type, each as often as in the list. |
| Events.FilteredEventsKeepOrder | src/pages/Events.tsx:125-127 | The type filter preserves the list order. |
| Events.TypeColor | src/pages/Events.tsx:147-157 | The five known types get their colours and any other type gets grey. |
| Events.UpcomingEvents | src/pages/Events.tsx:158-164 | The upcoming list holds exactly the events on or after now, each as often as in the list, in ascending date order. |
| Events.UpcomingSameDayInListOrder | src/pages/Events.tsx:162-164 | Upcoming events of the same day keep their list order: the sort is stable. |
| Events.NoUpcomingMessage | src/pages/Events.tsx:227-230 | The "no upcoming events" message shows exactly when no filtered event lies ahead. |
| Events.CellOf | src/pages/Events.tsx:327-329 | A cell's events are exactly the upcoming events on its day. |
| Events.CellDay | src/pages/Events.tsx:325 | `new Date(year, month, i - 6)` falls `i - 7` days after the 1st of the month. |
| Events.CalendarCells | src/pages/Events.tsx:324-329 | There are 35 cells. Cell `i` is day `i - 6` of the month and is in the month exactly when `i >= 7`. It holds exactly the upcoming events of its day. |
| Events.CalendarShowsOnlyFirst28Days | src/pages/Events.tsx:324-329 | As written, day `d` has a cell exactly when -6 <= d <= 28. |
| Events.CalendarMissesEndOfMarch | src/pages/Events.tsx:324-329 | As written, the grid for March 2024 has no cell for the 31st. |
| Events.WeekGrid | src/pages/Events.tsx:317-329 | A six-week grid starting on the Sunday on or before the 1st. Each cell holds exactly the upcoming events of its day and is in the month exactly for days 1 to the month's length. |
| Events.WeekGridColumns | src/pages/Events.tsx:317 | Every column of the week grid lies under its weekday header, Sunday first. |
| Events.WeekGridCoversMonth | src/pages/Events.tsx:317-329 | Every day of the month has a cell in the week grid, marked as in the month. |
| Events.AlignedCalendarCells | src/pages/Events.tsx:317-329 | The corrected grid: 42 cells, each under the header of its weekday. |
| Events.AlignedCalendarCoversMonth | src/pages/Events.tsx:317-329 | In the corrected grid every day of the month, the 29th to the 31st included, has a cell in the month holding exactly that day's upcoming events. |
| FactCheck.FactCheckPosts | src/pages/FactCheck.tsx:46-49 | Only published posts are kept, each as often as in the list, with dates never increasing. |
| FactCheck.SameDayInListOrder | src/pages/FactCheck.tsx:46-49 | Posts of the same date keep their list order. |
| FactCheck.BuiltInPublished | src/pages/FactCheck.tsx:16-44 | Post 2 is the page's only unpublished post. |
| FactCheck.BuiltInDates | src/pages/FactCheck.tsx:16-44 | Post 3 is five days newer than post 1. |
| FactCheck.BuiltInPostsOrder | src/pages/FactCheck.tsx:16-49 | The page shows post 3, then post 1. |
| FactCheck.NewerFirst | src/pages/FactCheck.tsx:46-49 | Two posts listed older first are shown newer first. |
| Vote.Position | src/utils/contentService.ts:394-496 | Every tab key has a position in the declared key order. |
| Vote.KeyNameInjective | src/pages/Vote.tsx:48 | Distinct tabs have distinct key names. |
| Vote.KeyNamesDistinct | src/pages/Vote.tsx:48 | No two tabs share a key name. |
| Vote.TabOrderIncreasing | src/pages/Vote.tsx:24 | The declared key order is strictly increasing in position. |
| Vote.KeyFilter | src/pages/Vote.tsx:24 | Filtering the keys keeps exactly the keys that pass, in key order. |
| Vote.EnabledTabs | src/pages/Vote.tsx:24 | A tab has a button exactly when it is enabled, once, in key order. |
| Vote.EnabledFilter | src/pages/Vote.tsx:24 | Filtering the key order by enablement keeps a tab exactly when it is enabled, in key order. |
| Vote.AllEnabledTabs | src/pages/Vote.tsx:24 | With every tab enabled, all four appear in key order. |
| Vote.DefaultTabsEnabled | src/utils/contentService.ts:919-1058 | The default content shows all four tab buttons. |
| Vote.TabButtons | src/pages/Vote.tsx:43-55 | There is one button per enabled tab, with its label. A button is highlighted exactly when `selectedTab` names its tab. |
| Vote.OneHighlightedButton | src/pages/Vote.tsx:43-55 | At most one button is highlighted. |
| Vote.VisiblePanels | src/pages/Vote.tsx:60-292 | A panel renders exactly when its tab is selected and enabled, so at most one panel renders. |
| Vote.DisabledTabShowsNoPanel | src/pages/Vote.tsx:60-292 | A disabled tab's panel never renders, even when selected. |
| Vote.ClickShowsItsPanel | src/pages/Vote.tsx:43-292 | Clicking an enabled tab shows its panel and no other. |
| Vote.InitialPanel | src/pages/Vote.tsx:6 | At first the registration panel shows if registration is enabled; otherwise no panel shows. |
| Vote.UpcomingFlags | src/pages/Vote.tsx:250 | Each important date is marked upcoming exactly when `isUpcoming` holds for it. |
| Vote.IsoDateUpcoming | src/pages/Vote.tsx:19-21 | An ISO date is upcoming exactly when its midnight (UTC) is at or after now. |
| Vote.UpcomingMonotone | src/pages/Vote.tsx:19-21 | A date that is upcoming at a later instant was upcoming at every earlier instant. |
| Vote.UnparseableNeverUpcoming | src/pages/Vote.tsx:19-21 | A text that does not parse as a date is never upcoming. |
| Vote.ElectionDayUpcoming | src/utils/contentService.ts:1041 | The default election day is upcoming until its midnight (UTC) has passed. |
| Vote.ElectionDayParses | src/utils/contentService.ts:1041 | The default election date text parses to the day key of 5 November 2024. |
| Vote.ContactLines | src/pages/Vote.tsx:141 | A contact value is shown as at least one line. No line contains a line break, and the lines join back to the value. |
| Vote.SingleLineContact | src/pages/Vote.tsx:141 | A value without a line break is shown as one line. |
| Vote.ContactLinesOfJoin | src/pages/Vote.tsx:141 | Lines without line breaks, once joined, are shown as exactly those lines. |
| Vote.TwoLineContact | src/utils/contentService.ts:960-964 | A value with one line break, such as the default help contact, is shown as its two lines. |
| DonationTest.TestFormDataValid | src/pages/DonationTest.tsx:42-65 | The test record's $100 meets the form's amount constraints. |
| DonationTest.AfterFormTest | src/pages/DonationTest.tsx:74-83 | The form test records a successful result and moves to step 4, keeping the e-mail result. |
| DonationTest.AfterEmailTest | src/pages/DonationTest.tsx:86-126 | Without a form result: the "No test form data available" error, and the step is unchanged. Otherwise: both flags and the recipients, and step 5. The form result is kept either way. |
| DonationTest.AfterOpenPage | src/pages/DonationTest.tsx:182-184 | Open Page on step 1 or 2 moves to the next step; on step 5 it changes nothing. |
| DonationTest.AfterReset | src/pages/DonationTest.tsx:128-133 | Reset returns to step 1 with no results. |
| DonationTest.TransitionsKeepReachable | src/pages/DonationTest.tsx:40-184 | Every handler keeps the state invariant: step 1 to 5, step 4 or later only with a form result, step 5 only after a completed e-mail run. |
| DonationTest.EmailFailureKeepsStep | src/pages/DonationTest.tsx:86-94 | A failed e-mail run changes only the e-mail result. |
| DonationTest.EmailTestNeedsFormTest | src/pages/DonationTest.tsx:86-126 | The e-mail test completes after a form test and fails after a reset. |
| DonationTest.StepStatuses | src/pages/DonationTest.tsx:153-172 | Five rows in order: done steps, then the current one, then pending ones. A row is done exactly when it comes before the current step. |
| DonationTest.HappyPath | src/pages/DonationTest.tsx:40-184 | Open, open, form test, e-mail test: the page ends on step 5 with both results, every earlier row done. |
| DonationTest.DonationTestPage.constructor | src/pages/DonationTest.tsx:4-5 | Step 1, no results. |
| DonationTest.DonationTestPage.RunFormTest | src/pages/DonationTest.tsx:40-84 | The test record is stored in test mode under `testSEECSubmission`, and the state moves as `AfterFormTest` says. A failing write throws before anything changes: the stored record and the page state stay as they were. |
| DonationTest.DonationTestPage.RunEmailTest | src/pages/DonationTest.tsx:86-126 | With a form result, the notification and then the confirmation are sent for the test record, and the state moves as `AfterEmailTest` says. Without one, nothing is sent. |
| DonationTest.DonationTestPage.ResetTest | src/pages/DonationTest.tsx:128-133 | Step 1, no results, and both submission keys removed. |
| DonationTest.DonationTestPage.OpenPage | src/pages/DonationTest.tsx:182-184 | The state moves as `AfterOpenPage` says. |
| CivilDates.DayKey | src/pages/Events.tsx:325 | Day keys count days from 1970-01-01, which has key 0. |
| CivilDates.DayKeyNextDay | src/pages/Events.tsx:325 | Consecutive days of a month have consecutive keys. |
| CivilDates.DayKeyMonthEnd | src/pages/Events.tsx:325 | The day after a month's last day is the next month's first, across February 29 and the new year. |
| CivilDates.FebruaryEnd | src/pages/Events.tsx:325 | The day after February's last day, 28th or 29th, is March 1. |
| CivilDates.DecemberEnd | src/pages/Events.tsx:325 | The day after December 31 is January 1 of the next year. |
| CivilDates.MarchFirstNext | src/pages/Events.tsx:325 | March 1 comes 366 days after the previous March 1 when the year has a February 29, and 365 otherwise. |
| CivilDates.DayKeyShift | src/pages/Events.tsx:325 | A day number outside the month counts on from the month's first day, as `new Date(y, m, d)` does. |
| CivilDates.ParseIsoDateOfIsoDate | src/pages/Vote.tsx:20 | Parsing the ISO text of a date gives that date's day key. |
| CivilDates.PadDigitsOfYear | src/pages/Vote.tsx:20 | A year below 10000 reads back from its four zero-padded digits. |
| CivilDates.ParseIsoDate | src/pages/Vote.tsx:20 | Only a ten-character `YYYY-MM-DD` text parses to a day. |
| CivilDates.IsUpcoming | src/pages/Vote.tsx:19-21 | A day is upcoming exactly when it is at or after the first day whose midnight is not before now. |
| CivilDates.IsUpcomingText | src/pages/Vote.tsx:19-21 | Only a text that parses as a date can be upcoming. |
| CivilDates.Weekday | src/pages/Events.tsx:317 | A weekday is between 0 and 6, Sunday being 0. |
| Seqs.FilterCount | src/pages/Events.tsx:125-127 | `filter` keeps each passing element as often as it occurs and drops the rest. |
| Seqs.FilterAppend | src/pages/Events.tsx:125-127 | `filter` preserves order. |
| Seqs.FilterKeepsOrder | src/pages/Vote.tsx:24 | Filtering a list that is strictly increasing in some key keeps it strictly increasing. |
| Seqs.SortBy | src/pages/Events.tsx:162-164 | Sorting gives an ordered permutation of its input. |
| Seqs.SortByStable | src/pages/Events.tsx:162-164 | Sorting keeps the relative order of equal keys. |
| Seqs.RemoveAll | src/pages/SEECForm.tsx:75 | The removed value no longer occurs, and every other element is kept. |
| Seqs.RemoveAppended | src/pages/Volunteer.tsx:104-111 | Removing a value just appended, which was not there before, gives back the list. |
| Seqs.Find | src/pages/Volunteer.tsx:147 | `find` returns an element that passes, or none when no element passes. |
| Seqs.FindFirst | src/pages/Volunteer.tsx:147 | `find` returns the first element that passes. |

## Left out

- Timers are not modelled: the hero slider's 5-second auto-advance, the volunteer form's 1.5-second delay and the 7-second clearing of its message, and React's asynchronous, batched state updates. An auto-advance is modelled as one call of `Slider.Next`, and the volunteer submit as its state after the delay.
- JSON text is not modelled; a slot holds the parsed value. Empty text is falsy, so for every key it behaves like a missing key. A stored `null` differs by key:
  - under `siteContent` or `donationContent`, reading a section of `null` throws inside the `try`, so the defaults are returned, which is the `Corrupt` case;
  - under `lastSEECSubmission`, reading `formData` of `null` throws, so `donationInfo` stays unset, which is the `Corrupt` case too;
  - under `donationEmailRecipients`, see `EmailService.GetEmailRecipients` below.
- Stored values are assumed to have the shape the site writes. A stored `null` on a spread key is not modelled.
- EmailService.GetEmailRecipients: a stored `null`, or any other parseable value that is not a list, is returned as it is by the source. The model's slot holds only a list of addresses, so that case is not modelled.
- EmailService.SendOutcome: what a send throws is a parameter. The source's sends are simulated and log only, so only composing the text could throw, which the model's typed inputs cannot cause. The parameter stands for a real delivery service's failures.
- `ContentService.SaveSiteContent` and `ContentService.SaveDonationContent` model the quota failure as a `writeFails` parameter, and do not model the `console.error` on failure.
- `DonationTest.DonationTestPage.RunFormTest` models the failing `setItem` as a `writeFails` parameter; the uncaught exception itself, which React reports, is not modelled.
- EmailJS, the dynamic `import()` of the e-mail module, and the `EMAIL_CONFIG` keys are not part of this model. The e-mail functions only compose text. What a send throws is a parameter (`Fault`).
- The `new Date().toISOString()` time stamps and the browser's `toLocaleDateString` texts (the confirmation's date line, the thank-you date line, formatted event and vote dates) are parameters or left out, because they depend on the clock and the locale.
- Dates are in UTC. `new Date("YYYY-MM-DD")` is UTC midnight, and the model's "upcoming" compares that instant with now. The calendar's `toDateString` comparison, which uses the local time zone, is modelled as equality of day keys. Vote date texts that are not ten-character ISO dates are treated as invalid dates, so they are never upcoming.
- `HeroSlider.NextIndex` and `HeroSlider.PrevIndex` require at least one slide. With no active slide the component renders nothing, and `x % 0` would be `NaN`.
- `SeecForm.SeecFormPage.HandleSubmit` requires an amount that meets the input's `min`, `max` and `step`, which the browser's form validation enforces before the submit handler runs. Redirecting through `window.location` is recorded as a `Redirect` step.
- `SeecForm.ApplyChange` covers only change events whose input type matches the field (`WellTyped`), as the page's controls produce them. The number input's value is empty or a valid floating-point literal, which `JsNumbers.NumberValue` reads exactly, fractions and exponents included.
- JsNumbers.NumberValue: numbers are exact decimals, so double rounding, overflow to `Infinity` and negative zero are not modelled. `Infinity` and hexadecimal, octal and binary texts, which a number input never holds, read as `None`.
- JsNumbers.NumberText: the exponent notation `toString()` uses from 1e21 up and below 1e-6 is not modelled; every number is written out in positional notation.
- `Volunteer.VolunteerPage.HandleSubmit` does not model the intermediate `isSubmitting` true phase, which lasts only during the delay.
- `DonationTest.DonationTestPage.RunEmailTest` models `Date` stamps as parameters. The page's "Open Page" opens a new window, which is not modelled.
- `ThankYou.SummaryLines` does not include the date line, which is locale-formatted from the clock. The page title, subtitle and next-steps copy come from content and are presentation only.
- FactCheck post excerpts and bodies, event descriptions as shown, and all markup and styling are presentation only. Contact.tsx and the other purely presentational pages and components are not part of this model.
- Each content section's shape is modelled, but its copy text is shown only through the default-content constants. The admin editing screens are not part of this model.

## Findings

| source | as written | input that shows it | evidently intended | confidence | as-written member | corrected member |
|---|---|---|---|---|---|---|
| src/pages/Events.tsx:324-329 | Cell `i` of the 35 shows day `i - 6` of the selected month, so the grid runs from seven days before the 1st to the 28th; days 29 to 31 never get a cell, and the columns ignore the weekday the month starts on. | March 2024: day 31 (and 29, 30) has no cell, so events on those days never appear in the calendar view. | A grid aligned to the Sun–Sat header whose cells cover every day of the month. | not executed | Events.CalendarShowsOnlyFirst28Days, Events.CalendarMissesEndOfMarch | Events.AlignedCalendarCoversMonth |
| src/pages/Volunteer.tsx:117-145 | `handleSubmit` sets the thank-you message and clears `selectedRole`. The message banner (line 294) sits inside the application form, which renders only while a role is selected (line 162), so the role list replaces it. | Any successful submission: the thanks is never seen unless the visitor picks a role again within the 7 seconds before it is cleared. | The thank-you message visible after submitting, with the banner above the role list and the form. | not executed | Volunteer.SubmittedThanksHidden | Volunteer.SubmittedThanksShownAbove |

# Property investor hub: a Dafny model of the site's logic

The site is the marketing front end of a commercial real-estate brokerage that sells
pre-leased properties. Almost all of it is layout and animation. This project models
the parts that compute something or keep state:

- **Property detail page.** It looks a property up by its route id and falls back to the
  first record. The image gallery's index wraps around the image list. The ROI
  calculator derives five amounts from three sliders: annual rent, rental income over
  the holding period, 5 % straight-line appreciation, total returns and final value.
  The currency display picks a crore, lakh or plain form.
- **Testimonial carousel.** Its state is a current index and a slide direction. The
  auto-advance tick, the arrows and the dots change them, and the slide offsets are
  chosen from the direction.
- **Property listing.** A tenant-type filter with an "All" wildcard, and a ROI badge
  shown only on the hovered card.
- **Blog article page.** The post lookup falls back to a default post. A classifier
  turns each content string into a heading, a list item, a bold-label paragraph or a
  plain paragraph.
- **Blog index.** The post list is split into featured and regular posts. Only the
  first category button is highlighted.
- **Landing page.** Gating of the intro splash through a per-session flag.
- **Forms.** The inquiry form and the site-visit booking modal keep field records that
  are edited one field at a time. A submission is pending while its flag is set, and
  completion empties the form; the modal then closes.

Modules, one per source file, plus three shared ones:

| file | module | models |
|---|---|---|
| `wrappers.dfy` | `Wrappers` | `Option` for an absent route id, hover slot or session entry |
| `seqs.dfy` | `Seqs` | the order-preserving list filter shared by the listing and the blog index |
| `cyclic.dfy` | `Cyclic` | forward/backward stepping with wrap-around, shared by the gallery and the carousel |
| `property_details.dfy` | `PropertyDetails` | `src/pages/PropertyDetails.tsx` |
| `testimonials.dfy` | `Testimonials` | `src/components/TestimonialsSection.tsx` |
| `properties_section.dfy` | `PropertiesSection` | `src/components/PropertiesSection.tsx` |
| `blog_post.dfy` | `BlogPost` | `src/pages/BlogPost.tsx` |
| `blog.dfy` | `Blog` | `src/pages/Blog.tsx` |
| `index_page.dfy` | `IndexPage` | `src/pages/Index.tsx` |
| `contact_section.dfy` | `ContactSection` | `src/components/ContactSection.tsx` |
| `book_site_visit_modal.dfy` | `BookSiteVisitModal` | `src/components/BookSiteVisitModal.tsx` |

Modelling choices:

- **Amounts** are whole rupees in unbounded integers. The expected-ROI slider value is
  kept in tenths of a percent (8.2 % is 82). The code computes appreciation as
  `investment * 0.05 * years` in floating point. The model computes
  `investment * 5 * years / 100` in integers, and `Project` proves that this division
  is exact on every slider position, because investments are multiples of 1,000,000.
- **State.** Component state updated by handlers is a class whose methods change its
  fields: the gallery and sliders, the carousel, the listing's filter and hover, the
  splash flags, and the two forms. Pure expressions are functions: the projection,
  the lookups, the filters and the classifier.
- **Slider and select values.** A range input or select can only deliver values on
  its grid or among its options. The setters take such values as a precondition.
- **Browser form validation.** The browser refuses to submit while a `required` field
  is empty, and a disabled button cannot submit either. `Submit` models both as a
  returned flag that says whether submission started, not as a precondition.
- **The async submit** is split in two. `Submit` starts it and `CompleteSubmission`
  runs what follows the simulated 1.5 s delay.
- **Session storage** is passed in as the value of its one entry (`Option<string>`).
  JavaScript truthiness, i.e. present and non-empty, decides whether the entry counts.
- **Route ids** are a plain `Option<string>` parameter.
- **The booking modal's `isOpen`** is owned by the property page
  (`src/pages/PropertyDetails.tsx:115`, set at 493, cleared by `onClose` at 551).
  The model keeps it as a field of the modal. `closeCalls` counts `onClose`
  invocations.

Facts about the code that are easy to miss:

- The calculator starts at 41,000,000 / 8.2 / 5 whatever property is shown
  (`src/pages/PropertyDetails.tsx:118-120`); nothing seeds it from the property's
  own price or ROI. `PropertyView.constructor` does the same.
- The rent in the projection is the shown property's `monthlyRent`. For any id other
  than "1" or "2", that is the first record's rent.
- The post table of the article page is a plain object, so a route id naming a member
  every object inherits (`constructor`, `toString`, `__proto__` and the like) finds
  that member instead of nothing. The fallback to the default post does not fire and
  rendering fails when it reads the content. `BlogPost.LookupPost` returns `None`
  exactly for these ids.

## Model

| member | source | states |
|---|---|---|
| `PropertyDetails.Find` | src/pages/PropertyDetails.tsx:122 | the result is absent exactly when no record has the id; otherwise it is a record of the table with that id |
| `PropertyDetails.FindReturnsFirst` | src/pages/PropertyDetails.tsx:122 | when several records match, the one nearest the front is returned, as `Array.prototype.find` does |
| `PropertyDetails.LookupProperty` | src/pages/PropertyDetails.tsx:122 | the record shown has the route id when such a record exists, and is the first record for a missing or unknown id; it always has four images |
| `PropertyDetails.ListingIdsFallBack` | src/pages/PropertyDetails.tsx:122 | the ids "3" to "6", linked from the listing cards, all show record "1" |
| `PropertyDetails.Project` | src/pages/PropertyDetails.tsx:135-139 | rental income is monthly rent × 12 × years; 100 × appreciation equals investment × 5 × years exactly on the slider grid; total returns is rental income plus appreciation; final value adds the investment |
| `PropertyDetails.ExpectedRoiIgnored` | src/pages/PropertyDetails.tsx:119 | changing the expected-ROI slider alone leaves all five amounts unchanged |
| `PropertyDetails.ProjectionMonotone` | src/pages/PropertyDetails.tsx:135-139 | each of the five amounts is non-decreasing in both the investment and the holding period |
| `PropertyDetails.TotalReturnsExtremes` | src/pages/PropertyDetails.tsx:387-389 | for a fixed rent, total returns are smallest at the minimum investment and 1 year, and largest at the maximum investment and 15 years |
| `PropertyDetails.InitialScenario` | src/pages/PropertyDetails.tsx:118-120 | record "1" at the initial sliders gives 3,360,000 / 16,800,000 / 10,250,000 / 27,050,000 / 68,050,000 |
| `PropertyDetails.TierOf` | src/pages/PropertyDetails.tsx:141-148 | crore form iff the amount is at least 10,000,000; lakh form iff it is in [100,000, 10,000,000); plain form iff it is below 100,000 |
| `PropertyDetails.TotalValueShownInCrores` | src/pages/PropertyDetails.tsx:447 | the final value is at least the investment, so it is always displayed in crores |
| `PropertyDetails.PropertyView.constructor` | src/pages/PropertyDetails.tsx:113-122 | the page shows the looked-up record at image 0 with sliders at 41,000,000 / 8.2 / 5, all within their bounds |
| `PropertyDetails.PropertyView.NextImage` | src/pages/PropertyDetails.tsx:124-126 | the index moves one forward and wraps from the last image to 0; it stays in range |
| `PropertyDetails.PropertyView.PrevImage` | src/pages/PropertyDetails.tsx:128-132 | the index moves one back and wraps from 0 to the last image; it stays in range |
| `PropertyDetails.PropertyView.SelectImage` | src/pages/PropertyDetails.tsx:212-229 | a dot or thumbnail click sets the index to that image, one of the rendered ones |
| `PropertyDetails.PropertyView.SetInvestmentAmount` | src/pages/PropertyDetails.tsx:386-391 | only the investment changes, to a value on the slider grid |
| `PropertyDetails.PropertyView.SetExpectedRoi` | src/pages/PropertyDetails.tsx:402-407 | only the expected ROI changes, and the displayed projection stays the same |
| `PropertyDetails.PropertyView.SetHoldingPeriod` | src/pages/PropertyDetails.tsx:418-423 | only the holding period changes, to a whole number of years in [1, 15] |
| `Cyclic.NextIndex` | src/pages/PropertyDetails.tsx:125 | the next index is in range: 0 after the last position, one more otherwise |
| `Cyclic.PrevIndex` | src/pages/PropertyDetails.tsx:129-131 | the previous index is in range, is the last position when starting from 0, and a step forward from it returns to the start |
| `Cyclic.PrevUndoesNext` | src/pages/PropertyDetails.tsx:124-132 | a step back after a step forward returns to the start |
| `Cyclic.Advance` | src/components/TestimonialsSection.tsx:51 | any number of forward steps stays within the list |
| `Cyclic.NextOfMod` | src/components/TestimonialsSection.tsx:51 | one step forward from the reduction of x lands on the reduction of x + 1 |
| `Cyclic.AdvanceIsModular` | src/components/TestimonialsSection.tsx:51 | k forward steps from i land on (i + k) mod n |
| `Cyclic.FullCycle` | src/components/TestimonialsSection.tsx:51 | as many ticks as there are testimonials bring the carousel back to where it started |
| `Testimonials.NavigateIndex` | src/components/TestimonialsSection.tsx:59-62 | direction 1 moves forward with wrap; any other direction moves backward, wrapping from 0 to the last testimonial |
| `Testimonials.NavigateRoundTrip` | src/components/TestimonialsSection.tsx:57-63 | navigating 1 then -1, or -1 then 1, restores the index |
| `Testimonials.DotDirection` | src/components/TestimonialsSection.tsx:176 | the dot click's direction is 1 iff the target is after the current slide, and -1 otherwise, the same slide included |
| `Testimonials.EnterOffset` | src/components/TestimonialsSection.tsx:66-69 | a slide enters from +100 iff the direction is positive, else from -100 |
| `Testimonials.ExitOffset` | src/components/TestimonialsSection.tsx:74-77 | a slide leaves towards +100 iff the direction is negative, else towards -100 |
| `Testimonials.OffsetsMirror` | src/components/TestimonialsSection.tsx:65-78 | for a non-zero direction the exit offset is the negation of the enter offset; for direction 0 both are -100 |
| `Testimonials.Carousel.Current` | src/components/TestimonialsSection.tsx:80 | the testimonial on display is one of the four, the one whose id is the index plus one |
| `Testimonials.Carousel.constructor` | src/components/TestimonialsSection.tsx:45-46 | the carousel starts at index 0 with direction 0 |
| `Testimonials.Carousel.Tick` | src/components/TestimonialsSection.tsx:49-51 | a tick sets direction 1 and moves the index exactly as navigating with 1 does |
| `Testimonials.Carousel.Navigate` | src/components/TestimonialsSection.tsx:57-63 | the direction becomes the argument and the index moves as `NavigateIndex` says, staying in range |
| `Testimonials.Carousel.SelectDot` | src/components/TestimonialsSection.tsx:175-178 | the direction is set from the comparison with the old index, and the index becomes the clicked one |
| `Seqs.Filter` | src/components/PropertiesSection.tsx:93-95 | the filtered list is no longer than the input, and holds only elements of the input that pass |
| `Seqs.FilterMembership` | src/components/PropertiesSection.tsx:93-95 | an element is kept iff it is in the input and passes |
| `Seqs.FilterConcat` | src/pages/Blog.tsx:86-87 | filtering distributes over concatenation, so the original order is kept |
| `Seqs.FilterCount` | src/components/PropertiesSection.tsx:93-95 | each passing element is kept as often as it occurs; each failing one is dropped |
| `Seqs.FilterAllKept` | src/components/PropertiesSection.tsx:94 | a list whose elements all pass is returned unchanged |
| `Seqs.FilterIdempotent` | src/components/PropertiesSection.tsx:93-95 | filtering twice by the same predicate equals filtering once |
| `Seqs.FilterComplementLength` | src/pages/Blog.tsx:86-87 | a predicate and its negation split a list into parts whose lengths sum to its length |
| `PropertiesSection.FilteredListings` | src/components/PropertiesSection.tsx:93-95 | the shown cards are input cards that pass the active filter, and never more than the input |
| `PropertiesSection.AllShowsEverything` | src/components/PropertiesSection.tsx:94 | with "All" the result is the full list, unchanged |
| `PropertiesSection.OtherFilterShowsTenantType` | src/components/PropertiesSection.tsx:93-95 | with any other filter, a card is shown iff its tenant type equals the filter, with its multiplicity kept |
| `PropertiesSection.FilterKeepsOrder` | src/components/PropertiesSection.tsx:93-95 | filtering keeps the original order |
| `PropertiesSection.FilterTwiceIsFilterOnce` | src/components/PropertiesSection.tsx:93-95 | filtering a filtered list by the same filter changes nothing |
| `PropertiesSection.BankFilterShows` | src/components/PropertiesSection.tsx:12-77 | "Bank" shows cards 1, 4 and 6 |
| `PropertiesSection.ItFilterShows` | src/components/PropertiesSection.tsx:25-64 | "IT" shows cards 2 and 5 |
| `PropertiesSection.RetailFilterShows` | src/components/PropertiesSection.tsx:38 | "Retail" shows card 3 |
| `PropertiesSection.TenantFiltersPartitionListings` | src/components/PropertiesSection.tsx:87 | the three tenant filters cover all six cards, with sizes summing to six (3 + 2 + 1) |
| `PropertiesSection.ListingIdsDistinct` | src/components/PropertiesSection.tsx:152 | card ids are distinct, as list keys require |
| `PropertiesSection.ListingView.Visible` | src/components/PropertiesSection.tsx:93-95 | the cards rendered are cards of the listing that pass the active filter; under "All" they are the whole listing in order |
| `PropertiesSection.ListingView.BadgeVisible` | src/components/PropertiesSection.tsx:174-175 | when a card's badge is visible, no other card is the hovered one |
| `PropertiesSection.ListingView.constructor` | src/components/PropertiesSection.tsx:90-91 | the filter starts at "All" and no card is hovered |
| `PropertiesSection.ListingView.SelectFilter` | src/components/PropertiesSection.tsx:133-136 | a filter button sets the active filter to one of the four filters |
| `PropertiesSection.ListingView.MouseEnter` | src/components/PropertiesSection.tsx:157-175 | entering a card rendered under the active filter makes its badge, and no other, visible |
| `PropertiesSection.ListingView.MouseLeave` | src/components/PropertiesSection.tsx:158 | leaving a card hides every badge |
| `PropertiesSection.AtMostOneBadge` | src/components/PropertiesSection.tsx:174-175 | in any state, no two different cards of the listing show their badges at once |
| `BlogPost.ReplaceFirst` | src/pages/BlogPost.tsx:147 | replacing a pattern the string starts with leaves the replacement followed by the rest after the pattern |
| `BlogPost.StripBold` | src/pages/BlogPost.tsx:170 | removing `**` never lengthens the string and keeps a first character that is not `*` |
| `BlogPost.StripBoldLeavesNoDoubleStar` | src/pages/BlogPost.tsx:170 | the label shown contains no `**` |
| `BlogPost.StripBoldKeepsText` | src/pages/BlogPost.tsx:170 | only asterisks are removed: the other characters of the label are kept, in order |
| `BlogPost.NonStars` | src/pages/BlogPost.tsx:170 | the reference for the kept text: no asterisk, never longer than the input |
| `BlogPost.StripBoldKeepsClean` | src/pages/BlogPost.tsx:170 | a string without `**` is unchanged, so stripping is idempotent |
| `BlogPost.Split` | src/pages/BlogPost.tsx:167 | there is at least one piece, no piece contains the separator, and there is exactly one piece iff the separator does not occur |
| `BlogPost.Join` | src/pages/BlogPost.tsx:171 | the first piece starts the joined string; when no piece holds the separator, the result holds it iff there are at least two pieces |
| `BlogPost.SplitWithoutSeparator` | src/pages/BlogPost.tsx:167 | a string without the separator splits into itself alone |
| `BlogPost.SplitAtFirst` | src/pages/BlogPost.tsx:167 | the first piece of a split is the text before the first separator |
| `BlogPost.SplitJoin` | src/pages/BlogPost.tsx:167-171 | splitting joined pieces gives them back, when there is at least one and none holds the separator |
| `BlogPost.JoinSplit` | src/pages/BlogPost.tsx:167-171 | joining the pieces of a split with the same separator restores the string |
| `BlogPost.Classify` | src/pages/BlogPost.tsx:144-178 | "## " gives a level-2 heading of the rest; otherwise "### " a level-3 heading; otherwise "- " a list item of the rest; a bold label iff none of those applies and the string starts with `**` and contains ':', with the label the starred-free text before the first colon and the body the rest after it; every other string is a plain paragraph of itself |
| `BlogPost.ThirdLevelIsNotSecondLevel` | src/pages/BlogPost.tsx:144-155 | a "### " line is a level-3 heading of the text after the prefix, never a level-2 heading |
| `BlogPost.LabelledReconstructs` | src/pages/BlogPost.tsx:166-172 | for a bold-label line, the text before the first colon, a colon and the body give back the line; the shown label is that text without `**` and contains none |
| `BlogPost.BoldWithoutColonIsPlain` | src/pages/BlogPost.tsx:91 | a line starting with `**` but with no colon is a plain paragraph shown as written |
| `BlogPost.RenderContent` | src/pages/BlogPost.tsx:142-143 | one block per content string, in the same order, each the classification of its string |
| `BlogPost.LookupPost` | src/pages/BlogPost.tsx:122 | a non-empty known id shows its post; a missing or empty id, or an unknown one that no object inherits, shows the "what-is-pre-leased-property" post; the inherited member names give no post, and the page fails |
| `BlogPost.BestCitiesFallsBack` | src/pages/BlogPost.tsx:102-122 | the related link "best-cities-commercial-investment" shows the default post; "roi-calculation-guide" shows its own |
| `Blog.FeaturedPosts` | src/pages/Blog.tsx:86 | the featured list holds only posts of the list whose flag is set |
| `Blog.RegularPosts` | src/pages/Blog.tsx:87 | the regular list holds only posts of the list whose flag is clear |
| `Blog.FeaturedRegularPartition` | src/pages/Blog.tsx:86-87 | the two lists' lengths add up to the number of posts, and each post is in exactly one of them |
| `Blog.PartitionKeepsOrder` | src/pages/Blog.tsx:86-87 | both lists keep the original order |
| `Blog.ShownPartition` | src/pages/Blog.tsx:17-72 | on the shown data, posts 1, 3 and 6 are featured and posts 2, 4 and 5 are regular |
| `Blog.PostIdsDistinct` | src/pages/Blog.tsx:144 | post ids are distinct, as list keys require |
| `Blog.Highlighted` | src/pages/Blog.tsx:119-126 | a category button is highlighted iff it is the "All Posts" one |
| `IndexPage.SplashGate.SplashRendered` | src/pages/Index.tsx:34 | the two flags always disagree, so the splash is rendered iff it is to be shown, iff it has not been seen |
| `IndexPage.SplashGate.constructor` | src/pages/Index.tsx:13-14 | initially the splash is to be shown and has not been seen |
| `IndexPage.SplashGate.Mount` | src/pages/Index.tsx:16-23 | a truthy session flag hides the splash and marks it seen; otherwise nothing changes; neither flag moves back |
| `IndexPage.SplashGate.HandleSplashComplete` | src/pages/Index.tsx:25-29 | hides the splash, marks it seen and stores "true"; a second call changes nothing |
| `IndexPage.OpenPage` | src/pages/Index.tsx:13-34 | once the mount effect has run, the splash is rendered iff the session holds no truthy seen flag (the first commit, before the effect, always renders it) |
| `IndexPage.ReopenAfterIntro` | src/pages/Index.tsx:25-34 | after the intro has completed, opening the page again in the same session renders no splash |
| `ContactSection.ContactData.With` | src/components/ContactSection.tsx:41 | the named field takes the new value and the other four are unchanged |
| `ContactSection.LastEditWins` | src/components/ContactSection.tsx:41 | two edits of the same field leave the last value |
| `ContactSection.EditsCommute` | src/components/ContactSection.tsx:41 | edits of different fields can be applied in either order |
| `ContactSection.ContactForm.constructor` | src/components/ContactSection.tsx:15-22 | all five fields start empty and no submission is pending |
| `ContactSection.ContactForm.HandleChange` | src/components/ContactSection.tsx:40-42 | the record becomes the old one with the named field replaced; the budget stays one of the select's options |
| `ContactSection.ContactForm.Submit` | src/components/ContactSection.tsx:24-26 | submission starts iff none is pending and name, phone and email are filled; it then sets the pending flag, otherwise nothing changes; a disabled button never starts one |
| `ContactSection.ContactForm.CompleteSubmission` | src/components/ContactSection.tsx:36-37 | after completion all five fields are empty and no submission is pending |
| `BookSiteVisitModal.BookingData.With` | src/components/BookSiteVisitModal.tsx:41 | the named field takes the new value and the other five are unchanged |
| `BookSiteVisitModal.TimeSlotsDistinct` | src/components/BookSiteVisitModal.tsx:44-52 | there are seven time slots, all distinct |
| `BookSiteVisitModal.FilledTimeIsSlot` | src/components/BookSiteVisitModal.tsx:160-166 | a filled-in time chosen through the select is one of the slots |
| `BookSiteVisitModal.BookingModal.constructor` | src/components/BookSiteVisitModal.tsx:13-21 | all six fields start empty, no submission is pending, no close call has been made, and the modal is closed, as the page starts it |
| `BookSiteVisitModal.BookingModal.HandleChange` | src/components/BookSiteVisitModal.tsx:40-42 | on the open dialog, the record becomes the old one with the named field replaced; the time stays empty or a slot |
| `BookSiteVisitModal.BookingModal.Submit` | src/components/BookSiteVisitModal.tsx:23-25 | submission starts iff the dialog is open, none is pending, and name, phone, email, date and time are filled; a closed dialog never starts one |
| `BookSiteVisitModal.BookingModal.CompleteSubmission` | src/components/BookSiteVisitModal.tsx:35-37 | the fields are emptied and the pending flag cleared, then the close callback runs once and the modal is closed |
| `BookSiteVisitModal.BookingModal.Open` | src/pages/PropertyDetails.tsx:493 | the page's "Book Site Visit" button opens the modal |
| `BookSiteVisitModal.BookingModal.Dismiss` | src/components/BookSiteVisitModal.tsx:63 | a click on the backdrop or the close button of the open dialog calls the close callback once, and the modal is closed |
| `BookSiteVisitModal.BookingModal.OnClose` | src/pages/PropertyDetails.tsx:551 | the page's close callback clears the open flag; each call is counted once |

## Left out

- Layout, styling, icons, animations and transitions. These are presentation only.
  The carousel's offsets are kept; its timings, opacity and scale are not.
- The strings `formatCurrency` produces: the `toFixed(2)` crore and lakh figures and
  the `en-IN` grouping of plain amounts. They are floating-point and locale output.
  Only the choice of tier is modelled.
- IEEE double rounding. The model computes appreciation in integers. On every slider
  position the page's double arithmetic agrees with it: the investment is k × 1,000,000
  with k from 10 to 100, so the error of the double nearest 0.05, multiplied by the
  investment, is below half a unit in the last place of k × 50,000. The first product
  therefore rounds to exactly k × 50,000, and multiplying by 1 to 15 years, like the
  sums that follow, stays an exact integer. The model states this agreement but does
  not prove it: Dafny reasons about unbounded integers here, not about doubles.
- The lease progress bar (`src/pages/PropertyDetails.tsx:328`). It parses the leading
  number out of the lease text with `parseInt` and divides in floating point; the
  model keeps no lease text.
- The reading-progress bar (`src/pages/BlogPost.tsx:124-133`). It is a floating-point
  percentage of DOM scroll measurements.
- The 1.5 s simulated submit delay, the toast notifications, the carousel's interval
  timer and the copy-link timeout. Time is not modelled; the carousel's tick models
  one firing of the timer.
- `sessionStorage`, `navigator.clipboard`, scroll listeners and the router. They are
  browser APIs; the session entry and the route id are parameters instead.
- The booking form's minimum date, taken from the current clock
  (`src/components/BookSiteVisitModal.tsx:147`), and the browser's email-format check.
  The model only checks that required fields are non-empty.
- The splash animation itself (`src/components/SplashScreen.tsx`), the navigation
  bar's scroll and menu state (`src/components/Navbar.tsx`), and the static sections
  (footer, hero, why-invest, services). None of these holds logic beyond timers and
  DOM events.
- Fields of the data records that are only displayed: descriptions, addresses, areas,
  amenities, images on the listing, excerpts and dates. The blog index keeps no
  titles, and the article table keeps titles, categories, authors and content only.
- BookSiteVisitModal.BookingModal.CompleteSubmission: the order of the state resets
  and the `onClose` call inside the handler cannot be observed after React batches
  the updates. Only the final state and the single close call are stated.

# MentorByte front end: a Dafny model of its page logic

MentorByte is an online-course marketplace written as a React single-page
application. This project models the logic inside sixteen of its page
components. It leaves out their markup and animation. The logic falls into
three kinds:

- **Catalog queries.** The course search page uses a text search plus three
  multi-select facets and splits the result into pages of six. The course
  catalog uses a search plus two single-select filters with "All ..."
  sentinels. The blog index uses a search, a category, a featured strip of
  three posts and a grid.
- **Stateful widgets.** These include the cart (quantity steppers clamped at
  1, removal, totals) and the three-step checkout. Others are the course
  accordion, FAQ cards, testimonial carousel and "load more" lists. The last
  group is the two navigation bars with their dropdown, submenu and mobile
  menus, the sign-in and sign-up forms, and the like button.
- **String building.** This covers the blog table of contents (heading
  extraction with a regular expression, tag stripping, anchor slugs) and the
  navigation links (`/explore/<category>/<slug>`). It also covers
  the suffix of compact review counts (the "K" of "31.4K") and the course durations ("1hr 07min").

Each component's `useState` fields become the fields of a Dafny `class`.
Its handlers become methods whose `ensures` give the new state as a pure
function of the old one. What the page promises is proved about those pure
functions as lemmas. Pure computations (filters, slices, sums, string
builders) are functions with contracts. Shared pieces live in two modules:
`Lists` holds filtering, toggling membership, slicing and sums. `Text` holds
ASCII lower-casing, substring search, slug building and decimal numerals.

Strings are `seq<char>`. JavaScript's `toLowerCase` is modelled as ASCII-only
lowering. Prices are integer cents.

## Model

| member | source | states |
|---|---|---|
| Lists.ToggleSelected | src/pages/Home/FAQSection.jsx:45-47 | the single open item becomes `x` exactly when it was not `x`, and is cleared otherwise |
| Lists.Toggle | src/pages/Course/CourseContent.tsx:60-66 | a value already present is removed (the filter), an absent one is appended at the end; the value is in the result iff it was not in the list; every other value keeps its membership |
| Lists.ToggleNoDup | src/pages/Course/CourseSearchPage.jsx:120-130 | toggling keeps a duplicate-free list duplicate-free |
| Lists.ToggleTwice | src/pages/Course/CourseContent.tsx:60-66 | toggling a value that is absent twice restores the list |
| Lists.FilterIsSubseq | src/pages/Blog/BlogPage.jsx:331-337 | a filter result is a subsequence of its input: the kept elements stay in their original order |
| Lists.FilterPartition | src/pages/Blog/BlogPage.jsx:339-340 | a test and its negation split a list: the two multisets add up to the list's |
| Lists.Slice | src/pages/Home/CreativeExpertsSection.jsx:203 | `Array.prototype.slice` with clamped bounds |
| Lists.SumOfWithout | src/pages/Cart/AddToCartPage.jsx:156-162 | dropping element k from a sum subtracts that element's term |
| Text.Lower | src/pages/Blog/BlogDetailPage.jsx:235 | ASCII lower-casing: same length, each character lowered on its own, and A-Z the only characters changed |
| Text.LowerIdempotent | src/shared/Navbar.jsx:236 | lower-casing twice equals lower-casing once |
| Text.IncludesIff | src/pages/Course/CourseSearchPage.jsx:137-139 | `includes` holds iff the needle occurs at some position of the haystack |
| Text.SomeIncludesIff | src/pages/Blog/BlogPage.jsx:334 | `tags.some(t => t.toLowerCase().includes(term))` holds iff some tag contains the lowered term |
| Text.CollapseRuns | src/pages/Blog/BlogDetailPage.jsx:235 | `replace(/[^a-z0-9]+/g, '-')`: the result is a slug with no two dashes in a row |
| Text.CollapseRunsLeadingRun | src/pages/Blog/BlogDetailPage.jsx:235 | a leading maximal run of characters outside `[a-z0-9]` becomes exactly one `-` |
| Text.CollapseRunsKeepsWord | src/pages/Blog/BlogDetailPage.jsx:235 | a leading word of `[a-z0-9]` characters is kept unchanged and the rest is collapsed on its own |
| Text.CollapseRunsSeparator | src/pages/Blog/BlogDetailPage.jsx:235 | a word, then a maximal run of other characters, then the rest: the word is kept and the whole run is replaced by exactly one `-` |
| Text.CollapseRunsKeepsSlugChars | src/pages/Blog/BlogDetailPage.jsx:235 | collapsing keeps the letters and digits of the text, in order |
| Text.DashEach | src/shared/Navbar.jsx:236 | `replace(/[^a-z0-9]/g, '-')`: same length, each non-slug character becomes one dash |
| Text.DecimalString | src/pages/Home/SkillsSection.jsx:149 | `num.toString()`: a canonical digit string, with no leading zero, whose value is num |
| CourseSearch.Selections.Set | src/pages/Course/CourseSearchPage.jsx:121-129 | `{...prev, [type]: v}` changes the named facet only |
| CourseSearch.FilteredCourses | src/pages/Course/CourseSearchPage.jsx:136-147 | a course is listed iff it is in the catalog, its title or provider contains the term (ignoring case), and each facet is unselected or contains its value; catalog order is kept |
| CourseSearch.FilteredAllWhenUnconstrained | src/pages/Course/CourseSearchPage.jsx:110-118 | the initial state lists every course in order |
| CourseSearch.FilteredBySingleSubject | src/pages/Course/CourseSearchPage.jsx:141-143 | selecting one subject lists exactly the courses of that subject |
| CourseSearch.FacetColumn | src/pages/Course/CourseSearchPage.jsx:105-107 | the `map` step: one facet value per course, in course order |
| CourseSearch.FacetValues | src/pages/Course/CourseSearchPage.jsx:105-107 | `[...new Set(...)]` of that column: each course's value exactly once, nothing else, in order of first occurrence |
| CourseSearch.TotalPages | src/pages/Course/CourseSearchPage.jsx:150 | `Math.ceil(n / 6)`: the least page count covering n courses |
| CourseSearch.PageInRange | src/pages/Course/CourseSearchPage.jsx:151-153 | page p between 1 and the total shows items 6(p-1) up to 6p or the end, between 1 and 6 of them |
| CourseSearch.PageBeyondEnd | src/pages/Course/CourseSearchPage.jsx:151-153 | a page past the last shows nothing |
| CourseSearch.PagesCoverAll | src/pages/Course/CourseSearchPage.jsx:150-153 | all pages concatenated give back the filtered list |
| CourseSearch.PreviousPage | src/pages/Course/CourseSearchPage.jsx:160-164 | moves back one only above page 1, so it stays at or above 1 |
| CourseSearch.NextPage | src/pages/Course/CourseSearchPage.jsx:166-170 | moves forward one only below the last page, so it stays within 1..total |
| CourseSearch.ActiveFilterCount | src/pages/Course/CourseSearchPage.jsx:172-174 | the count equals the number of chips, and is zero iff no facet has a selection |
| CourseSearch.ToggleChangesCountByOne | src/pages/Course/CourseSearchPage.jsx:120-130 | a toggle keeps the lists duplicate-free and moves the count by exactly one |
| CourseSearch.SearchPage.constructor | src/pages/Course/CourseSearchPage.jsx:110-118 | empty selections and term, filters hidden, page 1 |
| CourseSearch.SearchPage.ToggleFilter | src/pages/Course/CourseSearchPage.jsx:120-130 | the named facet is toggled, the others are unchanged, and no list gains a duplicate |
| CourseSearch.DropValue | src/pages/Course/CourseSearchPage.jsx:268-270 | the value leaves the list, and every other value keeps its membership |
| CourseSearch.ChipRemoved | src/pages/Course/CourseSearchPage.jsx:267-271 | the chip's value leaves every facet, and no other value's membership changes |
| CourseSearch.ChipRemovedCount | src/pages/Course/CourseSearchPage.jsx:259-273 | removing a chip keeps the lists duplicate-free and lowers the count by the number of facets that held the value |
| CourseSearch.SearchPage.RemoveChip | src/pages/Course/CourseSearchPage.jsx:267-271 | the selections become `ChipRemoved` of the old ones, and stay duplicate-free |
| CourseSearch.SearchPage.ClearAllFilters | src/pages/Course/CourseSearchPage.jsx:132-134 | all three facets become empty |
| CourseSearch.SearchPage.GoToPage | src/pages/Course/CourseSearchPage.jsx:155-158 | the page becomes the button's number |
| CourseSearch.SearchPage.GoToPrevious | src/pages/Course/CourseSearchPage.jsx:160-164 | the page becomes `PreviousPage` of the old page |
| CourseSearch.SearchPage.GoToNext | src/pages/Course/CourseSearchPage.jsx:166-170 | the page becomes `NextPage` of the old page and the current total |
| CourseSearch.SearchPage.SetSearchTerm | src/pages/Course/CourseSearchPage.jsx:240 | the term is replaced |
| CourseSearch.SearchPage.ToggleShowFilters | src/pages/Course/CourseSearchPage.jsx:245 | the filter panel's flag flips |
| CourseCatalog.FilteredCourses | src/pages/Course/Course.jsx:170-179 | a course is kept iff its title, provider or some skill contains the term (ignoring case), the subject is empty, "All Subjects" or equal, and the skill is empty, "All Skills" or listed; order is kept |
| CourseCatalog.InitialShowsAll | src/pages/Course/Course.jsx:7-9 | the initial empty inputs show every course in order |
| CourseCatalog.AllEntriesAreSentinels | src/pages/Course/Course.jsx:175-176 | choosing "All Subjects" and "All Skills" gives the same list as leaving them empty |
| CourseCatalog.NoResultsIff | src/pages/Course/Course.jsx:421 | "No courses found" shows iff no course passes the three tests |
| BlogListing.FilteredPosts | src/pages/Blog/BlogPage.jsx:331-337 | a post is kept iff its title, excerpt or a tag contains the term (ignoring case) and the category is "All" or its own; order is kept |
| BlogListing.EmptyTermMatches | src/pages/Blog/BlogPage.jsx:332 | the empty term matches every post |
| BlogListing.FilteredAllWhenUnconstrained | src/pages/Blog/BlogPage.jsx:327-329 | the initial state lists every post |
| BlogListing.FeaturedPosts | src/pages/Blog/BlogPage.jsx:339 | exactly the featured posts, in order |
| BlogListing.RegularPosts | src/pages/Blog/BlogPage.jsx:340 | exactly the posts that are not featured, in order |
| BlogListing.FeaturedRegularPartition | src/pages/Blog/BlogPage.jsx:339-340 | featured and regular posts are disjoint and together are the filtered list |
| BlogListing.FeaturedStrip | src/pages/Blog/BlogPage.jsx:438-456 | under "All" with featured posts, the first min(3, n) of them; otherwise nothing |
| BlogListing.MainGrid | src/pages/Blog/BlogPage.jsx:469-472 | under "All", exactly the regular posts (`regularPosts`); otherwise the whole filtered list |
| BlogListing.PostsShownOnce | src/pages/Blog/BlogPage.jsx:438-472 | the grid heading shows iff the strip does not, and no post is on both the strip and the grid |
| BlogListing.FeaturedOverflowHidden | src/pages/Blog/BlogPage.jsx:438-472 | with at most three featured posts every post is on the page; a fourth featured post under "All" is on neither the strip nor the grid |
| BlogListing.BlogIndex.constructor | src/pages/Blog/BlogPage.jsx:327-329 | empty term, "All", filters hidden |
| BlogListing.BlogIndex.SetSearchTerm | src/pages/Blog/BlogPage.jsx:394 | the term is replaced |
| BlogListing.BlogIndex.SelectCategory | src/pages/Blog/BlogPage.jsx:414 | the category is replaced |
| BlogListing.BlogIndex.ToggleShowFilters | src/pages/Blog/BlogPage.jsx:402 | the filter panel's flag flips |
| BlogListing.BlogIndex.ViewAllArticles | src/pages/Blog/BlogPage.jsx:483-486 | clears the term, selects "All", and the page then lists every post |
| Cart.UpdatedQuantities | src/pages/Cart/AddToCartPage.jsx:142-150 | only items with the id change, each to max(1, quantity + change); everything else is kept |
| Cart.UpdateKeepsQuantitiesPositive | src/pages/Cart/AddToCartPage.jsx:142-150 | quantities never drop below 1, and "-" at 1 stays at 1 |
| Cart.RemovedItem | src/pages/Cart/AddToCartPage.jsx:152-154 | exactly the items with another id, in order |
| Cart.UpdateTotals | src/pages/Cart/AddToCartPage.jsx:156-162 | a step moves the item count by the clamped change and the subtotal by price times that change |
| Cart.RemoveTotals | src/pages/Cart/AddToCartPage.jsx:152-162 | removal shortens the list by one and takes the item's line price and quantity off the totals |
| Cart.TotalItemsAtLeastCount | src/pages/Cart/AddToCartPage.jsx:160-162 | the item count is at least the number of lines |
| Cart.DisplayedTotal | src/pages/Cart/AddToCartPage.jsx:378 | the subtotal minus 25.00, with no clamp |
| Cart.DisplayedTotalCanBeNegative | src/pages/Cart/AddToCartPage.jsx:378 | a 9.99 cart shows -15.01 |
| Cart.InitialTotals | src/pages/Cart/AddToCartPage.jsx:8-9 | the shipped cart has 4 items, subtotal 404.96, total 379.96 |
| Cart.CurrentView | src/pages/Cart/AddToCartPage.jsx:182-266 | sign-in panel iff signed out; empty state iff signed in with no items; list otherwise |
| Cart.RemovedKeepsValid | src/pages/Cart/AddToCartPage.jsx:152-154 | removal keeps quantities positive and ids unique |
| Cart.CartPage.constructor | src/pages/Cart/AddToCartPage.jsx:8-9 | signed out, with the three shipped items |
| Cart.CartPage.SignIn | src/pages/Cart/AddToCartPage.jsx:226 | the user becomes signed in |
| Cart.CartPage.UpdateQuantity | src/pages/Cart/AddToCartPage.jsx:142-150 | the items become `UpdatedQuantities` of the old ones, and the invariant holds |
| Cart.CartPage.RemoveItem | src/pages/Cart/AddToCartPage.jsx:152-154 | the items become `RemovedItem` of the old ones, and the invariant holds |
| Checkout.StepsStayInRange | src/pages/Plans/CourseBuyingPage.jsx:91-101 | Continue and Back keep the step in 1..3 and stand still exactly at 3 and at 1 |
| Checkout.ContinueBackInverse | src/pages/Plans/CourseBuyingPage.jsx:91-101 | Back undoes Continue, and Continue undoes Back, wherever the first one moved |
| Checkout.TwoContinuesReachReview | src/pages/Plans/CourseBuyingPage.jsx:91-95 | two Continues from any step reach the review step |
| Checkout.EventValue | src/pages/Plans/CourseBuyingPage.jsx:83-89 | checkboxes write `checked` and text inputs write `value` |
| Checkout.ExactlyOnePanel | src/pages/Plans/CourseBuyingPage.jsx:142-143 | exactly one panel renders, and the indicators up to the step are highlighted |
| Checkout.CheckoutPage.constructor | src/pages/Plans/CourseBuyingPage.jsx:7-17 | step 1, the empty form, empty promo code |
| Checkout.CheckoutPage.HandleContinue | src/pages/Plans/CourseBuyingPage.jsx:91-95 | the step advances below 3 |
| Checkout.CheckoutPage.HandleBack | src/pages/Plans/CourseBuyingPage.jsx:97-101 | the step goes back above 1 |
| Checkout.CheckoutPage.HandleInputChange | src/pages/Plans/CourseBuyingPage.jsx:83-89 | only the named field changes, to the event's value |
| Checkout.CheckoutPage.SetPromoCode | src/pages/Plans/CourseBuyingPage.jsx:396 | the promo code is replaced |
| CourseContent.ExpandLabel | src/pages/Course/CourseContent.tsx:82 | "Expand all sections" iff fewer sections are expanded than exist |
| CourseContent.CollapseIffAllExpanded | src/pages/Course/CourseContent.tsx:82 | with unique ids, the label says "Collapse" iff every section is expanded |
| CourseContent.ShippedTotalLectures | src/pages/Course/CourseContent.tsx:69 | the shipped sections hold 32 lectures |
| CourseContent.ParseNumeral | src/pages/Course/CourseContent.tsx:10 | a numeral parses iff it is a non-empty digit string |
| CourseContent.ParseDuration | src/pages/Course/CourseContent.tsx:10 | a parsed duration ends in "min" |
| CourseContent.ParseHoursAndMinutes | src/pages/Course/CourseContent.tsx:10 | "<h>hr <m>min" is 60h + m minutes |
| CourseContent.ParseMinutesOnly | src/pages/Course/CourseContent.tsx:47 | "<m>min" is m minutes |
| CourseContent.HoursMark | src/pages/Course/CourseContent.tsx:10 | finds the first "hr " mark at or after a position, or reports none |
| CourseContent.TotalTimeIsSumOfSections | src/pages/Course/CourseContent.tsx:70 | the hard-coded "5hr 00min" equals the sum of the four section times, 300 minutes |
| CourseContent.Accordion.constructor | src/pages/Course/CourseContent.tsx:58 | only section 1 is expanded |
| CourseContent.Accordion.ToggleSection | src/pages/Course/CourseContent.tsx:60-66 | the expanded list is toggled and the section's state flips |
| CreativeExperts.LoadMoreCount | src/pages/Home/CreativeExpertsSection.jsx:151-153 | exactly `min(prev + 3, total)`: never beyond the total, never backwards, and at most three more |
| CreativeExperts.VisibleCreators | src/pages/Home/CreativeExpertsSection.jsx:203 | the first `visibleCount` creators, or all of them |
| CreativeExperts.LoadMoreReachesAll | src/pages/Home/CreativeExpertsSection.jsx:151-153 | ceil((total - visible) / 3) clicks show everyone |
| CreativeExperts.ShippedCreators | src/pages/Home/CreativeExpertsSection.jsx:255 | ten creators: 6, 9, 10, and the button disappears after two clicks |
| CreativeExperts.CreatorsGrid.constructor | src/pages/Home/CreativeExpertsSection.jsx:9 | six creators are visible |
| CreativeExperts.CreatorsGrid.HandleLoadMore | src/pages/Home/CreativeExpertsSection.jsx:151-153 | the count becomes `LoadMoreCount` of the old count |
| ReviewSection.VisibleReviews | src/pages/Course/ReviewSection.tsx:137 | the first `visibleReviews` reviews |
| ReviewSection.FilledStarsCount | src/pages/Course/ReviewSection.tsx:155-164 | n stars fill min(rating, n) |
| ReviewSection.RatingFillsExactly | src/pages/Course/ReviewSection.tsx:155-164 | a rating r in 0..5 fills exactly the first r of the five stars |
| ReviewSection.FilterLabel | src/pages/Course/ReviewSection.tsx:130 | the first character is upper-cased and the rest is kept |
| ReviewSection.FilterLabels | src/pages/Course/ReviewSection.tsx:120-130 | "all" becomes "All"; the star filters stay as they are |
| ReviewSection.Reviews.constructor | src/pages/Course/ReviewSection.tsx:59-60 | two reviews visible, filter "all" |
| ReviewSection.Reviews.HandleLoadMore | src/pages/Course/ReviewSection.tsx:62-64 | every review shows and the button disappears |
| ReviewSection.Reviews.SetActiveFilter | src/pages/Course/ReviewSection.tsx:129 | the highlight moves and the shown list is unchanged |
| BlogDetail.FindGt | src/pages/Blog/BlogDetailPage.jsx:231 | `[^>]*>`: the first '>' at or after a position |
| BlogDetail.FindClose | src/pages/Blog/BlogDetailPage.jsx:231 | lazy `.*?</h[23]>`: the first closing tag before any line terminator |
| BlogDetail.MatchAtIsShortest | src/pages/Blog/BlogDetailPage.jsx:231 | a match at i is the shortest heading starting at i, and no match means no heading starts there |
| BlogDetail.Scan | src/pages/Blog/BlogDetailPage.jsx:231 | the global match: ordered, non-overlapping heading spans |
| BlogDetail.ScanFindsHeadings | src/pages/Blog/BlogDetailPage.jsx:231 | every span found is the shortest heading at its start |
| BlogDetail.ScanSkipsNoHeading | src/pages/Blog/BlogDetailPage.jsx:231 | no heading starts in the gaps the scan skips |
| BlogDetail.StripTags | src/pages/Blog/BlogDetailPage.jsx:234 | `replace(/<[^>]*>/g, '')`: the result has no complete tag, and every character it keeps occurs in the input |
| BlogDetail.StripTagsIsSubseq | src/pages/Blog/BlogDetailPage.jsx:234 | the result is a subsequence of the input: the characters that survive keep their order |
| BlogDetail.StripTagsDropsTag | src/pages/Blog/BlogDetailPage.jsx:234 | a leading tag is dropped entirely |
| BlogDetail.StripTagsKeepsText | src/pages/Blog/BlogDetailPage.jsx:234 | text without '<' is kept as it is |
| BlogDetail.HeadingText | src/pages/Blog/BlogDetailPage.jsx:234 | a heading whose inner text has no '<' yields exactly that text |
| BlogDetail.Level | src/pages/Blog/BlogDetailPage.jsx:233 | the heading's level digit, "2" or "3" |
| BlogDetail.Anchor | src/pages/Blog/BlogDetailPage.jsx:235 | a slug with no double dash that keeps the text's letters and digits, empty iff the text is empty (how each separator run becomes one dash: `Text.CollapseRunsSeparator`) |
| BlogDetail.Item | src/pages/Blog/BlogDetailPage.jsx:232-236 | one entry: its position, level 2 or 3, the match's tag-free text and a slug id built from that text |
| BlogDetail.TocItems | src/pages/Blog/BlogDetailPage.jsx:231-236 | one item per heading, numbered in order; each is `Item` of its match: level read from the opening tag (2 or 3), text the match with tags stripped, id exactly `Anchor` of that text |
| BlogDetail.LevelStyles | src/pages/Blog/BlogDetailPage.jsx:253 | level 2 is bold and level 3 is indented, never both |
| BlogDetail.Like | src/pages/Blog/BlogDetailPage.jsx:285-288 | the flag flips and the count moves by one in the matching direction |
| BlogDetail.LikeKeepsConsistent | src/pages/Blog/BlogDetailPage.jsx:268-269 | the count stays the initial count plus one exactly when liked |
| BlogDetail.LikeTwice | src/pages/Blog/BlogDetailPage.jsx:285-288 | liking twice restores the state |
| BlogDetail.LikeButton.constructor | src/pages/Blog/BlogDetailPage.jsx:268-269 | not liked, with the post's 324 likes |
| BlogDetail.LikeButton.HandleLike | src/pages/Blog/BlogDetailPage.jsx:285-288 | the state becomes `Like` of the old one |
| Links.ExploreLink | src/shared/Navbar.jsx:236 | "/explore/" + lowered category + "/" + a slug of the item, character by character |
| Links.ExploreLinkDeterminesParts | src/shared/Navbar.jsx:236 | equal links from equal-length categories come from the same lowered category and slug |
| Links.ItemLink | src/shared/Navbar.jsx:260 | "/" + menu key + "/" + lowered item, with no upper-case letter in the item part |
| Links.ItemLinkInjective | src/shared/Navbar.jsx:260 | two item links agree iff the items agree after lowering |
| SharedNavbar.OpenDropdown | src/shared/Navbar.jsx:82-85 | opens the key's menu and closes the submenu |
| SharedNavbar.DropdownToggled | src/shared/Navbar.jsx:92-98 | the open menu becomes the key iff it was not, and the submenu closes |
| SharedNavbar.ToggleDropdownTwice | src/shared/Navbar.jsx:92-98 | opening then toggling again closes everything |
| SharedNavbar.OneMenuOpen | src/shared/Navbar.jsx:181 | at most one menu is open, and opening one closes another |
| SharedNavbar.MobileMenuToggled | src/shared/Navbar.jsx:475-479 | the drawer flips and its dropdown and submenu close |
| SharedNavbar.MobileDropdownToggled | src/shared/Navbar.jsx:481-484 | the mobile dropdown toggles and the submenu closes |
| SharedNavbar.MobileSubmenuToggled | src/shared/Navbar.jsx:486-488 | the mobile submenu toggles, and nothing else changes |
| SharedNavbar.MobileMenuRoundTrip | src/shared/Navbar.jsx:475-479 | opening and closing the drawer leaves it closed with nothing expanded |
| SharedNavbar.SimpleLink | src/shared/Navbar.jsx:260 | the language menu links to "#", the others to `ItemLink` |
| SharedNavbar.Navbar.constructor | src/shared/Navbar.jsx:460-462 | every menu closed, no timer pending |
| SharedNavbar.Navbar.CloseDropdown | src/shared/Navbar.jsx:87-90 | the desktop menus close |
| SharedNavbar.Navbar.ToggleDropdown | src/shared/Navbar.jsx:92-98 | the desktop state becomes `DropdownToggled` of the old one |
| SharedNavbar.Navbar.OpenSubmenu | src/shared/Navbar.jsx:100-105 | the submenu opens and a pending close is cancelled |
| SharedNavbar.Navbar.CloseSubmenu | src/shared/Navbar.jsx:107-111 | a delayed close is scheduled |
| SharedNavbar.Navbar.CancelSubmenuClose | src/shared/Navbar.jsx:113-117 | the pending close is cancelled |
| SharedNavbar.Navbar.SubmenuTimerFires | src/shared/Navbar.jsx:108-110 | the scheduled close shuts the submenu |
| SharedNavbar.Navbar.ToggleMobileMenu | src/shared/Navbar.jsx:475-479 | the mobile state becomes `MobileMenuToggled` of the old one |
| SharedNavbar.Navbar.ToggleMobileDropdown | src/shared/Navbar.jsx:481-484 | the mobile state becomes `MobileDropdownToggled` of the old one |
| SharedNavbar.Navbar.ToggleMobileSubmenu | src/shared/Navbar.jsx:486-488 | the mobile state becomes `MobileSubmenuToggled` of the old one |
| HomeNavbar.MainToggled | src/pages/Home/Navbar.jsx:283-288 | the main menu toggles and the submenu closes |
| HomeNavbar.SubToggled | src/pages/Home/Navbar.jsx:147-152 | the submenu toggles (null closes it) and the main menu is kept |
| HomeNavbar.EnterThenLeave | src/pages/Home/Navbar.jsx:190-191 | hovering a category and leaving closes its submenu |
| HomeNavbar.MainToggledTwice | src/pages/Home/Navbar.jsx:140-145 | opening a menu and toggling it again resets the state |
| HomeNavbar.OutsideMouseDown | src/pages/Home/Navbar.jsx:491-495 | a click outside an open menu resets the state; with no menu open, the ref is unattached and nothing changes |
| HomeNavbar.OutsideClickClosesMenus | src/pages/Home/Navbar.jsx:491-495 | after an outside click no menu is open |
| HomeNavbar.MobileMenuToggled | src/pages/Home/Navbar.jsx:501-504 | the drawer flips and the dropdowns reset |
| HomeNavbar.MobileMenuClosed | src/pages/Home/Navbar.jsx:297-300 | following a drawer link resets the dropdowns and closes an open drawer |
| HomeNavbar.OpenThenFollowLink | src/pages/Home/Navbar.jsx:297-300 | opening the drawer and following a link ends with everything closed |
| HomeNavbar.MenuLabel | src/pages/Home/Navbar.jsx:165 | the language key shows a globe label, other keys show themselves |
| HomeNavbar.CategoryLink | src/pages/Home/Navbar.jsx:194 | "/explore/" + lowered category |
| HomeNavbar.PlanLink | src/pages/Home/Navbar.jsx:232 | "/plans/" + lowered plan |
| HomeNavbar.SubjectLinkExtendsCategoryLink | src/pages/Home/Navbar.jsx:215 | a subject link is its category's link plus "/" and the subject's slug |
| HomeNavbar.Navbar.constructor | src/pages/Home/Navbar.jsx:486-487 | menus reset and the drawer closed |
| HomeNavbar.Navbar.HandleToggle | src/pages/Home/Navbar.jsx:283-288 | the state becomes `MainToggled` of the old one |
| HomeNavbar.Navbar.HandleSubToggle | src/pages/Home/Navbar.jsx:290-295 | the state becomes `SubToggled` of the old one |
| HomeNavbar.Navbar.CloseDropdown | src/pages/Home/Navbar.jsx:154-156 | the menus reset |
| HomeNavbar.Navbar.HandleOutsideMouseDown | src/pages/Home/Navbar.jsx:490-500 | the state becomes `OutsideMouseDown` of the old one |
| HomeNavbar.Navbar.ToggleMobileMenu | src/pages/Home/Navbar.jsx:501-504 | the state becomes `MobileMenuToggled` of the old one |
| HomeNavbar.Navbar.CloseMobileMenu | src/pages/Home/Navbar.jsx:297-300 | the state becomes `MobileMenuClosed` of the old one |
| Skills.FormatNumber | src/pages/Home/SkillsSection.jsx:146-150 | below 1000 the plain numeral `num.toString()` (the canonical decimal string, no leading zero); from 1000 to 999999 exactly the value divided by 1000 with suffix 'K'; from a million exactly the value divided by 1000000 with suffix 'M' |
| Skills.ShippedReviewsInThousands | src/pages/Home/SkillsSection.jsx:35-143 | every shipped review count shows with a 'K' |
| Skills.LoadStarted | src/pages/Home/SkillsSection.jsx:327 | loading starts, and nothing else changes |
| Skills.LoadCompleted | src/pages/Home/SkillsSection.jsx:332-334 | the four additional courses are appended, the button hides and loading ends |
| Skills.CategoryChanged | src/pages/Home/SkillsSection.jsx:338-343 | the category is set, the list goes back to the initial four and the button returns |
| Skills.OneLoadListsEight | src/pages/Home/SkillsSection.jsx:326-336 | one load shows courses 1 to 8 and hides the button |
| Skills.CategoryChangeForgetsLoads | src/pages/Home/SkillsSection.jsx:338-343 | a category change after a load drops the loaded courses |
| Skills.CategoryChangeDuringLoad | src/pages/Home/SkillsSection.jsx:326-343 | a load that finishes after a category change still appends and hides the button |
| Skills.RenderedIds | src/pages/Home/SkillsSection.jsx:450 | the cards are the visible courses, in order |
| Skills.RenderedIgnoresCategory | src/pages/Home/SkillsSection.jsx:450 | the rendered cards do not depend on the category |
| Skills.SkillsSection.constructor | src/pages/Home/SkillsSection.jsx:321-324 | the initial state |
| Skills.SkillsSection.HandleLoadMore | src/pages/Home/SkillsSection.jsx:326-336 | the state goes through `LoadStarted` and then `LoadCompleted` |
| Skills.SkillsSection.HandleCategoryChange | src/pages/Home/SkillsSection.jsx:338-343 | the state becomes `CategoryChanged` of the old one |
| Faq.AtMostOneAnswer | src/pages/Home/FAQSection.jsx:376 | at most one answer is shown |
| Faq.CardBorder | src/pages/Home/FAQSection.jsx:314-320 | the open border iff the card is open; the hover border iff it is hovered and not open; plain otherwise |
| Faq.OneOpenBorder | src/pages/Home/FAQSection.jsx:314-320 | at most one card has the open border |
| Faq.FaqSection.constructor | src/pages/Home/FAQSection.jsx:40-41 | nothing open, nothing hovered |
| Faq.FaqSection.ToggleItem | src/pages/Home/FAQSection.jsx:45-47 | the open item is toggled and the card's answer visibility flips |
| Faq.FaqSection.MouseEnter | src/pages/Home/FAQSection.jsx:322 | the card becomes hovered |
| Faq.FaqSection.MouseLeave | src/pages/Home/FAQSection.jsx:323 | nothing is hovered |
| Testimonials.NextSlide | src/pages/Home/TestimonialSection.jsx:106-108 | `(prev + 1) % length`: stays in range, moves forward by one and wraps to 0 after the last |
| Testimonials.TicksAdvance | src/pages/Home/TestimonialSection.jsx:106-108 | n ticks move from slide c to (c + n) mod length |
| Testimonials.FullRoundReturns | src/pages/Home/TestimonialSection.jsx:106-108 | length ticks return to the starting slide |
| Testimonials.ThreeTicksReturn | src/pages/Home/TestimonialSection.jsx:106-108 | with three testimonials, three ticks return to the start |
| Testimonials.Carousel.constructor | src/pages/Home/TestimonialSection.jsx:39 | slide 0 |
| Testimonials.Carousel.Tick | src/pages/Home/TestimonialSection.jsx:106-108 | the slide becomes `NextSlide` of the old one |
| Testimonials.Carousel.GoToSlide | src/pages/Home/TestimonialSection.jsx:208-210 | the slide becomes the dot's index, and only that dot is highlighted |
| SignUp.Years | src/pages/Signup/SignUpPage.jsx:89-90 | 100 years counting down from the current year |
| SignUp.YearsCoverCentury | src/pages/Signup/SignUpPage.jsx:90 | strictly decreasing, holding exactly the current year and the 99 before it |
| SignUp.MonthsAreTwelve | src/pages/Signup/SignUpPage.jsx:91-94 | twelve months, January to December |
| SignUp.InputType | src/pages/Signup/SignUpPage.jsx:189 | a password input for the password field, a text input otherwise |
| SignUp.OneTypeHighlighted | src/pages/Signup/SignUpPage.jsx:169-173 | a selected type highlights exactly one of the user types |
| SignUp.SignUpPage.constructor | src/pages/Signup/SignUpPage.jsx:80-87 | "learner" and the empty form |
| SignUp.SignUpPage.SelectType | src/pages/Signup/SignUpPage.jsx:169 | the type is replaced |
| SignUp.SignUpPage.HandleInputChange | src/pages/Signup/SignUpPage.jsx:102-103 | only the named field changes |
| SignIn.InputChanged | src/pages/Signin/SignInPage.jsx:102-104 | only the named field takes the value; visibility is kept |
| SignIn.VisibilityToggled | src/pages/Signin/SignInPage.jsx:106-108 | the visibility flips and the inputs are kept |
| SignIn.PasswordInputType | src/pages/Signin/SignInPage.jsx:283 | a text input iff the password is shown |
| SignIn.VisibilityRoundTrip | src/pages/Signin/SignInPage.jsx:106-108 | toggling twice restores the form, and each toggle changes the input type |
| SignIn.InputsIndependent | src/pages/Signin/SignInPage.jsx:102-104 | editing email and then password gives the same form in either order |
| SignIn.ExactlyOnePanel | src/pages/Signin/SignInPage.jsx:262 | exactly one of the sign-in and register panels renders |
| SignIn.SignInPage.constructor | src/pages/Signin/SignInPage.jsx:94-100 | empty inputs, password hidden, sign-in tab |
| SignIn.SignInPage.HandleInputChange | src/pages/Signin/SignInPage.jsx:102-104 | the form becomes `InputChanged` of the old one |
| SignIn.SignInPage.TogglePasswordVisibility | src/pages/Signin/SignInPage.jsx:106-108 | the form becomes `VisibilityToggled` of the old one |
| SignIn.SignInPage.SetActiveTab | src/pages/Signin/SignInPage.jsx:240-250 | the tab is replaced |

## Left out

- The Three.js particle backgrounds, canvas drawing, mouse tracking, the animation variants and all markup are not modelled. They draw but hold no page logic.
- Timers are modelled as explicit steps. The testimonial interval is `Carousel.Tick`. The shared navbar's 150 ms submenu close is a pending flag plus `SubmenuTimerFires`.
- SharedNavbar.Navbar.CloseSubmenu: a second call overwrites the stored timer handle, so in the page an earlier timer can no longer be cancelled. The model keeps a single pending flag and does not capture this.
- Skills.SkillsSection.HandleLoadMore: the one-second wait is collapsed into one step. Interleavings with a category change are stated on the pure halves `LoadStarted` and `LoadCompleted` (`CategoryChangeDuringLoad`).
- Skills.FormatNumber: `toFixed(1)` rounding is not modelled: the contract fixes the divisor (1000 or 1000000) and the suffix ('K' or 'M'), but not the one-decimal digits of `num / divisor` that `toFixed(1)` prints, because that is floating-point formatting.
- Skills cards are reduced to their id and review count. Titles, images, prices and ratings only feed the markup.
- Scrolling, clipboard, `window.open`, sharing and `console.log` calls are I/O and are not modelled. This covers the promo "Apply" button, which only logs, and the blog page's progress bar and back-to-top.
- `calculateDiscount`, star-rating rendering outside the review list, and the purely static components are not modelled. Nor are the router and the pages outside the sixteen components.
- CourseSearch.SearchPage.GoToPage: requires a page between 1 and the page count, because the numbered buttons only pass those numbers.
- Testimonials.NextSlide: requires at least one testimonial. With none, the page would compute `NaN` (a remainder by zero), which the model does not represent.
- Text.Lower: only ASCII letters are lowered. JavaScript's full Unicode case mapping is not modelled.
- Text.UpperChar: only ASCII letters are upper-cased. JavaScript's full Unicode case mapping is not modelled.
- ReviewSection.FilterLabel: capitalises only an ASCII first letter, through Text.UpperChar. Every shipped filter label is ASCII.
- The course-duration strings are parsed, checked against the hard-coded total and proved equal to it. The page itself never computes the sum.
- The exact shipped catalogs (courses, posts, creators) are not reproduced as constants. The filters are proved for every catalog instead.

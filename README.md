# Portfolio site: interactive state and layout rules

A model of the small pieces of real logic in a single-page portfolio website
built with React: the project carousel (its wrap-around `activeIndex` and the
per-card 3D layout), the navigation bar (scroll threshold, mobile menu and
anchor scrolling), the skill selection and orbit delays, the testimonial
initials and grid alternation, and the contact form record.

Each stateful component is a class holding the component's React state as
fields. Its methods are the event handlers, and each one's `ensures` ties the
new state to a pure transition function of the old state. The lemmas about
those functions state what the site promises: wrap-around, idempotence,
independence of fields, and so on. The pure computations are functions: the
card layout, the orbit delay, JavaScript's `split(' ')` and the initials, and
the parity rules.

Files, one module per source file:

- `wrappers.dfy`: `Option`, standing for TypeScript's `T | null`.
- `projects.dfy`: module `Projects` (`src/sections/Projects.tsx`).
- `navigation.dfy`: module `Navigation` (`src/components/Navigation.tsx`).
- `skills.dfy`: module `Skills` (`src/sections/Skills.tsx`).
- `testimonials.dfy`: module `Testimonials` (`src/sections/Testimonials.tsx`).
- `contact.dfy`: module `Contact` (`src/sections/Contact.tsx`).

The browser document is abstracted as the set of element ids present on the
page. The ids are `about` (src/sections/About.tsx:101) and `contact`
(src/sections/Contact.tsx:90). A smooth scroll is modelled as the id of the
element that would be brought into view, returned by the method. JavaScript
numbers are modelled as exact `int` and `real` values. The window's `scrollY`
is a parameter of the scroll handler.

## Model

| member | source | states |
|---|---|---|
| Projects.PrevIndex | src/sections/Projects.tsx:128-130 | `goToPrev` maps 0 to n-1 and i to i-1; the result stays in [0, n) and equals (i + n - 1) mod n |
| Projects.NextIndex | src/sections/Projects.tsx:132-134 | `goToNext` maps n-1 to 0 and i to i+1; the result stays in [0, n) and equals (i + 1) mod n |
| Projects.NextTimes | src/sections/Projects.tsx:132-134 | k presses of "next" from a valid index stay within [0, n) |
| Projects.PrevUndoesNext | src/sections/Projects.tsx:128-134 | "prev" and "next" are mutual inverses |
| Projects.NextTimesIsModular | src/sections/Projects.tsx:132-134 | k presses of "next" from i reach (i + k) mod n |
| Projects.NextFullRound | src/sections/Projects.tsx:132-134 | n presses of "next" return to the starting card |
| Projects.Carousel.constructor | src/sections/Projects.tsx:53 | the carousel starts at index 2, which is within range |
| Projects.Carousel.GoToPrev | src/sections/Projects.tsx:128-130 | the previous-arrow keeps the index in range and moves it by `PrevIndex` |
| Projects.Carousel.GoToNext | src/sections/Projects.tsx:132-134 | the next-arrow keeps the index in range and moves it by `NextIndex` |
| Projects.Carousel.SelectCard | src/sections/Projects.tsx:181-202 | a click on card `index` (an index of the project map) makes it active; the range is kept |
| Projects.Carousel.Counter | src/sections/Projects.tsx:254 | the counter shows activeIndex + 1 of the project count, always within [1, count] |
| Projects.Carousel.ActiveTitle | src/sections/Projects.tsx:253 | the title shown is the title of the project the counter points at, which is the card on top (zIndex 10) |
| Projects.StyleAt | src/sections/Projects.tsx:182-200 | zIndex is 10 exactly at offset 0; every other card has zIndex at most 4, depth at most -200 and scale below 1; opacity lies in [0, 1], is positive exactly when abs(offset) <= 2, and is 1 only at offset 0 |
| Projects.CardLayout | src/sections/Projects.tsx:182-184 | the offset is the raw `index - activeIndex`; a card is on top exactly when it is the active one, and invisible exactly when it is more than two places away |
| Projects.ActiveCardStyle | src/sections/Projects.tsx:187-200 | the active card has translateX 0, translateZ 100, rotateY 0, scale 1, opacity 1 and zIndex 10 |
| Projects.ExactlyOneActive | src/sections/Projects.tsx:182-200 | among the n cards exactly one, the active one, has zIndex 10; each other card has zIndex 5 - abs(offset), below 10 |
| Projects.StyleMirrorSymmetric | src/sections/Projects.tsx:187-191 | translateX and rotateY are odd in the offset; translateZ, scale, opacity and zIndex are even |
| Projects.StyleLinear | src/sections/Projects.tsx:187-189 | translateX = 280·offset and rotateY = -25·offset |
| Projects.FartherIsDeeper | src/sections/Projects.tsx:188-200 | translateZ, scale and zIndex strictly decrease with distance, all below the active card's |
| Projects.InactiveFade | src/sections/Projects.tsx:188-191 | an inactive card has translateZ -150 - 50·abs(offset) and scale 0.85 - 0.05·abs(offset); its opacity is 0 beyond distance 2 and 1 - 0.2·abs(offset) otherwise |
| Projects.LayoutDoesNotWrap | src/sections/Projects.tsx:128-134 | with four or more cards, "next" from the last card goes to card 0, yet card 0 is far left and invisible while the last card is active (and symmetrically for "prev") |
| Projects.ProjectLayoutDoesNotWrap | src/sections/Projects.tsx:182-191 | with the five projects and card 4 active, card 0 has offset -4 and opacity 0, though "next" moves to it |
| Projects.ProjectIdsDistinct | src/sections/Projects.tsx:8-44 | project ids are 1..5 in order, so they are distinct React keys |
| Projects.InitialIndexInRange | src/sections/Projects.tsx:53 | the initial index 2 lies in [0, 5) |
| Navigation.Resolve | src/components/Navigation.tsx:24 | an id selector finds an element exactly when its id is on the page, and the element found is the one named |
| Navigation.OnScroll | src/components/Navigation.tsx:15-17 | after a scroll event `isScrolled` is exactly `scrollY > 100`; the menu flag is untouched |
| Navigation.OnNavigate | src/components/Navigation.tsx:23-29 | `scrollToSection` always leaves the menu closed and never changes `isScrolled` |
| Navigation.OnToggle | src/components/Navigation.tsx:78-80 | the menu button flips the menu flag and leaves `isScrolled` alone |
| Navigation.ThresholdIsStrict | src/components/Navigation.tsx:16 | a scroll to exactly 100 gives false; one just past it (100.5) gives true |
| Navigation.ScrollForgetsHistory | src/components/Navigation.tsx:15-17 | no hysteresis: the state after a scroll depends only on the latest offset |
| Navigation.ToggleTwice | src/components/Navigation.tsx:80 | toggling twice restores the state |
| Navigation.NavigateClosesMenu | src/components/Navigation.tsx:28 | navigating is idempotent and closes an open menu |
| Navigation.WorkLinkIsDangling | src/components/Navigation.tsx:4-8 | every link target is an id selector; "About" and "Contact" resolve, "Work" (`#work`) resolves to nothing on the page as built |
| Navigation.IntendedLinksResolve | src/components/Navigation.tsx:4-8 | with a `work` id added, every link target resolves |
| Navigation.NavigationBar.constructor | src/components/Navigation.tsx:11-12 | both flags start false |
| Navigation.NavigationBar.HandleScroll | src/components/Navigation.tsx:15-17 | the scroll listener applies `OnScroll` to the state |
| Navigation.NavigationBar.ScrollToSection | src/components/Navigation.tsx:23-29 | scrolls to the resolved element if there is one (otherwise scrolls nowhere) and closes the menu either way |
| Navigation.NavigationBar.ClickLink | src/components/Navigation.tsx:55-62 | a desktop or overlay link click is `scrollToSection` on that link's target |
| Navigation.NavigationBar.ClickStart | src/components/Navigation.tsx:69-70 | a "Start" button is `scrollToSection('#contact')`; on the page as built it scrolls to `contact` |
| Navigation.NavigationBar.ToggleMenu | src/components/Navigation.tsx:78-80 | the menu button applies `OnToggle` |
| Skills.SkillTableWellFormed | src/sections/Skills.tsx:20-69 | eight skills with pairwise distinct names (their React keys); skill i has angle 45·i |
| Skills.OrbitDelay | src/sections/Skills.tsx:268-269 | the delay of each node in the orbit lies in (-20, 0] seconds |
| Skills.OrbitDelaysEvenlySpaced | src/sections/Skills.tsx:269 | consecutive nodes' delays differ by -(20 / count) |
| Skills.OrbitDelaysDistinct | src/sections/Skills.tsx:269 | different nodes have different delays |
| Skills.SkillOrbitDelays | src/sections/Skills.tsx:269 | with the eight skills, node i has delay -2.5·i seconds |
| Skills.PanelFor | src/sections/Skills.tsx:162-197 | the panel shows the selected skill's name and description exactly when a skill is selected, otherwise the default text |
| Skills.SkillSelection.constructor | src/sections/Skills.tsx:78 | the selection starts as null |
| Skills.SkillSelection.SelectNode | src/sections/Skills.tsx:271 | clicking node i sets the selection to skill i, replacing any earlier one; the selection stays a skill of the table |
| Skills.SkillSelection.Back | src/sections/Skills.tsx:171-172 | "Back to skill tree" clears the selection |
| Skills.SkillSelection.CurrentPanel | src/sections/Skills.tsx:162-170 | the panel's title, when shown, is the name of a skill of the table |
| Testimonials.Split | src/sections/Testimonials.tsx:154 | `split(' ')` gives one more piece than there are spaces, and no piece contains a space |
| Testimonials.JoinSplit | src/sections/Testimonials.tsx:154 | joining the pieces with a space gives back the original string |
| Testimonials.FirstChar | src/sections/Testimonials.tsx:154 | `n[0]` as `join` renders it: the first character of a non-empty piece, and the empty string for an empty piece |
| Testimonials.FirstChars | src/sections/Testimonials.tsx:154 | mapping and joining yields at most one character per piece |
| Testimonials.Initials | src/sections/Testimonials.tsx:154 | `author.split(' ').map(n => n[0]).join('')`: at most one initial per space-separated piece, so at most (spaces + 1); its meaning is given by `InitialsAreWordStarts` and `InitialsShape` |
| Testimonials.InitialsAreWordStarts | src/sections/Testimonials.tsx:154 | the initials are exactly the non-space characters that start the name or follow a space, in order |
| Testimonials.WordStartsFromString | src/sections/Testimonials.tsx:154 | every word start is a non-space character of the string |
| Testimonials.InitialsShape | src/sections/Testimonials.tsx:154 | the initials contain no space; each of them occurs in the author string; there are at most (spaces + 1) of them |
| Testimonials.WordStartsCount | src/sections/Testimonials.tsx:154 | without doubled or trailing spaces, the word starts number the spaces, plus one when the string begins with a word |
| Testimonials.InitialsCountWords | src/sections/Testimonials.tsx:154 | for a name of single-spaced words with no leading or trailing space, there is one initial per word |
| Testimonials.SplitWord | src/sections/Testimonials.tsx:154 | a space-free word followed by a space is split off as the first piece |
| Testimonials.TwoWordInitials | src/sections/Testimonials.tsx:154 | a two-word name's initials are the first letters of the two words |
| Testimonials.AuthorBadge | src/sections/Testimonials.tsx:8-45 | an author of the table written "First Last" gets the badge made of the two first letters |
| Testimonials.AuthorBadges | src/sections/Testimonials.tsx:8-45 | each of the six authors gets a two-letter badge |
| Testimonials.LeadingSpaceIgnored | src/sections/Testimonials.tsx:154 | a leading space yields an empty piece and does not change the initials |
| Testimonials.WordStartsDoubledSpace | src/sections/Testimonials.tsx:154 | a doubled space anywhere starts no extra word |
| Testimonials.DoubledSpaceIgnored | src/sections/Testimonials.tsx:154 | a doubled space anywhere yields an empty piece and does not change the initials |
| Testimonials.WordStartsTrailingSpace | src/sections/Testimonials.tsx:154 | a trailing space starts no word |
| Testimonials.TrailingSpaceIgnored | src/sections/Testimonials.tsx:154 | a trailing space does not change the initials; the empty name has empty initials |
| Testimonials.IsLeft | src/sections/Testimonials.tsx:77 | `index % 2 === 0`: a card is in the left column exactly when its index is a multiple of two; `ParallaxY`, `MarginClass` and `NeighboursAlternate` state what follows from it |
| Testimonials.ParallaxY | src/sections/Testimonials.tsx:77-97 | the parallax target is -12 exactly for even (left) cards and +12 otherwise |
| Testimonials.MarginClass | src/sections/Testimonials.tsx:136 | even cards get `md:mt-0` and odd cards `md:mt-8` |
| Testimonials.NeighboursAlternate | src/sections/Testimonials.tsx:77-136 | adjacent cards have opposite parallax directions and different margins; the pattern repeats every two cards |
| Contact.WithName | src/sections/Contact.tsx:179 | the name input replaces only `name` |
| Contact.WithEmail | src/sections/Contact.tsx:190 | the email input replaces only `email` |
| Contact.WithMessage | src/sections/Contact.tsx:201 | the message textarea replaces only `message` |
| Contact.Submitted | src/sections/Contact.tsx:81-86 | submitting empties all three fields whatever they held |
| Contact.SubmitIdempotent | src/sections/Contact.tsx:85 | two submits give the same result as one, which is the initial form |
| Contact.EditsCommute | src/sections/Contact.tsx:179-201 | edits to different fields can be applied in either order |
| Contact.LastEditWins | src/sections/Contact.tsx:179-201 | the latest edit of a field wins; filling all three gives exactly the values typed |
| Contact.ContactForm.constructor | src/sections/Contact.tsx:16 | the form starts with all three fields empty |
| Contact.ContactForm.OnNameChange | src/sections/Contact.tsx:179 | applies `WithName` to the record |
| Contact.ContactForm.OnEmailChange | src/sections/Contact.tsx:190 | applies `WithEmail` to the record |
| Contact.ContactForm.OnMessageChange | src/sections/Contact.tsx:201 | applies `WithMessage` to the record |
| Contact.ContactForm.HandleSubmit | src/sections/Contact.tsx:81-86 | applies `Submitted` to the record |

## Findings

| source | as written | input that shows it | evidently intended | confidence | as-written member | corrected member |
|---|---|---|---|---|---|---|
| src/components/Navigation.tsx:6 | the "Work" link targets `#work`, but no section has the id `work` (only `about` and `contact` exist) | clicking "Work" | the Projects section carries `id="work"`, so the link scrolls to it | high, not executed | Navigation.WorkLinkIsDangling | Navigation.IntendedLinksResolve |

The link handlers take the document's id set as a parameter. They are stated
for the page as built by `WorkLinkIsDangling` and `ClickStart`, and for the
corrected page by `IntendedLinksResolve`.

## Left out

- Scroll-driven GSAP/ScrollTrigger timelines in every section (entrance, settle and exit phases, pinning, the mobile/desktop branch). They are defined by an external animation library.
- The three.js / react-three-fiber scenes. These are per-frame floating-point animation run by a rendering loop outside the repository.
- DOM side effects: `scrollIntoView`, `addEventListener`/`removeEventListener`, `window.scrollTo` (the logo link) and `alert` on submit. Scrolling is reduced to the id returned by `ScrollToSection`; the alert and listener lifecycle are not modelled.
- Navigation.Resolve: models `document.querySelector` only for `#id` selectors whose id is a plain ASCII identifier starting with a letter or underscore, the only form the navigation passes. General CSS selectors, escapes, non-ASCII identifiers and identifiers starting with a hyphen are not modelled.
- The footer's own `scrollToSection` (src/sections/Footer.tsx:55-60). It is the navigation version without closing a menu, and the same `Resolve` captures it.
- Testimonials.FirstChar: strings are sequences of Unicode scalar values, not of UTF-16 code units as in JavaScript. For a name whose first letter lies outside the Basic Multilingual Plane, `n[0]` in the browser gives a lone surrogate while the model gives the whole character. The same holds for `Split` and `Initials`. The six authors of the table are ASCII, so their badges are unaffected.
- Projects.StyleAt: uses exact real arithmetic, so JavaScript's floating-point rounding is not modelled (`0.85 - 1 * 0.05` evaluates to `0.7999999999999999` in the browser, 0.8 here).
- Skills.OrbitDelay: exact real arithmetic as well. With eight skills every delay (-2.5·i) is exactly representable, so nothing is lost there. The icons of the skill table are not modelled.
- Projects and testimonials display text: the project records keep all their fields. For testimonials only the author names are kept; quotes, roles and companies are display text.
- The browser's `required` and `type="email"` validation of the contact inputs, which gates `onSubmit`. It is browser behaviour defined outside the repository.
- Static sections (About, Certifications, GitHub stats, Process, Hero markup) and the Tailwind configuration. They hold no logic.

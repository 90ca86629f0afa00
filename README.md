# Portfolio site UI state, modelled in Dafny

This project models the logic of a single-page portfolio website built from
React components. Most of the site is markup over hard-coded arrays. The
model covers the parts that hold state or compute something:

- **Portfolio gallery** (`portfolio.dfy`, module `Portfolio`). The six-project
  catalog and the category buttons. `activeFilter` starts at `"All"` and is set
  by a button click. The visible list is the whole catalog under `"All"`.
  Otherwise it is the catalog filtered on `category`. The filter is proved
  sound and complete (with multiplicity) and to keep the catalog order. It is
  also proved on the shipped catalog (`UiUxShowsTwoAndSix`,
  `EveryButtonShowsSomething`).
- **Testimonial carousel** (`testimonials.dfy`, module `Testimonials`). The
  index of the testimonial on display. It wraps forward and back, the timer
  tick performs the same step as the forward arrow, and a pagination dot
  jumps to its own index. JavaScript's truncating `%` is written out. Also
  covered: the five-star rating row.
- **Contact form** (`contact.dfy`, module `Contact`). A four-field record
  updated one field at a time, and the `isSubmitting` flag. Submission is
  modelled as two steps, begin and complete. The delay between them is the
  gap between the two method calls.
- **Navigation bar** (`navbar.dfy`, module `Navbar`). The mobile menu's
  `isOpen` flag and the `scrolled` flag, which holds when the scroll offset
  is strictly above 50.
- **Blog section** (`blog.dfy`, module `Blog`). The category-to-colour lookup
  with its grey default, and the split of the post list into a featured
  first post and a grid of the rest.

Each component's state is a class whose methods update its fields; the
computations they use are functions with lemmas beside them. React's
asynchronous, batched `setState` is modelled as an immediate assignment.

## Model

| member | source | states |
|---|---|---|
| Portfolio.FilterByCategory | src/components/PortfolioSection.jsx:75 | every project kept is a catalog entry with exactly the selected category; the result is no longer than the catalog |
| Portfolio.FilterExactOccurrences | src/components/PortfolioSection.jsx:75 | a project occurs in the filtered list exactly as often as in the catalog when its category matches, and never otherwise |
| Portfolio.FilterComplete | src/components/PortfolioSection.jsx:75 | every catalog project of the selected category is in the filtered list |
| Portfolio.FilterIsSubsequence | src/components/PortfolioSection.jsx:75 | the filtered list is a subsequence of the catalog: relative order is kept |
| Portfolio.FilterEmptyIffNoMatch | src/components/PortfolioSection.jsx:73-75 | the filter is empty exactly when no project carries the filter value; an unknown value is not rejected, it just shows nothing |
| Portfolio.VisibleProjects | src/components/PortfolioSection.jsx:73-75 | the shown list is the full catalog in order under "All"; otherwise a subsequence holding exactly the catalog projects of that category |
| Portfolio.CatalogCategories | src/components/PortfolioSection.jsx:10-71 | the shipped catalog has six projects with the categories listed in order |
| Portfolio.UiUxFilter | src/components/PortfolioSection.jsx:10-75 | on the shipped catalog, "UI/UX Design" keeps the second and the sixth entry |
| Portfolio.UiUxShowsTwoAndSix | src/components/PortfolioSection.jsx:10-75 | on the shipped catalog, "UI/UX Design" shows ids [2, 6] in that order |
| Portfolio.EveryButtonShowsSomething | src/components/PortfolioSection.jsx:8-75 | every button label except "All" shows at least one shipped project |
| Portfolio.ProjectIdsUnique | src/components/PortfolioSection.jsx:10-71 | the shipped projects have pairwise distinct ids |
| Portfolio.PortfolioSection.constructor | src/components/PortfolioSection.jsx:6 | the filter starts at "All", so the whole catalog is shown |
| Portfolio.PortfolioSection.SelectFilter | src/components/PortfolioSection.jsx:109 | a button click sets the filter to exactly its label, unvalidated, and the shown list follows |
| Testimonials.JsRemainder | src/components/TestimonialsSection.jsx:68-74 | JavaScript `%` takes the sign of the dividend; for dividends in [0, 2n) it subtracts n at most once |
| Testimonials.NextIndex | src/components/TestimonialsSection.jsx:68-70 | the forward step stays in [0, n), goes to i + 1 and wraps from n - 1 to 0 |
| Testimonials.PrevIndex | src/components/TestimonialsSection.jsx:72-74 | the backward step stays in [0, n), goes to i - 1 and wraps from 0 to n - 1 |
| Testimonials.NextPrevInverse | src/components/TestimonialsSection.jsx:68-74 | forward then back, and back then forward, return to the start index |
| Testimonials.Ticks | src/components/TestimonialsSection.jsx:61-66 | any number of timer ticks leaves the index in range |
| Testimonials.TicksAdvance | src/components/TestimonialsSection.jsx:62-64 | k ticks from index i land on (i + k) mod n |
| Testimonials.TicksPeriod | src/components/TestimonialsSection.jsx:62-64 | n ticks from any index return to that index |
| Testimonials.RenderStars | src/components/TestimonialsSection.jsx:76-84 | always five stars, star k filled exactly when k < rating |
| Testimonials.RenderStarsCount | src/components/TestimonialsSection.jsx:76-84 | for a whole-number rating, the number of filled stars is min(max(rating, 0), 5) |
| Testimonials.ShippedRatingsAreFive | src/components/TestimonialsSection.jsx:8-49 | every shipped testimonial shows five filled stars |
| Testimonials.Carousel.constructor | src/components/TestimonialsSection.jsx:6 | the carousel starts at index 0 |
| Testimonials.Carousel.Next | src/components/TestimonialsSection.jsx:68-70 | the forward arrow applies the forward step; the index stays in range |
| Testimonials.Carousel.Prev | src/components/TestimonialsSection.jsx:72-74 | the back arrow applies the backward step; the index stays in range |
| Testimonials.Carousel.Tick | src/components/TestimonialsSection.jsx:61-66 | a timer tick makes the same update as the forward arrow |
| Testimonials.Carousel.JumpTo | src/components/TestimonialsSection.jsx:182-185 | a pagination dot sets the index to its own position, which is in range since there is one dot per testimonial |
| Testimonials.Carousel.Shown | src/components/TestimonialsSection.jsx:129 | the displayed testimonial is an element of the list, the one at the current index |
| Testimonials.TickRound | src/components/TestimonialsSection.jsx:61-66 | a round of n ticks brings the carousel back to its index |
| Contact.Update | src/components/ContactSection.jsx:15-20 | a change event sets exactly the named input to the new value; the other three keep theirs |
| Contact.FilledUnderUpdate | src/components/ContactSection.jsx:200-253 | the empty form fails the required-input check; typing a non-empty value keeps a filled form filled, typing "" makes it unfilled |
| Contact.FormExtensionality | src/components/ContactSection.jsx:6-11 | the record is determined by its four inputs: two records agreeing on name, email, subject and message are equal |
| Contact.UpdateOverrides | src/components/ContactSection.jsx:15-20 | a later change to the same input overrides an earlier one |
| Contact.UpdatesCommute | src/components/ContactSection.jsx:15-20 | changes to two different inputs commute |
| Contact.UpdateSameValue | src/components/ContactSection.jsx:15-20 | re-entering the value an input holds leaves the record unchanged |
| Contact.ContactForm.constructor | src/components/ContactSection.jsx:6-13 | all four inputs start empty and no submission is in flight |
| Contact.ContactForm.HandleInputChange | src/components/ContactSection.jsx:15-20 | the record becomes the update of one input; the submitting flag is untouched |
| Contact.ContactForm.BeginSubmit | src/components/ContactSection.jsx:22-24 | a submit is taken only when the button is enabled and every required input is filled; then the flag is set; the contents never change |
| Contact.ContactForm.CompleteSubmit | src/components/ContactSection.jsx:29-37 | after the wait, all four inputs are cleared whatever they held and the flag is cleared |
| Contact.SubmitWithEditsDuringWait | src/components/ContactSection.jsx:22-37 | a taken submission ends with an empty form and the button enabled, even if inputs were edited during the wait |
| Navbar.ThresholdIsStrict | src/components/Navbar.jsx:11 | offset 50 is not scrolled, offset 51 is |
| Navbar.ScrolledMonotone | src/components/Navbar.jsx:11 | the scrolled test is monotone in the offset |
| Navbar.NavbarState.constructor | src/components/Navbar.jsx:6-7 | the menu starts closed and the bar unscrolled |
| Navbar.NavbarState.HandleScroll | src/components/Navbar.jsx:10-12 | a scroll event sets `scrolled` to offset > 50 and leaves the menu alone |
| Navbar.NavbarState.ToggleMenu | src/components/Navbar.jsx:80 | the menu button flips `isOpen` and leaves `scrolled` alone |
| Navbar.NavbarState.ScrollToSection | src/components/Navbar.jsx:17-32 | navigation to one of the menu's section selectors closes the menu whether or not the target was found, and requests a scroll only when it was |
| Navbar.ToggleTwice | src/components/Navbar.jsx:80 | two presses of the menu button restore the menu state |
| Blog.GetCategoryColor | src/components/BlogSection.jsx:76-85 | the table's colour for the five known categories; the grey default exactly for every other string |
| Blog.KnownColorsDistinct | src/components/BlogSection.jsx:77-83 | the five known categories get five different colours |
| Blog.ShippedPostsHaveKnownColors | src/components/BlogSection.jsx:5-66 | every shipped post's category is in the table, so none gets the default |
| Blog.Featured | src/components/BlogSection.jsx:119 | the featured post is the first post; there is none exactly when the list is empty |
| Blog.Grid | src/components/BlogSection.jsx:174 | the grid holds one post fewer than the list (none for an empty list) |
| Blog.FeaturedThenGrid | src/components/BlogSection.jsx:119-174 | the featured post followed by the grid is the whole list, in order |
| Blog.ShippedSplit | src/components/BlogSection.jsx:5-66 | on the shipped list post 1 is featured and the grid has five posts |

## Left out

- Presentation: JSX markup, Tailwind classes, framer-motion animations and icons.
- Browser I/O: `querySelector`, `scrollIntoView`, and the registration and removal of the window scroll listener (Navbar.jsx:13-14). `Navbar.NavbarState.ScrollToSection` takes "was the element found" as a parameter.
- Timers. The 5-second `setInterval` and its cleanup are left out; a tick is an explicit call of `Testimonials.Carousel.Tick`. The 2-second `setTimeout` is the gap between `BeginSubmit` and `CompleteSubmit`. As in the source, manual navigation does not reset the timer.
- The `alert` after a submission: a UI side effect with no state.
- `formatDate`: it calls the JavaScript `Date` library, which is not part of this model.
- The hero parallax, the scroll-animation library set-up, and the purely static sections (services, about, footer, hero, app shell): none of them hold state.
- Contact.ContactForm.BeginSubmit: the `type="email"` format check the browser applies before submitting is not modelled; only the `required` non-empty check is.
- Contact.Field: a change event naming an input outside the four would add a new key to the JavaScript record; the form wires only these four inputs, so the model has exactly four fields.
- Blog.GetCategoryColor: a plain object lookup in JavaScript also finds inherited properties, so a category spelled like `"constructor"` or `"toString"` would yield a function rather than the grey default. The model treats the table as a plain map. No shipped category is affected.
- Blog.Featured: the source reads `blogPosts[0].image` and would throw on an empty list. The model returns `None` instead.
- Navbar.NavbarState.HandleScroll: browser scroll offsets can be fractional; the model takes whole pixels.
- Testimonials.Carousel.constructor: it requires a non-empty list. With no testimonials the source throws at its first render, when it reads the rating of entry 0. The shipped list has four.
- Testimonials.RenderStars: ratings are taken as whole numbers. In the source a fractional rating such as 4.5 fills ceil(rating) stars, clamped to [0, 5]. Every shipped rating is the literal 5.

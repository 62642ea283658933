# Zenith Solar site behaviour, modelled in Dafny

The Zenith Solar marketing site is mostly static markup and animation. This
project models the few pieces of it that hold state or compute something:

- the **solar savings calculator** on the home page and in the hero section
  (`wrappers.dfy`, `rounding.dfy`, `savings_estimator.dfy`). A slider picks
  a monthly bill from $50 to $400, starting at $142. From it the calculator
  derives yearly savings, a panel count, a payback figure, the monthly
  saving and the slider's fill percentage. The JavaScript number expressions
  are evaluated on exact rationals, in their left-to-right order. `Math.round`
  and `toFixed` are modelled as functions on those exact values. Both copies
  of the calculator (`src/pages/Home.tsx` and `src/sections/Hero.tsx`) have
  the same state and the same yearly, panel and payback formulas, so one
  `Calculator` class models both. Only the home page shows the monthly
  figure; the hero has none;
- the **testimonial carousel** (`testimonials.dfy`): an index into three
  testimonials, moved by the arrows with JavaScript `%` and set by the dots;
- the **FAQ accordion** (`faq.dfy`): one open question or none, toggled by a click;
- the **"how it works" step selector** (`how_it_works.dfy`): one active
  step, set by a click on its card or its dot, with no way to deselect;
- the **quote-request form session** (`contact_form.dfy`): five text fields
  and a `submitted` flag. The contact page and the contact section have
  identical sessions and share one model. The 3-second reset timer is an
  explicit `TimerFires` event;
- the **navigation header** (`navigation.dfy`): the scrolled flag (strictly
  more than 100 pixels), exact-match link highlighting, the mobile menu flag
  and the "glass" header style;
- `indicators.dfy` counts how many list items a single stored index marks
  as active. The carousel dots, the FAQ and the steps use it to state
  "exactly one" and "at most one".

What the verified contracts establish, beyond the table below:

- Yearly savings are exactly `(2 * bill * 51 + 5) / 10`. The exact value
  10.2 × bill never has a fractional part of one half, so `Math.round` never
  meets a tie.
- Because the payback expression `bill * 12 * 6 / savings / 12` is
  evaluated left to right, its value is `6 * bill / savings`. That lies in
  [0.55, 0.65) for every non-zero bill, so the page always shows a payback
  of "0.6". It is not a number of years near 7.1. The code has no guard
  against zero savings. A bill of 0 would give `0 / 0`, which is `NaN` in
  JavaScript and `None` here; no other bill does.
- The slider only produces integers in [50, 400], so the calculator state
  always shows positive yearly savings, at least six panels, payback "0.6"
  and a fill between 0% and 100%, and the home page a positive monthly figure.

Places where the code does something other than a reader might expect; the
model follows the code:

- A payback "in years" suggests about 7.1 years at $142. The code shows "0.6".
- The payback divides by the yearly savings with no guard against zero.
- A required field holding only spaces is accepted. The browser's
  `required` attribute only rejects an empty value, and the code adds no
  check of its own.
- A carousel jump to an out-of-range index is not checked. The dots are
  generated from the list, so every jump is in range, and `SelectDot`
  requires that.

## Model

| member | source | states |
|---|---|---|
| `Rounding.MathRound` | src/pages/Home.tsx:9-10 | `Math.round(x)` is within one half of x, and a half goes up |
| `Rounding.ToFixed0` | src/pages/Home.tsx:143 | `toFixed(0)` is within one half of x, keeps its sign, and a half goes to the larger magnitude |
| `Rounding.ToFixed1` | src/pages/Home.tsx:11 | `toFixed(1)`, counted in tenths, is within 0.05 of x, keeps its sign, and a half-tenth goes to the larger magnitude |
| `SavingsEstimator.YearlySavings` | src/pages/Home.tsx:9 | yearly savings are within strictly less than one half of 10.2 × bill, so the rounding is never at a tie |
| `SavingsEstimator.YearlySavingsClosedForm` | src/pages/Home.tsx:9 | yearly savings equal the integer division (2 × bill × 51 + 5) / 10 for every bill |
| `SavingsEstimator.YearlySavingsSign` | src/sections/Hero.tsx:15 | yearly savings have the sign of the bill: positive for any positive bill, zero only at 0 |
| `SavingsEstimator.PanelCount` | src/sections/Hero.tsx:16 | the panel count is at least 6, and above 6 it is the nearest integer to bill / 12 |
| `SavingsEstimator.PanelCountClosedForm` | src/pages/Home.tsx:10 | the panel count equals max(6, (bill + 6) / 12), with halves rounding up |
| `SavingsEstimator.PanelCountMonotone` | src/pages/Home.tsx:10 | a larger bill never gives fewer panels |
| `SavingsEstimator.PaybackRatio` | src/pages/Home.tsx:11 | whenever the yearly savings are non-zero, the value inside the payback expression is positive |
| `SavingsEstimator.PaybackTenths` | src/pages/Home.tsx:11 | the unguarded payback division yields no number (`NaN`) exactly when the bill is 0 |
| `SavingsEstimator.PaybackRatioReduces` | src/sections/Hero.tsx:17 | with left-to-right evaluation the payback value is 6 × bill / yearly savings |
| `SavingsEstimator.PaybackRatioBounds` | src/pages/Home.tsx:11 | for every non-zero bill the payback value lies in [0.55, 0.65) |
| `SavingsEstimator.PaybackAlwaysPointSix` | src/pages/Home.tsx:134 | the payback shown, in "~Xy" on the home page and "~X yrs" in the hero, is "0.6" for every non-zero bill |
| `SavingsEstimator.MonthlySavings` | src/pages/Home.tsx:143 | the home page's monthly figure is never negative for a non-negative bill and is at least $1 for a positive bill |
| `SavingsEstimator.MonthlySavingsNearTwelfth` | src/pages/Home.tsx:143 | twelve times the monthly figure is within 6 of the yearly savings |
| `SavingsEstimator.MonthlySavingsClosedForm` | src/pages/Home.tsx:142-144 | for a non-negative bill the monthly figure is (yearly + 6) / 12, halves rounding up |
| `SavingsEstimator.PanelHalfRoundsUp` | src/pages/Home.tsx:10 | a slider bill can put the panel rounding exactly at a half: $78 is 6.5 panels, shown as 7 |
| `SavingsEstimator.MonthlyHalfRoundsUp` | src/pages/Home.tsx:143 | a slider bill can put the monthly rounding exactly at a half: $50 gives 510 / 12 = 42.5, shown as $43 |
| `SavingsEstimator.SliderFill` | src/pages/Home.tsx:111 | the fill is at least 0% for a bill of $50 or more and at most 100% for a bill of $400 or less |
| `SavingsEstimator.SliderFillBounds` | src/pages/Home.tsx:111 | on the slider's range the fill is within [0, 100]; it is 0 exactly at $50 and 100 exactly at $400 |
| `SavingsEstimator.SliderFillMonotone` | src/sections/Hero.tsx:166 | the fill grows strictly with the bill |
| `SavingsEstimator.EstimateFor` | src/pages/Home.tsx:9-11 | for every bill at least 6 panels; payback "0.6" for every non-zero bill and none (`NaN`) at 0; positive yearly and monthly savings for a positive bill |
| `SavingsEstimator.InitialEstimate` | src/pages/Home.tsx:6-11 | at the initial $142: $1448 a year, 12 panels, payback "0.6", $121 a month |
| `SavingsEstimator.Calculator.constructor` | src/sections/Hero.tsx:12 | the bill starts at 142, inside the slider's range |
| `SavingsEstimator.Calculator.HandleSliderChange` | src/pages/Home.tsx:13-15 | the slider's value, an integer in [50, 400], replaces the bill |
| `SavingsEstimator.Calculator.Shown` | src/pages/Home.tsx:9-11 | for any slider state: positive yearly savings, at least 6 panels, payback "0.6", fill within [0, 100]; the positive monthly figure is the home page's only, as the hero shows none |
| `Indicators.MarkedCount` | src/sections/HowItWorks.tsx:125 | comparing positions 0..n-1 with one stored index marks at most one position, and one exactly when the index is in range |
| `Testimonials.JsRemainder` | src/sections/Testimonials.tsx:104 | JavaScript `%` gives a remainder in [0, n) for a non-negative dividend and in (-n, 0] for a negative one |
| `Testimonials.Next` | src/sections/Testimonials.tsx:99-101 | `next` from any index of at least -1 lands inside the list |
| `Testimonials.Prev` | src/sections/Testimonials.tsx:103-105 | `prev` from any index of at least 1 - N lands inside the list |
| `Testimonials.StepsAndWraps` | src/sections/Testimonials.tsx:100-104 | inside the list the arrows move by one; `next` from 2 gives 0 and `prev` from 0 gives 2 |
| `Testimonials.NextPrevInverse` | src/sections/Testimonials.tsx:99-105 | `prev(next(i)) == i` and `next(prev(i)) == i` for every index in range |
| `Testimonials.NextCycle` | src/sections/Testimonials.tsx:100 | three presses of `next` return to the starting index |
| `Testimonials.Carousel.constructor` | src/sections/Testimonials.tsx:38 | the carousel starts at index 0 |
| `Testimonials.Carousel.NextTestimonial` | src/sections/Testimonials.tsx:99-101 | the index becomes `next` of the old index and stays in range |
| `Testimonials.Carousel.PrevTestimonial` | src/sections/Testimonials.tsx:103-105 | the index becomes `prev` of the old index and stays in range |
| `Testimonials.Carousel.SelectDot` | src/sections/Testimonials.tsx:172-175 | a dot click sets the index to that dot's position |
| `Testimonials.Carousel.CurrentTestimonial` | src/sections/Testimonials.tsx:107 | the current testimonial is always in the list, and it is the one at the active index |
| `Testimonials.Carousel.DotActive` | src/sections/Testimonials.tsx:177 | a dot is highlighted exactly when it is the dot of the testimonial being shown |
| `Testimonials.Carousel.ActiveDotCount` | src/sections/Testimonials.tsx:176-177 | exactly one dot is highlighted: some dot is, and no two are |
| `Faq.Toggled` | src/sections/FAQ.tsx:82-84 | a toggle closes everything exactly when the clicked question was open; otherwise it opens exactly the clicked question |
| `Faq.OpenCount` | src/sections/FAQ.tsx:115 | at most one question renders open; one does exactly when the stored index is a listed question |
| `Faq.ToggleTwiceCloses` | src/sections/FAQ.tsx:83 | two clicks on a closed question open it and then leave nothing open |
| `Faq.ToggleOpensOnlyClicked` | src/sections/FAQ.tsx:83 | a click never opens a question other than the clicked one |
| `Faq.Accordion.constructor` | src/sections/FAQ.tsx:37 | the first question starts open |
| `Faq.Accordion.ToggleFaq` | src/sections/FAQ.tsx:82-84 | the open index becomes the toggle of the old one and stays a listed question or none |
| `Faq.Accordion.IsOpen` | src/sections/FAQ.tsx:115 | a question renders open exactly when a click on it would leave nothing open |
| `Faq.Accordion.OpenItems` | src/sections/FAQ.tsx:114-115 | at most one question is open, and none is exactly when no listed position is open |
| `HowItWorks.StepSelector.constructor` | src/sections/HowItWorks.tsx:32 | the first step starts active |
| `HowItWorks.StepSelector.SelectStep` | src/sections/HowItWorks.tsx:135 | a click on a step's card or on its dot (line 179) makes that step active whatever was active before; a click on the active step keeps it active |
| `HowItWorks.StepSelector.IsActive` | src/sections/HowItWorks.tsx:125 | a card is highlighted exactly when it is a listed step with the active step's number |
| `HowItWorks.StepSelector.ActiveCount` | src/sections/HowItWorks.tsx:123-125 | exactly one of the three steps is active: some step is, and no two are |
| `ContactForm.FormData.With` | src/pages/Contact.tsx:14-16 | a change sets the named field to the new value and leaves the other four as they were |
| `ContactForm.FormData.RequiredFilled` | src/pages/Contact.tsx:146-162 | the form may submit exactly when every `required` field, name and email, is non-empty |
| `ContactForm.WithLaws` | src/sections/Contact.tsx:77-79 | writing a field's own value back changes nothing, and of two writes to one field the last wins |
| `ContactForm.FormSession.constructor` | src/pages/Contact.tsx:5-12 | all five fields start empty and nothing is submitted |
| `ContactForm.FormSession.HandleChange` | src/sections/Contact.tsx:77-79 | while the form is shown, a change event updates exactly the named field |
| `ContactForm.FormSession.HandleSubmit` | src/pages/Contact.tsx:18-20 | submitting sets the flag and leaves every field as typed |
| `ContactForm.FormSession.TimerFires` | src/pages/Contact.tsx:21-24 | the timer callback returns to editing with every field empty |
| `ContactForm.FormSession.SubmitPressed` | src/pages/Contact.tsx:141-162 | the submission goes through exactly when name and email are non-empty; a blocked one changes nothing |
| `ContactForm.SessionRoundTrip` | src/sections/Contact.tsx:81-88 | fill in name and email, submit, let the timer fire: the submission is accepted with exactly the typed name and email and the other fields empty, and the session is back to its initial state |
| `Navigation.IsActive` | src/components/Navigation.tsx:32 | a link is active exactly when the pathname equals its href character by character |
| `Navigation.NoNormalisation` | src/components/Navigation.tsx:32 | a trailing slash or a change of case leaves a link unhighlighted |
| `Navigation.UsesGlass` | src/components/Navigation.tsx:37 | the header is transparent exactly when unscrolled on the home route |
| `Navigation.ActiveLinkCountExact` | src/components/Navigation.tsx:24-32 | with distinct hrefs, a pathname highlights one link if it is one of the hrefs and none otherwise |
| `Navigation.AtMostOneActiveLink` | src/components/Navigation.tsx:32 | for the five site links at most one is highlighted, and one is exactly on a listed route |
| `Navigation.GlassAwayFromHome` | src/components/Navigation.tsx:37 | on any route other than "/" the header is glass whatever the scroll position |
| `Navigation.NavState.constructor` | src/components/Navigation.tsx:6-7 | the header starts unscrolled with the mobile menu closed |
| `Navigation.NavState.HandleScroll` | src/components/Navigation.tsx:11-13 | the scrolled flag is true exactly when the offset is strictly above 100; nothing else changes |
| `Navigation.NavState.ToggleMobileMenu` | src/components/Navigation.tsx:77 | the menu button flips the mobile menu flag and changes nothing else |
| `Navigation.NavState.Glass` | src/components/Navigation.tsx:37-39 | the header is glass exactly when scrolled or when the Home link is not the highlighted one |
| `Navigation.NavState.RouteChange` | src/components/Navigation.tsx:20-22 | any route change closes the mobile menu |
| `Navigation.MenuAndScrollExample` | src/components/Navigation.tsx:12 | two menu presses restore the menu, and an offset of exactly 100 is not "scrolled" |

## Left out

- Floating point: the calculator's expressions are evaluated on exact rationals, not doubles. Some slider bills put a rounding exactly at a half: bill / 12 for 29 bills ($54, $66, $78, ...) and the monthly yearly / 12 for 18 bills ($50, $70, $90, $110, ...). Those halves are exactly representable doubles and IEEE division is correctly rounded, so the double quotient is the same half and rounds up as modelled. A quotient that is not a half cannot be rounded across one, since the half is itself representable. The yearly product has a fraction that is a multiple of 0.2, and the payback value stays near 0.59, so neither comes near a rounding boundary. The displayed figures are therefore the ones the model computes.
- String formatting: `toFixed` yields a number of units or tenths here rather than a string, and `toLocaleString` (the thousands separator on the yearly savings, src/sections/Hero.tsx:216) is not modelled. The yearly savings shown are the computed integer.
- `Rounding.ToFixed0`: does not model the exponential notation `toFixed` uses for magnitudes of 10^21 and above; no bill comes near that.
- `Testimonials.JsRemainder`: does not state that the remainder is congruent to the dividend modulo n; its range is what the carousel needs.
- The animation timelines registered in each section's effect hooks are cosmetic and live in an animation library outside this model.
- The window scroll listener registration and removal, `scrollIntoView`, and the router's `useLocation` are browser and router plumbing. A scroll event is the `HandleScroll(scrollY)` call; a route change is `RouteChange(newPathname)`.
- The 3000 ms delay of the reset timer is not modelled; its callback is the explicit `TimerFires` event. The code does not cancel the timer on unmount, and unmounting is not modelled.
- Browser validation beyond the non-empty `required` check, such as email syntax for `type="email"`, is done by the browser and not by the code.
- The texts of the testimonial quotes, FAQ questions and answers, and step descriptions are display content; only their counts, and the ids and names needed for the lookups, are modelled.
- Rendering, CSS classes, the static pages and sections, the footer and the styling configuration have no behaviour to model.

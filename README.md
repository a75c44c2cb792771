# WeMove shuttle app — a Dafny model of its state and handlers

WeMove is a single-page campus shuttle app. One component (`src/App.js`)
holds the whole state: which screen is showing, the list of electric
shuttles ("EVs") with their free seats, the selected shuttle, the rider's
wallet, ride count, star ratings and feedback entries, the search query and
the chosen route. Its button handlers move between screens, take the fare
and a seat when the rider boards, top up the wallet and store feedback. A
tolerant filter picks the shuttles the home and list screens show.

The model has six modules:

- `Wrappers` — `Option` (JavaScript's `null` against an object) and `Math.max`.
- `Text` — the string operations the app relies on: `trim` (with the exact
  ECMAScript whitespace set), `toLowerCase` on ASCII letters, `includes`
  and `split(sep)[0]`, each with a reference reading and lemmas.
- `Fleet` — the shuttle record, the three seed shuttles, the seat update of
  `finalizeBoarding`, and the lookup `evs.find(x => x.id === id)`.
- `Search` — `filteredEVs`: a case-insensitive search over title and route,
  restricted to shuttles whose route mentions the selected route's origin.
- `Account` — the fare, the wallet charge of `doPayment`, the rating and
  feedback updates of `submitFeedback`, and the mean rating.
- `Session` — the class `App` with the component's nine state fields, the
  render cascade (`ViewOf`), and one method per button handler. Every
  handler requires the screen that renders its button and the invariant
  `Valid()`, may change only the fields it names, and keeps `Valid()`.

`Valid()` says: every shuttle's label reads "No seats" exactly when it has
none and no count is negative; shuttle ids are distinct; the wallet and ride
count are not negative; every rating is one to five stars; every feedback
text is non-empty and trimmed; a shuttle with the selected id is still
listed (after boarding it is the boarded copy, not the stored snapshot);
and the details and payment screens always have a shuttle selected. From
this it follows that the "Unknown screen" fallback is reached only through
the bottom navigation's "Track" buttons (`FallbackOnlyThroughTrack`), and
that `latestEV` always finds the listed copy of the selection (`Fleet.Latest`).

## Model

| member | source | states |
|---|---|---|
| `Wrappers.Max` | src/App.js:149 | `Math.max`: at least both arguments and equal to one of them |
| `Fleet.Boarded` | src/App.js:149 | one seat fewer but never below zero, label "No seats" exactly when the new count is zero, otherwise "Seats available"; id, title, eta and route kept; the result is consistent |
| `Fleet.BoardSelected` | src/App.js:149 | same length; every shuttle with the selected id is boarded, every other one is kept in place |
| `Fleet.Find` | src/App.js:370 | `None` exactly when no shuttle has the id; otherwise the first shuttle in list order with that id |
| `Fleet.Latest` | src/App.js:370 | the listed copy of the selected shuttle when its id is listed, the stored snapshot otherwise |
| `Fleet.BoardingKeepsFleetValid` | src/App.js:149 | boarding keeps every shuttle consistent, the ids distinct, and the set of listed ids unchanged |
| `Fleet.BoardingTakesOneSeat` | src/App.js:149 | with distinct ids, boarding lowers the total of free seats by exactly one when the selected shuttle had a seat, and by none otherwise |
| `Fleet.NoneSelectedUnchanged` | src/App.js:149 | boarding an id that is not listed leaves the list unchanged |
| `Fleet.FindAfterBoarding` | src/App.js:149 | looking the shuttle up after boarding finds the boarded copy of what was found before |
| `Fleet.SeedSeats` | src/App.js:20-24 | in the seed data EV-02 has two seats and EV-03 none |
| `Fleet.InitialEVsValid` | src/App.js:20-24 | the seed shuttles are consistent and their ids distinct |
| `Text.IsWhitespace` | src/App.js:164 | the characters `trim` strips (ECMAScript WhiteSpace and LineTerminator); lower-casing leaves each of them unchanged |
| `Text.SkipLeading` | src/App.js:164 | the first non-whitespace index at or after `i`; everything skipped is whitespace |
| `Text.SkipTrailing` | src/App.js:164 | the end of the text once trailing whitespace is dropped; everything dropped is whitespace |
| `Text.Trim` | src/App.js:164 | `trim()`: the result neither starts nor ends with whitespace |
| `Text.TrimIsCore` | src/App.js:164 | the trimmed text is a contiguous middle part of the input and everything cut off is whitespace |
| `Text.TrimEmptyIffBlank` | src/App.js:156 | `text.trim().length > 0` exactly when the text is not all whitespace |
| `Text.TrimFixesTrimmed` | src/App.js:156 | a text is its own trim exactly when neither end is whitespace |
| `Text.TrimIdempotent` | src/App.js:156 | trimming twice is trimming once |
| `Text.LowerChar` | src/App.js:164 | lower-cases one ASCII capital; the result is never a capital and anything else is kept |
| `Text.Lower` | src/App.js:164 | `toLowerCase()` on ASCII: same length, each character lower-cased on its own |
| `Text.LowerIsLower` | src/App.js:166 | no upper-case letter is left and lower-casing again changes nothing |
| `Text.LowerPrefix` | src/App.js:166 | lower-casing commutes with taking a prefix |
| `Text.LowerAbsent` | src/App.js:166 | a character that is no lower-case letter appears after lower-casing only if it appeared before |
| `Text.Contains` | src/App.js:166 | `includes`: the empty needle is always included, and an included needle is no longer than the text |
| `Text.ContainsOccurs` | src/App.js:166 | what `includes` finds occurs at some index |
| `Text.OccursContained` | src/App.js:166 | what occurs at some index, `includes` finds |
| `Text.ContainsIffOccurs` | src/App.js:166 | `includes` holds exactly when the needle occurs at some index |
| `Text.BeforeFirst` | src/App.js:165 | `split(sep)[0]`: a prefix of the text with no earlier occurrence of the separator, followed by the separator unless it is the whole text |
| `Text.BeforeFirstIsFirst` | src/App.js:165 | the prefix up to the first occurrence of the separator is exactly what `split(sep)[0]` returns |
| `Text.MissingCharNotContained` | src/App.js:166 | a needle with a character the text lacks is not included |
| `Text.ContainsInSuffix` | src/App.js:166 | what a suffix includes, the whole text includes |
| `Search.NormalizedQuery` | src/App.js:164 | `query.trim().toLowerCase()`: empty exactly when the query is blank, and free of capital letters |
| `Search.OriginToken` | src/App.js:165 | the route token: empty exactly when the text before the first " to " is blank (so for an empty route), and free of capital letters |
| `Search.Matches` | src/App.js:166 | the filter's test: an empty query and token accept every shuttle; with a token, an accepted shuttle's lower-cased route includes it |
| `Search.SelectMatching` | src/App.js:166 | `evs.filter(...)`: an order-preserving subsequence holding exactly the matching shuttles, each as many times as it is listed and the others not at all |
| `Search.FilteredEVs` | src/App.js:163-167 | a subsequence of the list; a shuttle is kept, as many times as it is listed, exactly when the trimmed lower-cased query is empty or in its lower-cased title or route, and the selected route's origin token is empty or in its lower-cased route |
| `Search.FilteredFromList` | src/App.js:270 | every shuttle the filter shows is in the list and its id is listed, so `OpenDetails` accepts it |
| `Search.SubsequenceMembers` | src/App.js:166 | every element of a subsequence is an element of the whole |
| `Search.SubsequenceNoLonger` | src/App.js:166 | the filter never shows more shuttles than the list holds |
| `Search.SelectAllWhenAllMatch` | src/App.js:166 | when every shuttle matches, the filter is the identity |
| `Search.EmptyFilterKeepsAll` | src/App.js:164-166 | a blank query with an empty origin token keeps the whole list |
| `Search.DefaultOriginToken` | src/App.js:165 | the default route "Hostel 6 to Main gate" gives the origin token "hostel 6" |
| `Search.SeedEmptyQueryKeepsAll` | src/App.js:163-167 | on the seed data and default route the empty query shows all three shuttles |
| `Search.SeedQueryBuggyKeepsAll` | src/App.js:163-167 | on the seed data and default route the query "buggy" shows all three shuttles |
| `Search.SeedQueryEv02` | src/App.js:163-167 | on the seed data and default route the query "ev-02" shows exactly the shuttle with id 2 |
| `Account.WalletAfterPayment` | src/App.js:142-147 | paying by UPI with at least the fare takes exactly the fare and stays non-negative; any other payment leaves the wallet as it is |
| `Account.PaymentNotice` | src/App.js:145 | the low-wallet notice is raised exactly when paying by UPI with less than the fare |
| `Account.PaymentKeepsWalletNonNegative` | src/App.js:144 | a payment never takes a non-negative wallet below zero and never adds to it |
| `Account.RatingsAfter` | src/App.js:157 | a one-to-five rating is appended at the end; anything else leaves the ratings unchanged |
| `Account.TidySingleton` | src/App.js:156 | a single tidy entry makes a tidy list |
| `Account.FeedbacksAfter` | src/App.js:156 | a text that is not all whitespace puts a new entry with the trimmed text in front; a blank one changes nothing; the new entry is non-empty and trimmed |
| `Account.FeedbacksStayTidy` | src/App.js:156 | submitting feedback keeps every stored text non-empty and trimmed |
| `Account.AverageRating` | src/App.js:160 | the mean of the ratings, zero when there are none |
| `Account.SumOfStars` | src/App.js:160 | the sum of star ratings lies between one and five stars per rating |
| `Account.AverageWithinStars` | src/App.js:160 | the mean of star ratings lies between one and five |
| `Account.SampleAverages` | src/App.js:81 | the seed ratings [5, 4] average 4.5 and a single 3 averages 3 |
| `Session.ViewOf` | src/App.js:182-530 | the fallback view is shown exactly for the "track" screen or the details screen with nothing selected; the details view only with a selection |
| `Session.FallbackOnlyThroughTrack` | src/App.js:523-530 | when the details and payment screens always have a selection, the fallback is reached exactly through "track" |
| `Session.SeedFeedbackTidy` | src/App.js:82 | the seed feedback text is non-empty and trimmed |
| `Session.TidyWhenEndsVisible` | src/App.js:156 | a non-empty text that starts and ends with visible characters is tidy and `trim()` leaves it unchanged |
| `Session.App.Valid` | src/App.js:64-82 | the state invariant every handler keeps; under it the fallback view is shown exactly on the "track" screen |
| `Session.App.constructor` | src/App.js:64-82 | the fresh state: sign-in screen, the seed shuttles, nothing selected, wallet 150, 3 rides, ratings [5, 4], one seed feedback entry, empty query, the first seed route; the invariant holds |
| `Session.App.SubmitSignIn` | src/App.js:131 | "Sign in" goes to the home screen, nothing else changes |
| `Session.App.FindEvs` | src/App.js:242 | "Find EVs nearby" goes to the list screen |
| `Session.App.BackToHome` | src/App.js:328 | "Back" on the list goes home |
| `Session.App.OpenDetails` | src/App.js:132 | opening a shown shuttle selects it and shows its details |
| `Session.App.BackToList` | src/App.js:376 | "Back" on the details goes to the list |
| `Session.App.BoardOrPay` | src/App.js:417 | "Board / Pay" is refused with "No seats available." and the details screen kept when the current copy of the selection has no seat; otherwise it goes to payment |
| `Session.App.BackToDetails` | src/App.js:450 | "Back" on payment goes to the details |
| `Session.App.PayAndBoard` | src/App.js:461 | with no seat left: the notice, back to the details, list, wallet and rides unchanged; otherwise the UPI payment: wallet charged as `WalletAfterPayment` says, the selected shuttle boarded, one more ride, confirmation screen |
| `Session.App.DoPayment` | src/App.js:142-147 | on every branch the wallet becomes `WalletAfterPayment`, the notice is `PaymentNotice`, and boarding happens exactly once |
| `Session.App.FinalizeBoarding` | src/App.js:148-152 | the list becomes `BoardSelected` for the selected id, one more ride, confirmation screen; the invariant holds |
| `Session.App.GoToProfile` | src/App.js:478 | "Go to Profile" on the confirmation goes to the profile |
| `Session.App.NavHome` | src/App.js:302 | "Home" in the bottom navigation (also line 513) goes home |
| `Session.App.NavProfile` | src/App.js:304 | "Profile" in the bottom navigation (also line 515) goes to the profile |
| `Session.App.HomeNavTrack` | src/App.js:303 | "Track" on the home screen clears the selection and shows the fallback |
| `Session.App.ProfileNavTrack` | src/App.js:514 | "Track" on the profile keeps the selection and shows the fallback |
| `Session.App.FallbackGoHome` | src/App.js:528 | "Go Home" on the fallback goes home |
| `Session.App.TopUp` | src/App.js:499 | "Add ₹100" adds exactly 100 to the wallet |
| `Session.App.SubmitFeedback` | src/App.js:155-159 | feedbacks become `FeedbacksAfter`, ratings `RatingsAfter`, and the thank-you notice is returned; the invariant holds |
| `Session.App.SetQuery` | src/App.js:249 | typing sets the query |
| `Session.App.SelectRoute` | src/App.js:251-252 | choosing one of the four route tiles sets the selected route |

## Left out

- Map, markers, polyline, the random walk of the selected shuttle's marker and its timer, and geolocation: they only feed the map and change no state the handlers read. Shuttle coordinates are not part of `Vehicle`.
- Persistence in `localStorage` (loading and saving): the constructor models a fresh start with nothing stored. `Session.App.constructor` therefore does not cover state loaded from storage, which may break `Valid()`.
- The skeleton-loading flag and its 520 ms timer (`startListLoad`) and the onboarding overlay are not modelled. While the flag is set the home screen shows skeletons instead of the list and its View/Track buttons (src/App.js:259-296), and the overlay covers the home screen until dismissed (src/App.js:309-317). `Session.App.OpenDetails` therefore allows opening a shuttle from the home screen even while the list is hidden or covered.
- The theme toggle, the language pills and the identity and password inputs: display only.
- The "I am waiting" sheet and `notifyDrivers`: they only open and close a sheet and raise a notice.
- `alert` is modelled as a notice the handler returns; the browser dialog is not modelled.
- The feedback entry's `Date.now()` id and `toLocaleString()` date come from the clock and are parameters.
- `Account.AverageRating` is the exact mean; the one-decimal rounding and string result of `toFixed(1)` are not modelled.
- `Text.Lower` lower-cases ASCII letters only; the full Unicode case mapping of `toLowerCase` is not modelled.
- JavaScript numbers are modelled as unbounded integers; seat counts, wallet and ride counts stay far from the range where floating point would matter.
- `Session.App.OpenDetails` requires only that the shuttle is in the list; the screens pass a shuttle the filter shows, and `Search.FilteredFromList` proves every such shuttle is in the list.
- `Session.App.DoPayment` is called by the app only with "UPI"; the model keeps the method as a parameter so the cash branch is covered too.
- The details screen's display of `latestEV` and the payment screen's wallet display are render output, not state.

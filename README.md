# 60sec Ads — a Dafny model of the site's page logic

60sec Ads is a marketing site with a customer dashboard, written in React and
TypeScript. This project models in Dafny the logic behind its pages and proves
properties of that model. The pages covered are:

- the new-order wizard: a ten-field form filled in over five steps, a step
  counter, an add-on price total, and the submission flag;
- the pricing page's add-on calculator;
- the orders list, with its search box, its status buttons and their labels,
  and the status badge colours;
- the sign-in, sign-up and contact forms: their zod schemas and their submit
  handlers;
- the session store: the mock sign-in and sign-up, sign-out, user updates, and
  the part of the state that is persisted;
- the page head's title, URL and image rules;
- the dashboard sidebar's active-link rule and the user card's fallbacks;
- the FAQ accordion.

Each source file has one module: `NewOrder`, `Pricing`, `Orders`, `SignIn`,
`SignUp`, `Contact`, `AuthStore`, `SEOHead`, `Dashboard` and `FAQ`. Several
modules share these helpers:

- `Seqs`: `filter`, removing a value, and the toggle-membership update used by
  the wizard's multi-selects and by the add-on buttons.
- `Strings`: ASCII case mapping, `includes`, `startsWith`, `indexOf`, and
  `replace` with a one-character pattern.
- `Schema`: zod issues and the rules the schemas use.
- `AddOnPricing`: the catalogue lookup and the add-on price fold.
- `Submission`: the error text shown for a rejection, and navigation calls.
- `Wrappers`: `Option` and `Result`.

Stateful components become classes whose fields are the component's `useState`
values or the store's state. An event handler becomes a method, and each method
states the whole new state. Pure helpers become functions with named results.

Things the pages read from the environment are parameters:

- `now` stands for the clock (`new Date().toISOString()`).
- `randomId` stands for `Math.random()`.
- `isEmail` and `isUrl` stand for zod's email and URL checks.
- `threw` and `succeeded` say how an awaited call ended.

Three behaviours of the code worth noting, which the model keeps:

- "Next" in the wizard performs no validation.
- Hooks may be empty strings ("+ Add Hook" appends `""`).
- The pricing page and the wizard use two different add-on catalogues.
  `Pricing.BrandKitPricesDiffer` and `Pricing.AspectRatiosPricesDiffer` prove the
  difference.

## Model

| member | source | states |
|---|---|---|
| Seqs.Filter | src/pages/dashboard/Orders.tsx:85-90 | `filter` keeps exactly the elements that satisfy the predicate (both directions) and never grows |
| Seqs.FilterIsSubsequence | src/pages/dashboard/Orders.tsx:85-90 | the filtered list keeps the original order (it is a subsequence) |
| Seqs.FilterCount | src/pages/dashboard/NewOrder.tsx:103 | each kept value is kept as often as it occurs; each dropped value occurs 0 times |
| Seqs.FilterAll | src/pages/dashboard/Orders.tsx:85-90 | a filter every element passes returns the list unchanged |
| Seqs.Toggle | src/pages/dashboard/NewOrder.tsx:100-106 | after a toggle, the value is present exactly when it was absent before; every other value keeps its membership |
| Seqs.ToggleShape | src/pages/dashboard/NewOrder.tsx:102-104 | toggling a present value removes every copy and keeps the rest in order (same multiset minus that value); toggling an absent value appends it |
| Seqs.Without | src/pages/Pricing.tsx:52 | `filter(id => id !== v)`: no `v` remains, every other value keeps its membership, and a list without `v` is returned unchanged |
| Seqs.WithoutKeepsOthers | src/pages/Pricing.tsx:52 | `filter(id => id !== v)` keeps the other elements in order and with their counts, and drops every `v` |
| Seqs.ToggleTwiceAbsent | src/pages/dashboard/NewOrder.tsx:100-106 | toggling an absent value twice restores the list exactly |
| Seqs.ToggleTwicePresent | src/pages/dashboard/NewOrder.tsx:100-106 | toggling a present value twice moves it to the end, once |
| Seqs.ToggleKeepsNoDuplicates | src/pages/Pricing.tsx:49-55 | a toggle never introduces a duplicate |
| Seqs.ToggleTwiceSameElements | src/pages/Pricing.tsx:49-55 | without duplicates, toggling twice gives back the same multiset |
| Strings.ContainsAt | src/pages/dashboard/Orders.tsx:86-87 | `includes` holds exactly when the pattern occurs at some offset |
| Strings.ToLowerIdempotent | src/pages/dashboard/Orders.tsx:86-88 | lower-casing twice is lower-casing once |
| Strings.IndexOf | src/pages/dashboard/Orders.tsx:88 | the index found is the first occurrence of the character, or -1 when it does not occur |
| Strings.ReplaceFirst | src/pages/dashboard/Orders.tsx:88 | `replace` with a one-character pattern: same length, the first occurrence replaced, every other character kept |
| Strings.IndexOfAt | src/pages/dashboard/Orders.tsx:88 | a position holding the character, with no earlier occurrence, is the index found |
| Schema.Rule | src/pages/SignUp.tsx:14-21 | a rule contributes an issue on its field exactly when it fails |
| Schema.MinLength | src/pages/dashboard/NewOrder.tsx:22 | `z.string().min(n)` on a value that may be missing: one issue unless the value is present and at least `n` long |
| Schema.FieldsAppend | src/pages/dashboard/NewOrder.tsx:20-40 | the issues of two rule groups concatenated carry the union of their fields |
| Schema.FieldsEmpty | src/pages/dashboard/NewOrder.tsx:20-40 | no issue is reported exactly when no field carries one |
| AddOnPricing.PriceOf | src/pages/dashboard/NewOrder.tsx:146-147 | `find(...)?.price \|\| 0`: an id the catalogue does not hold is priced 0 |
| AddOnPricing.AddOnSum | src/pages/Pricing.tsx:59-62 | the `reduce` over the selected ids: 0 for no selection, and never less than the price of any selected id |
| AddOnPricing.PriceOfEntry | src/pages/Pricing.tsx:60-61 | in a catalogue without repeated ids, every entry's id finds that entry's price |
| AddOnPricing.SumAppend | src/pages/Pricing.tsx:59-62 | the price fold over a concatenation is the sum of the two folds |
| AddOnPricing.SumOfUnknownIds | src/pages/Pricing.tsx:59-62 | ids the catalogue does not know add nothing |
| AddOnPricing.SelectAll | src/pages/Pricing.tsx:57-64 | selecting every entry once, in order, costs the catalogue's prices added up |
| AddOnPricing.SumWithout | src/pages/Pricing.tsx:52 | removing every occurrence of an id takes its price off once per occurrence |
| AddOnPricing.PerOccurrenceIsProduct | src/pages/Pricing.tsx:59-62 | the price added once per occurrence equals count × price |
| AddOnPricing.ToggleOnAddsPrice | src/pages/Pricing.tsx:53 | toggling on an absent id adds exactly its price |
| AddOnPricing.ToggleOffOnce | src/pages/Pricing.tsx:52 | toggling off an id that occurs once takes off exactly its price |
| AddOnPricing.ToggleOffRemovesPrice | src/pages/Pricing.tsx:52 | toggling off a present id takes off its price times its number of occurrences |
| AddOnPricing.ToggleTwiceKeepsSum | src/pages/Pricing.tsx:49-64 | without duplicates, toggling the same id twice restores the add-on sum |
| NewOrder.WithChoices | src/pages/dashboard/NewOrder.tsx:105 | `setValue` on a multi-select field replaces that field and leaves the other lists as they were |
| NewOrder.FieldIssues | src/pages/dashboard/NewOrder.tsx:20-40 | one field's rule raises an issue on that field exactly when it fails; the add-ons carry no rule |
| NewOrder.GroupIssues | src/pages/dashboard/NewOrder.tsx:20-40 | a field carries an issue exactly when it is in the group and its rule fails |
| NewOrder.SchemaFieldsComplete | src/pages/dashboard/NewOrder.tsx:20-40 | the schema's key list names every field |
| NewOrder.AcceptsWhenAllPass | src/pages/dashboard/NewOrder.tsx:20-40 | the nine rules all hold exactly when every field passes |
| NewOrder.ValidateOrder | src/pages/dashboard/NewOrder.tsx:20-40 | a field carries an issue exactly when its rule fails; no issue at all exactly when the schema accepts |
| NewOrder.TargetAudienceBoundary | src/pages/dashboard/NewOrder.tsx:30 | a 9-character audience is rejected and a 10-character one accepted |
| NewOrder.ProductUrlMayBeEmpty | src/pages/dashboard/NewOrder.tsx:23 | an empty or missing product URL is accepted whatever the URL check says |
| NewOrder.NothingEnteredRejected | src/pages/dashboard/NewOrder.tsx:20-40 | a form with nothing entered fails exactly the eight required fields |
| NewOrder.DefaultFormRejected | src/pages/dashboard/NewOrder.tsx:58-63 | the initial form values are rejected on exactly those eight fields |
| NewOrder.Mount | src/pages/dashboard/NewOrder.tsx:163-175 | rendering step 1 gives a missing project name or URL the value `""`, and rendering step 3 does the same for the audience and benefits textareas (lines 258-278); values already held, the goal, the tone and the lists are kept |
| NewOrder.MountedRequiredOnlyForButtons | src/pages/dashboard/NewOrder.tsx:20-40 | once the name input and both textareas are mounted, only the button-set goal and tone can draw "Required" |
| NewOrder.RequiredMeansMissing | src/pages/dashboard/NewOrder.tsx:20-40 | an issue with zod's "Required" comes only from a string field whose value is missing |
| NewOrder.UntouchedAtStepFive | src/pages/dashboard/NewOrder.tsx:58-63 | pressing "Next" through the steps without typing leaves the four mounted text fields at `""` and the goal and tone missing |
| NewOrder.EmptyNameMessage | src/pages/dashboard/NewOrder.tsx:22 | an empty project name is reported with "Project name is required" |
| NewOrder.EmptyAudienceMessage | src/pages/dashboard/NewOrder.tsx:30 | an empty audience textarea is reported with "Please describe your target audience" |
| NewOrder.EmptyBenefitsMessage | src/pages/dashboard/NewOrder.tsx:31 | an empty benefits textarea is reported with "Please describe key benefits" |
| NewOrder.MissingGoalMessage | src/pages/dashboard/NewOrder.tsx:23-27 | a goal no button has set is reported with "Required", and an empty URL passes |
| NewOrder.CalculateTotal | src/pages/dashboard/NewOrder.tsx:143-150 | the total is never below the 97 base price |
| NewOrder.TotalExamples | src/pages/dashboard/NewOrder.tsx:93-98 | nothing selected costs 97; an unknown id adds nothing; rush plus subtitles costs 221 |
| NewOrder.TotalIsPriceSum | src/pages/dashboard/NewOrder.tsx:145-148 | appending an id raises the total by that id's catalogue price |
| NewOrder.ToggleAddOnTotal | src/pages/dashboard/NewOrder.tsx:100-106 | toggling an absent add-on on raises the total by its price; toggling it back restores the total |
| NewOrder.NextStep | src/pages/dashboard/NewOrder.tsx:117-121 | the step rises by one, or stays put exactly at step 6 or beyond, never passing 6 |
| NewOrder.PrevStep | src/pages/dashboard/NewOrder.tsx:123-127 | the step falls by one, or stays put exactly at step 1 or below, never going under 1 |
| NewOrder.StepMoves | src/pages/dashboard/NewOrder.tsx:117-127 | next and previous keep the step in 1..6, each does nothing at its end of the range, and they undo each other inside the range |
| NewOrder.Wizard.constructor | src/pages/dashboard/NewOrder.tsx:45-63 | the wizard starts at step 1, not submitting, with the default form and the step 1 inputs mounted |
| NewOrder.Wizard.Next | src/pages/dashboard/NewOrder.tsx:117-121 | the step advances unless already at 6, with no validation; the new step's inputs are mounted, nothing else in the form and the flag changes |
| NewOrder.Wizard.Prev | src/pages/dashboard/NewOrder.tsx:123-127 | the step goes back unless already at 1; a step already visited mounts nothing new, so the form and the flag are unchanged |
| NewOrder.Wizard.ToggleChoice | src/pages/dashboard/NewOrder.tsx:100-106 | the chosen list becomes its toggle, the other fields stay as they were, and no list gains a duplicate |
| NewOrder.Wizard.SetText | src/pages/dashboard/NewOrder.tsx:49-56 | typing or picking sets that one field |
| NewOrder.Wizard.GenerateHooks | src/pages/dashboard/NewOrder.tsx:108-115 | the hooks become exactly the three samples |
| NewOrder.Wizard.EditHook | src/pages/dashboard/NewOrder.tsx:342-346 | editing hook `index` replaces that hook alone |
| NewOrder.Wizard.AddHook | src/pages/dashboard/NewOrder.tsx:353 | "+ Add Hook" appends an empty hook |
| NewOrder.Wizard.BeginSubmit | src/pages/dashboard/NewOrder.tsx:129-130 | validation runs first; the submitting flag is raised exactly when no issue is found; from step 3 on, only the goal and the tone can be reported as "Required" |
| NewOrder.Wizard.CompleteSubmit | src/pages/dashboard/NewOrder.tsx:131-140 | after a begun submission, success moves to step 6; either way the flag is cleared |
| NewOrder.OneControlShown | src/pages/dashboard/NewOrder.tsx:480-557 | in each state exactly one of "Next", "Submit Order" and the submitted view is shown |
| Pricing.CalculateTotal | src/pages/Pricing.tsx:57-64 | the total is at least 97, and exactly 97 with nothing selected |
| Pricing.IdsOfCatalogue | src/pages/Pricing.tsx:11-47 | the catalogue's ids, in order |
| Pricing.CatalogueIdsDistinct | src/pages/Pricing.tsx:11-47 | no id occurs twice in the catalogue |
| Pricing.CataloguePriceTotal | src/pages/Pricing.tsx:11-47 | the five prices add up to 275 |
| Pricing.AllFiveTotal | src/pages/Pricing.tsx:57-64 | selecting all five add-ons costs 372 |
| Pricing.UnknownIdAddsNothing | src/pages/Pricing.tsx:60-61 | an id outside the catalogue leaves the total unchanged |
| Pricing.CataloguePrices | src/pages/Pricing.tsx:60-61 | every catalogue entry is priced at its own price |
| Pricing.BrandKitPricesDiffer | src/pages/Pricing.tsx:41-46 | `brand-kit` costs 67 on the pricing page and 0 in the wizard |
| Pricing.AspectRatiosPricesDiffer | src/pages/Pricing.tsx:34-40 | `aspect-ratios` costs 37 on the pricing page and 0 in the wizard |
| Pricing.PricingPage.constructor | src/pages/Pricing.tsx:9 | nothing is selected at first |
| Pricing.PricingPage.ToggleAddOn | src/pages/Pricing.tsx:49-55 | the selection becomes its toggle and stays duplicate-free; the total drops by the id's price when it was selected and rises by it otherwise |
| Pricing.ToggleTwiceRestores | src/pages/Pricing.tsx:49-64 | toggling twice restores the multiset and the total; an unselected id leaves the selection exactly as it was |
| Orders.FilteredOrders | src/pages/dashboard/Orders.tsx:85-90 | an order is shown exactly when it matches the search and the status button, in its original order |
| Orders.ShowAll | src/pages/dashboard/Orders.tsx:85-90 | an empty search with `all` shows every order |
| Orders.ShowAllSamples | src/pages/dashboard/Orders.tsx:19-68 | initially all four sample orders are shown |
| Orders.SearchIgnoresCase | src/pages/dashboard/Orders.tsx:86-87 | a search term typed in upper or lower case finds the same orders |
| Orders.SubstringMatches | src/pages/dashboard/Orders.tsx:86-87 | a term occurring in the lower-cased title or id matches |
| Orders.StatusSlug | src/pages/dashboard/Orders.tsx:88 | the slug keeps the status's length, lower-cases every character, and turns the first space of the lower-cased status into a dash |
| Orders.TwoWordSlug | src/pages/dashboard/Orders.tsx:88 | a status whose only space sits at offset 2 gets that space turned into a dash |
| Orders.OneWordSlug | src/pages/dashboard/Orders.tsx:88 | a status without a space is only lower-cased |
| Orders.DraftSlug | src/pages/dashboard/Orders.tsx:88 | "Draft" matches the `draft` button |
| Orders.InProductionSlug | src/pages/dashboard/Orders.tsx:88 | "In Production" matches the `in-production` button |
| Orders.InReviewSlug | src/pages/dashboard/Orders.tsx:88 | "In Review" matches the `in-review` button |
| Orders.DeliveredSlug | src/pages/dashboard/Orders.tsx:88 | "Delivered" matches the `delivered` button |
| Orders.DeliveredFilter | src/pages/dashboard/Orders.tsx:85-90 | with an empty search, the `delivered` button shows only the delivered sample order |
| Orders.FilterLabel | src/pages/dashboard/Orders.tsx:132 | the label keeps the value's length and upper-cases its first character; after it, the first dash becomes a space and every other character is copied |
| Orders.LabelWithoutDash | src/pages/dashboard/Orders.tsx:132 | a value without a dash is only capitalised |
| Orders.LabelWithDash | src/pages/dashboard/Orders.tsx:132 | a value whose first dash is its third character gets that dash turned into a space |
| Orders.AllButton | src/pages/dashboard/Orders.tsx:122-132 | the `all` button reads "All" |
| Orders.DraftLabel | src/pages/dashboard/Orders.tsx:122-132 | the `draft` button reads "Draft" |
| Orders.InProductionLabel | src/pages/dashboard/Orders.tsx:122-132 | the `in-production` button reads "In production" |
| Orders.InReviewLabel | src/pages/dashboard/Orders.tsx:122-132 | the `in-review` button reads "In review" |
| Orders.DeliveredLabel | src/pages/dashboard/Orders.tsx:122-132 | the `delivered` button reads "Delivered" |
| Orders.StatusColor | src/pages/dashboard/Orders.tsx:70-83 | "Delivered", "In Production" and "In Review" get the green, yellow and blue badges; every other status gets the neutral one |
| Orders.StatusColorsDistinct | src/pages/dashboard/Orders.tsx:70-83 | the three working statuses get three different badges, none of them neutral; `Draft` gets the neutral one |
| SignIn.ValidateSignIn | src/pages/SignIn.tsx:13-16 | the email carries an issue exactly when the email check fails, and the password exactly when it is shorter than 6; no issue exactly when both pass |
| SignIn.RedirectTarget | src/pages/SignIn.tsx:28 | the target is never empty; it is the dashboard exactly when some level of the location is missing or the path is empty (or is the dashboard); otherwise it is the path |
| SignIn.RedirectBack | src/pages/SignIn.tsx:28 | a non-empty path the user came from is where they are sent back |
| SignIn.SignInPage.constructor | src/pages/SignIn.tsx:22 | no error is shown at first |
| SignIn.SignInPage.Submit | src/pages/SignIn.tsx:38-46 | invalid input changes nothing; the demo credentials sign in and navigate back, replacing the history entry; other credentials show "Invalid credentials" and leave the session as it was; after a valid submission the store is no longer loading |
| SignUp.FieldIssues | src/pages/SignUp.tsx:13-18 | one key's shape rule raises an issue on that key exactly when it fails; `confirmPassword` has none |
| SignUp.GroupIssues | src/pages/SignUp.tsx:13-18 | a key carries a shape issue exactly when it is in the group and fails |
| SignUp.SchemaFieldsComplete | src/pages/SignUp.tsx:13-18 | the key list names every field |
| SignUp.ValidateSignUp | src/pages/SignUp.tsx:13-21 | a field carries an issue exactly when its rule fails, the password-mismatch refinement counting for `confirmPassword`; no issue exactly when all pass |
| SignUp.MismatchReported | src/pages/SignUp.tsx:19-21 | the last issue is the mismatch on `confirmPassword` exactly when the two passwords differ |
| SignUp.SignUpPage.constructor | src/pages/SignUp.tsx:42-50 | no error and no navigation at first |
| SignUp.SignUpPage.Submit | src/pages/SignUp.tsx:42-50 | invalid input changes nothing; valid input signs the new user in, leaves the store not loading, and navigates to the dashboard |
| Contact.FieldIssues | src/pages/Contact.tsx:11-17 | one field's rule raises an issue on that field exactly when it fails |
| Contact.GroupIssues | src/pages/Contact.tsx:11-17 | a field carries an issue exactly when it is in the group and fails |
| Contact.SchemaFieldsComplete | src/pages/Contact.tsx:11-17 | the key list names every field |
| Contact.ValidateContact | src/pages/Contact.tsx:11-17 | a field carries an issue exactly when its rule fails; no issue exactly when every rule passes |
| Contact.BudgetChoices | src/pages/Contact.tsx:33-40 | the placeholder budget is rejected and each of the five ranges is accepted |
| Contact.EmptyFormRejected | src/pages/Contact.tsx:11-17 | the untouched form fails the name, budget and message rules, and passes the optional website rule (the email rule is up to the email check) |
| Contact.ContactPage.constructor | src/pages/Contact.tsx:22 | the form is shown first, with empty inputs |
| Contact.ContactPage.Edit | src/pages/Contact.tsx:24-31 | typing changes the values and does not switch views |
| Contact.ContactPage.Submit | src/pages/Contact.tsx:42-55 | valid input whose send completes shows the thank-you view and resets the form; otherwise nothing changes |
| Contact.ContactPage.SendAnother | src/pages/Contact.tsx:103 | "Send Another Message" returns to the form |
| AuthStore.MockSignIn | src/store/authStore.ts:23-38 | only the demo credentials succeed, with the demo user (id "1", name "Demo User", the fixed avatar URL) created now; anything else is rejected with "Invalid credentials" |
| AuthStore.MockSignUp | src/store/authStore.ts:40-50 | the new user carries the given name and email, the random id, the creation time and no avatar |
| AuthStore.Merge | src/store/authStore.ts:85-90 | each field given in the patch replaces the user's; the rest are kept |
| AuthStore.MergeLaws | src/store/authStore.ts:85-90 | an empty patch changes nothing, and applying a patch twice is applying it once |
| AuthStore.MergeCompose | src/store/authStore.ts:85-90 | two patches in a row are one patch with the second laid over the first |
| AuthStore.SessionStore.constructor | src/store/authStore.ts:55-57 | nobody is signed in and nothing is loading |
| AuthStore.SessionStore.SignIn | src/store/authStore.ts:59-68 | loading ends either way; the demo credentials sign in the demo user; other credentials leave the session and pass the rejection on |
| AuthStore.SessionStore.SignUp | src/store/authStore.ts:70-79 | the new user is always signed in and loading ends |
| AuthStore.SessionStore.SignOut | src/store/authStore.ts:81-83 | the session is cleared and `isLoading` is left as it was |
| AuthStore.SessionStore.UpdateUser | src/store/authStore.ts:85-90 | the patch is merged into a signed-in user; without a user nothing changes |
| AuthStore.SessionStore.Partialize | src/store/authStore.ts:93-97 | the persisted snapshot holds exactly the user and the session flag |
| AuthStore.PartializeIgnoresLoading | src/store/authStore.ts:93-97 | two states that differ only in `isLoading` persist the same snapshot |
| AuthStore.SnapshotKeepsInvariant | src/store/authStore.ts:93-97 | the snapshot of a consistent store says "authenticated" exactly when it holds a user |
| Submission.ErrorText | src/pages/SignIn.tsx:44 | an `Error` shows its message; any other rejection shows "An error occurred" |
| SEOHead.FullTitle | src/components/seo/SEOHead.tsx:23 | the title always names the brand; one that already names it is kept, any other gets " - 60sec Ads" appended |
| SEOHead.FullTitleIdempotent | src/components/seo/SEOHead.tsx:23 | applying the title rule twice is applying it once |
| SEOHead.Absolute | src/components/seo/SEOHead.tsx:24-25 | the result always starts with `http`; such a URL is kept, any other is prefixed with the site origin |
| SEOHead.AbsoluteIdempotent | src/components/seo/SEOHead.tsx:24-25 | applying the URL rule twice is applying it once |
| SEOHead.Resolve | src/components/seo/SEOHead.tsx:14-25 | the title always names the brand and the URL and image always start with `http`; a missing title gives the default title, a missing URL the site origin, a missing image the site origin plus `/og-image.jpg`; a given value is kept when already branded or absolute, and otherwise gets the suffix or the origin |
| SEOHead.ResolveIdempotent | src/components/seo/SEOHead.tsx:14-25 | passing the resolved title, URL and image back as props resolves to the same head |
| SEOHead.Defaults | src/components/seo/SEOHead.tsx:15-25 | with no props, the default title and URL are kept and the image becomes the site origin plus `/og-image.jpg` |
| Dashboard.IsActive | src/pages/dashboard/Dashboard.tsx:33-38 | an exact link is active exactly on its own path; a non-exact link is active exactly on the paths its href starts; either way an active href is a prefix of the path |
| Dashboard.ExactImpliesPrefix | src/pages/dashboard/Dashboard.tsx:33-38 | matching a path exactly implies matching it as a prefix |
| Dashboard.OverviewNeedsExact | src/pages/dashboard/Dashboard.tsx:24-38 | on the orders page, Overview would match as a prefix but is not active, and Orders is |
| Dashboard.ActiveItems | src/pages/dashboard/Dashboard.tsx:24-38 | on any path at most one sidebar link is highlighted, and only positions of real links are reported |
| Dashboard.NotBothActive | src/pages/dashboard/Dashboard.tsx:24-38 | no path makes two different sidebar links active at once |
| Dashboard.OneActivePerItem | src/pages/dashboard/Dashboard.tsx:24-38 | on each sidebar link's own path, that link alone is highlighted |
| Dashboard.NotActive | src/pages/dashboard/Dashboard.tsx:24-38 | no link is active on another link's path |
| Dashboard.AvatarLetter | src/pages/dashboard/Dashboard.tsx:72 | one character: the name's first, or "U" without a name |
| Dashboard.DisplayName | src/pages/dashboard/Dashboard.tsx:78 | never empty: the name when there is one, "User" otherwise |
| Dashboard.DisplayEmail | src/pages/dashboard/Dashboard.tsx:81 | never empty: the email when there is one, "user@example.com" otherwise |
| Dashboard.AvatarView | src/pages/dashboard/Dashboard.tsx:68-74 | a picture exactly when the user has a non-empty avatar, shown with the name as its text; otherwise the letter |
| Dashboard.DemoAndNewUserCards | src/pages/dashboard/Dashboard.tsx:68-82 | the demo user shows a picture and "Demo User"; a newly signed-up user shows the first letter of their name |
| FAQ.Toggled | src/components/sections/FAQ.tsx:44-46 | a click closes every question exactly when the clicked one was open; otherwise exactly the clicked one is open |
| FAQ.Accordion.constructor | src/components/sections/FAQ.tsx:7-42 | the first of the eight questions starts open |
| FAQ.Accordion.Toggle | src/components/sections/FAQ.tsx:44-46 | the open index becomes the toggle of the clicked one and stays among the eight |
| FAQ.AtMostOneOpen | src/components/sections/FAQ.tsx:84-92 | at most one question is open at a time |
| FAQ.ToggleOpensOrCloses | src/components/sections/FAQ.tsx:44-46 | after a click, the clicked question is open exactly when it was closed before, and no other is open |
| FAQ.ToggleTwice | src/components/sections/FAQ.tsx:44-46 | two clicks restore the state exactly when that question was open or none was; if another was open, all end up closed |

## Left out

- Timers: the simulated delays (`setTimeout`) are left out. Each awaited call
  is folded into the method that awaits it.
- Interleaving during an await is not modelled. The store's `isLoading` is true
  only inside `SignIn` and `SignUp`, so the "disabled while loading" predicates
  are never observed as true.
- The wizard's `onSubmit` is split at its await into `BeginSubmit` and
  `CompleteSubmit`. The `catch` branch, which only logs, is `succeeded == false`.
- Clocks and randomness are parameters: `now` for `new Date().toISOString()`,
  `randomId` for `Math.random().toString(36).substr(2, 9)`. The id's format is
  not modelled.
- zod's email and URL checks are parameters (`isEmail`, `isUrl`). Their
  grammars are not modelled.
- `console.log` and `console.error` are left out. So are rendering and
  animation (framer-motion), icons, the progress bar's percentage (a floating
  point value), and Helmet's meta tags other than title, URL and image.
- `Strings.ToLower` and `Strings.ToUpper` map ASCII letters only. JavaScript's
  full Unicode case mapping is not modelled. String lengths count characters,
  not UTF-16 code units.
- AuthStore.Merge: a patch field given explicitly as `undefined` is
  not modelled. Such a field would overwrite the user's with `undefined`; the
  model treats it as absent.
- Rehydration of the persisted state from `localStorage` is left out. Only the
  snapshot that `partialize` writes is modelled.
- SignUp.SignUpPage.Submit: the `catch` branch is not modelled. The store's
  `signUp` never rejects (the mock sign-up always succeeds), so the branch is
  unreachable.
- SignIn.SignInPage.Submit: the store only ever rejects with an `Error`, so
  the "An error occurred" fallback of `Submission.ErrorText` is never shown on
  this page.
- Contact.ContactPage.Submit: what the handler awaits is a stand-in, so
  whether it throws is the parameter `threw`. react-hook-form's own
  `isSubmitting` flag, which disables "Send Message" while the handler runs,
  is not modelled.
- Contact.ContactPage.Submit: `reset()` is modelled as returning every input to
  `""`, the value an untouched registered input holds.
- Seqs.Toggle: toggling a selected add-on off and then on again moves it to the
  end of the list. `Pricing.ToggleTwiceRestores` therefore states that the
  multiset and the total are restored; the order is restored only when the id
  was absent.
- Registering an input stores its element's value `""` when the form has none
  (`NewOrder.Mount`). This is modelled for the wizard's inputs and textareas
  and for the contact form. The goal and the tone are set by buttons only, and
  can stay missing.
- Two rendering defects are outside the model, because views are not modelled.
  The empty-result view of the orders page (for example, after searching
  "zzz") uses the `FileText` icon, which Orders.tsx does not import; rendering
  it throws. The "Magic Link" buttons on the sign-in and sign-up pages sit
  inside the form with no `type`, so clicking one submits the form. That runs
  the same `Submit` the model gives.
- The wizard's per-step views that only render the form's values are left out,
  as are the step 5 summary layout and the "Complete Payment" button, which has
  no handler.
- Field values typed with a wrong type — a type error that would make zod
  abort the parse — are not modelled. Every registered input here yields a
  string, an array or a boolean.

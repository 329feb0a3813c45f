# Design studio site: verified model of its interactive core

This project models the interactive logic of a single-page React site for a
graphic-design studio, in Dafny. The site consists of a landing page (`App.tsx`),
a portfolio gallery, a review overlay and two theme stores. The model covers:

- **Portfolio preview** (landing page). A category filter over a fixed
  project list, a Fisher–Yates shuffle, a six-project sample unless the full
  portfolio is shown, the reset of that expansion when the filter changes,
  and a lightbox. The lightbox has a scroll lock and closes on Escape, on a
  backdrop click or on the close button.
- **Contact form** (landing page). The automatic "I'm interested in …"
  message and the drop-down handlers that write it only when it is non-empty.
  Also the service-key rule a pricing-table button uses (lower-case, runs of
  white space to `_`, the first `/` to `_`), the defaults an inquiry fills in
  for empty fields, the inquiry text, and the reset after submission.
- **Portfolio page**. Category filtering, featured-first display with a
  twelve-item fallback, the "View More" condition, and the loader that merges
  fetched logos with the hard-coded posters and invitations or, on failure,
  leaves the catalog as it was.
- **Review overlay**. Star rating and its labels, and the submit-disabled
  rule together with the browser's `required` / `minLength` gate. Also the
  three submission phases, scroll locking through the body's styles, and the
  Escape and backdrop close rules.
- **Tri-state theme provider**. Stored-value validation, resolution of
  light / dark / system against the colour-scheme preference, persistence,
  and the root class and `data-theme` attribute. Also the table of twelve CSS
  custom properties, the body styles and the meta theme colour.
- **Binary theme context**. Load with a dark fallback, the toggle, and the
  effect that writes the body class, the styles and the saved entry.

Entities whose fields the source updates in place are classes:
`Gallery.PortfolioPreview`, `Contact.ContactSection`,
`ReviewForm.ReviewOverlay`, `ThemeProvider.Provider` and
`ThemeContext.Provider`. The browser state their effects touch is held in
fields of those classes:

- body styles;
- the root's classes and attributes;
- the storage map;
- whether a listener is attached.

A handler method first applies its state update. Then it runs each effect
whose dependency changed: the cleanup of the previous run, then the new run.
A state update that sets the value already held re-renders nothing, so no
effect runs. The portfolio page's state is an immutable record, and its views
are functions.

Clock readings, a failing storage call, the colour-scheme query's answer, the
fetched logo list and the shuffle's random picks are all parameters:

- the shuffle's picks are a nondeterministic choice of `j` in `[0, i]`;
- the fetch result is a `Result`;
- storage failures are boolean flags.

CSS values (colours, gradients, transitions) are held as their components,
for example `Hex(0xf8, 0xfa, 0xfc)` for `#f8fafc` and
`LinearGradient(135, [ColorStop(..., 0), ...])`. They are not held as CSS
text.

Modules: `Wrappers` (Option and Result), `Seqs` (filtering and
subsequences), `Dom` (key and click targets), `Css`, `Gallery`, `Contact`,
`Portfolio`, `ReviewForm`, `ThemeProvider` and `ThemeContext`.

## Model

| member | source | states |
|---|---|---|
| Gallery.FilteredProjects | src/App.tsx:525-527 | With filter 'All' the list is the project list unchanged; under any other filter every listed project has that category |
| Gallery.FilteredProjectsExact | src/App.tsx:525-527 | Under a named filter each project occurs exactly as often as in the catalog when its category matches and never otherwise; membership holds iff the project is in the catalog with that category; the result is a subsequence of the catalog (original order) |
| Gallery.FilterButtonsDisjoint | src/App.tsx:331 | No project is listed under two of the category buttons that follow 'All', and every listed project comes from the catalog |
| Gallery.Swap | src/App.tsx:520 | The destructuring swap exchanges positions i and j, changes nothing else, and keeps length and multiset |
| Gallery.AfterSwaps | src/App.tsx:518-521 | Any sequence of swaps the loop can perform (step k at index n-1-k with a pick in [0, n-1-k]) keeps length and multiset |
| Gallery.ShuffleArray | src/App.tsx:516-523 | The loop runs on a copy, once for each index from the last down to 1, each pick j in [0, i]; the result is the input after exactly those swaps, hence a permutation of the input (same length and multiset), and the input value is untouched |
| Gallery.DisplayedProjects | src/App.tsx:530-532 | Full portfolio shows the filtered list itself; otherwise min(6, n) projects, all drawn from the filtered list (sub-multiset) |
| Gallery.PortfolioPreview.constructor | src/App.tsx:327-330 | Initial state: filter 'All', collapsed, no selection, lightbox closed, body style untouched |
| Gallery.PortfolioPreview.Displayed | src/App.tsx:525-532 | The shown list is derived from the current filter and expansion flag as above |
| Gallery.PortfolioPreview.SetActiveFilter | src/App.tsx:344-346 | A different filter re-runs the reset effect and collapses the view; the same filter changes nothing; the lightbox state is untouched |
| Gallery.PortfolioPreview.ToggleFullPortfolio | src/App.tsx:674 | The button flips the expansion flag and nothing else |
| Gallery.PortfolioPreview.ModalEffect | src/App.tsx:349-365 | Cleanup detaches the Escape listener and sets overflow 'unset'; an open lightbox then attaches it and sets 'hidden'; every lock is released exactly once |
| Gallery.PortfolioPreview.OpenProjectModal | src/App.tsx:333-336 | Selection is the project and the lightbox is open and rendered, with listener attached and scrolling locked; the effect re-runs only if it was closed |
| Gallery.PortfolioPreview.CloseModal | src/App.tsx:338-341 | Selection cleared and lightbox closed and not rendered; listener detached; overflow 'unset' when it was open, untouched otherwise |
| Gallery.PortfolioPreview.KeyDown | src/App.tsx:350-354 | Escape on an open lightbox closes it: selection cleared, listener detached, overflow 'unset', exactly one lock released; any other key, or a closed lightbox, changes neither the lightbox nor the listener, the style or the lock counts |
| Gallery.PortfolioPreview.Click | src/App.tsx:684-698 | On a rendered lightbox the backdrop and the close button close it: selection cleared, listener detached, overflow 'unset', one lock released; a click on the content, or any click with nothing rendered, changes neither the lightbox nor the listener, the style or the lock counts |
| Gallery.PortfolioPreview.Unmount | src/App.tsx:361-364 | The effect cleanup runs whatever the state: listener detached, overflow 'unset', and afterwards every lock ever taken has been released |
| Contact.ServiceKeyRoundTrip | src/App.tsx:1138 | Each of the six pricing titles keys to the drop-down option at the same position, which is a key of the service-name table mapping back to that same title |
| Contact.KeyOfSpacedTitle | src/App.tsx:1138 | For a title of letters, '&' and single spaces the key is computed character by character: space to '_', ASCII capitals lowered |
| Contact.PlainTitleKey | src/App.tsx:1138 | For any title without '/' and without adjacent white space, the key is the title with each white-space character turned into '_' and ASCII capitals lowered |
| Contact.ServiceKeyShape | src/App.tsx:1138 | Whatever the title, its key contains no white space and no ASCII capital |
| Contact.ServiceKey | src/App.tsx:1138 | The key is never longer than the title, and is empty exactly when the title is |
| Contact.ServiceNamesTable | src/App.tsx:1120-1127 | The six drop-down option values are keys of the table, option i naming pricing title i |
| Contact.ServiceLabel | src/App.tsx:1128 | A drop-down option value is shown as the pricing title at the same position; an unknown key is shown as itself; the label is empty only for the empty key |
| Contact.InterestMessage | src/App.tsx:1129 | The request text opens with "I'm interested in the " followed by the package tier, and is longer than the tier and the service together |
| Contact.GenerateAutoMessage | src/App.tsx:1118-1132 | Empty exactly when the service or the package is empty; otherwise the request text naming the table title for a known key and the key itself for an unknown one |
| Contact.WithService | src/App.tsx:1151-1158 | Sets the service; replaces the message with the automatic one exactly when that is non-empty; name, e-mail and package unchanged |
| Contact.WithPackage | src/App.tsx:1161-1168 | Sets the package; replaces the message with the automatic one exactly when that is non-empty; name, e-mail and service unchanged |
| Contact.WithSelection | src/App.tsx:1135-1141 | A pricing-table button writes the derived service key, the package and the request text naming the title; name and e-mail unchanged |
| Contact.SelectionAgreesWithDropDowns | src/App.tsx:1135-1168 | After a pricing-table selection the message equals the drop-downs' automatic message, and re-choosing the same service or package in the drop-downs leaves the form unchanged |
| Contact.DropDownsMatchSelection | src/App.tsx:1151-1168 | Choosing drop-down service i and then any tier of the package drop-down gives the same form as the pricing-table button for title i and that tier |
| Contact.ResolveInquiry | src/App.tsx:1188-1192 | Every reported field is non-empty: typed values are kept, the service goes through the table (else the key, else 'Not specified'), empty name and e-mail become 'Not provided', empty package 'Not specified', empty message 'No additional message' |
| Contact.SelectionRoundTripsOnSubmit | src/App.tsx:1188-1192 | A pricing-table selection on an empty form is submitted with the chosen title and tier, the request text, and 'Not provided' for name and e-mail |
| Contact.ValidatedSubmission | src/App.tsx:1283-1348 | Once the browser's required-field check passes, the inquiry reports typed name, e-mail and message, a drop-down service by its title, and only the package may default |
| Contact.RequiredFilled | src/App.tsx:1283-1348 | If any of the four required inputs is empty, the inquiry reports a default text for the name, the e-mail, the service or the message |
| Contact.InquiryText | src/App.tsx:1195-1202 | The inquiry text starts with the header and then the name line's pictograph (corrected template) |
| Contact.InquiryTextAsWritten | src/App.tsx:1195-1202 | The template as spelled in the file: the header is followed by U+F8FF, not by the pictograph |
| Contact.AsWrittenDiffers | src/App.tsx:1195-1202 | For every inquiry, date and time the text as written differs from the intended one |
| Contact.MarkersAreMisdecodedEmoji | src/App.tsx:1196-1202 | Each line's characters as written are exactly the intended pictograph's UTF-8 bytes read as Mac Roman |
| Contact.MarkersAreDistinctEmoji | src/App.tsx:1196-1202 | In the corrected template each line has its own single pictograph, none an ASCII character |
| Contact.ContactSection.HandleSubmit | src/App.tsx:1175-1221 | Records the inquiry text of the corrected template built from the resolved fields and the given date and time (see Findings), then resets every field to '' |
| Contact.ContactSection.constructor | src/App.tsx:1109-1115 | The form starts with all five fields empty and nothing sent |
| Contact.ContactSection.HandleServiceChange | src/App.tsx:1151-1158 | The form becomes WithService of the old form |
| Contact.ContactSection.HandlePackageChange | src/App.tsx:1161-1168 | The form becomes WithPackage of the old form |
| Contact.ContactSection.HandleServiceSelection | src/App.tsx:1135-1141 | The form becomes WithSelection of the old form |
| Contact.ContactSection.EditName | src/App.tsx:1289 | Typing changes the name only |
| Contact.ContactSection.EditEmail | src/App.tsx:1301 | Typing changes the e-mail only |
| Contact.ContactSection.EditMessage | src/App.tsx:1344 | Typing changes the message only |
| Portfolio.FilteredItems | src/components/Portfolio.tsx:127-129 | 'all' gives the catalog unchanged; any other category gives only items of that category |
| Portfolio.FilteredItemsExact | src/components/Portfolio.tsx:127-129 | Under a named category each item occurs exactly as often as in the catalog when its category matches and never otherwise, in catalog order; an item with a category outside the filter buttons is never listed under one |
| Portfolio.FeaturedItems | src/components/Portfolio.tsx:131 | Every featured item has its flag set |
| Portfolio.FeaturedItemsExact | src/components/Portfolio.tsx:131 | Exactly the flagged items, with their multiplicities, in order; an item without the flag is never featured |
| Portfolio.DisplayItems | src/components/Portfolio.tsx:132 | The featured items when there is any, else the first min(12, n) filtered items |
| Portfolio.DisplayItemsBounds | src/components/Portfolio.tsx:132 | Never more than the filtered list, exactly min(12, n) without featured items, and always a sub-multiset of the filtered list |
| Portfolio.ShowViewMore | src/components/Portfolio.tsx:245 | Without featured items the button shows iff there are more than twelve items; with featured items iff some filtered item is not featured |
| Portfolio.ViewMoreExactly | src/components/Portfolio.tsx:245 | The button shows iff some items are featured and some are not, or none is featured and there are more than twelve; never for an empty list |
| Portfolio.AfterLoad | src/components/Portfolio.tsx:109-113 | On success the catalog is the fetched logos, then posters, then invitations; on failure it is unchanged; loading ends either way and the category is kept |
| Portfolio.SelectCategory | src/components/Portfolio.tsx:175 | A category click changes the selected category only |
| Portfolio.VisibleCards | src/components/Portfolio.tsx:134-136 | Nothing while loading; the display items of the filtered catalog afterwards |
| Portfolio.FailedLoadShowsNothing | src/components/Portfolio.tsx:111-113 | A failed first load leaves an empty catalog, no cards and no "View More" under every category |
| Portfolio.PostersAreTagged | src/components/Portfolio.tsx:26-87 | All eight posters are filed under 'poster'; exactly the first four are featured |
| Portfolio.InvitationsAreTagged | src/components/Portfolio.tsx:89-106 | Both invitations are filed under 'invitation' and featured |
| Portfolio.PostersView | src/components/Portfolio.tsx:108-129 | In a loaded catalog whose logos are not filed as posters, the poster view is exactly the eight posters |
| Portfolio.FeaturedPosters | src/components/Portfolio.tsx:131 | The featured posters are the first four |
| Portfolio.InvitationsView | src/components/Portfolio.tsx:108-131 | In a loaded catalog, the invitation view is the two invitations, all featured |
| Portfolio.LoadedCatalogViews | src/components/Portfolio.tsx:108-132 | After a successful load, the invitation view shows both invitations without "View More", and the poster view shows the four featured posters with "View More" |
| ReviewForm.WithRating | src/components/ReviewForm.tsx:64-66 | A star click sets the rating and keeps every other field |
| ReviewForm.WithField | src/components/ReviewForm.tsx:139-228 | Typing into one input sets that field and keeps every other field and the rating |
| ReviewForm.Utf16Length | src/components/ReviewForm.tsx:243 | The script length of a string counts UTF-16 code units: between the number of characters and twice that, equal without characters beyond U+FFFF |
| ReviewForm.SubmitDisabled | src/components/ReviewForm.tsx:243 | For text without characters beyond U+FFFF the button is disabled iff submitting, unrated, or fewer than 50 characters; it is always disabled for fewer than 25 characters |
| ReviewForm.RequiredFilled | src/components/ReviewForm.tsx:139-233 | A form that passes the browser's required and minimum-length checks and has a rating has its submit button enabled |
| ReviewForm.ChoicesMakeFormSubmittable | src/components/ReviewForm.tsx:180-243 | Typed name and e-mail, a service picked from the five drop-down options, a clicked star and a 50-unit review pass the browser's check with the button enabled |
| ReviewForm.HighlightedStars | src/components/ReviewForm.tsx:198-209 | Only stars 1 to 5 that are at most the rating are drawn filled |
| ReviewForm.FilledPrefix | src/components/ReviewForm.tsx:198-209 | In a row of stars numbered 1 to n, rating r (0 to n) fills exactly the first r |
| ReviewForm.HighlightedStarsArePrefix | src/components/ReviewForm.tsx:198-209 | For ratings 0 to 5 the filled stars are exactly 1 to rating |
| ReviewForm.RatingClickFillsStars | src/components/ReviewForm.tsx:202-209 | After clicking star s, stars 1 to s are filled, and the button is enabled iff the review is 50 code units or longer |
| ReviewForm.RatingLabels | src/components/ReviewForm.tsx:214-219 | At most one label is rendered, and exactly one for each rating from 0 to 5 |
| ReviewForm.RatingLabelsExactlyOne | src/components/ReviewForm.tsx:214-219 | Exactly one label for each rating 0 to 5 ('Please select a rating', 'Poor', 'Fair', 'Good', 'Very Good', 'Excellent'), all distinct, and none for any other value |
| ReviewForm.ReviewOverlay.constructor | src/components/ReviewForm.tsx:10-37 | Mounting runs both effects once: an open overlay locks scrolling ('hidden', '0px') and attaches the Escape listener, a closed one clears both styles |
| ReviewForm.ReviewOverlay.SetOpen | src/components/ReviewForm.tsx:22-54 | A new isOpen value re-runs both effects: the styles and the listener follow it; the form and the phase are unchanged |
| ReviewForm.ReviewOverlay.Unmount | src/components/ReviewForm.tsx:33-36 | Cleanup always restores both body styles to '' and detaches the listener |
| ReviewForm.ReviewOverlay.KeyDown | src/components/ReviewForm.tsx:41-45 | Escape with the overlay open calls onClose once; anything else calls nothing |
| ReviewForm.ReviewOverlay.Click | src/components/ReviewForm.tsx:93-113 | On the rendered overlay the backdrop and the close button each call onClose once and the content calls nothing; nothing renders while closed |
| ReviewForm.ReviewOverlay.HandleRatingClick | src/components/ReviewForm.tsx:64-66 | The form becomes WithRating of the old form |
| ReviewForm.ReviewOverlay.Edit | src/components/ReviewForm.tsx:139-228 | The form becomes WithField of the old form |
| ReviewForm.ReviewOverlay.BeginSubmit | src/components/ReviewForm.tsx:68-70 | Only an enabled button on a filled form submits; the phase becomes submitting and the button is then disabled |
| ReviewForm.ReviewOverlay.FinishSubmit | src/components/ReviewForm.tsx:75-76 | Submitting becomes submitted; the two flags are never both set |
| ReviewForm.ReviewOverlay.ResetAfterSubmit | src/components/ReviewForm.tsx:79-90 | Back to idle with the empty form (rating 0), and onClose called once |
| ThemeProvider.ParseTheme | src/components/ThemeProvider.tsx:47 | Anything accepted is one of the theme names, parsed to the theme of that name |
| ThemeProvider.ParseThemeName | src/components/ThemeProvider.tsx:47 | Each theme's name parses back to that theme |
| ThemeProvider.ParseThemeAcceptsOnlyNames | src/components/ThemeProvider.tsx:47 | A value is accepted iff it is 'light', 'dark' or 'system' |
| ThemeProvider.InitialTheme | src/components/ThemeProvider.tsx:44-53 | A stored valid name is adopted; a missing or invalid value and a failing read leave the default theme |
| ThemeProvider.PersistedThemeReloads | src/components/ThemeProvider.tsx:134-141 | A theme written by updateTheme is what the next mount with working storage starts from |
| ThemeProvider.DefaultMount | src/components/ThemeProvider.tsx:27-53 | With the default props (theme 'system', key 'portfolio-theme') the mount keeps 'system', which follows the browser's preference, unless that key holds a valid name, which is then adopted |
| ThemeProvider.SystemTheme | src/components/ThemeProvider.tsx:36-41 | Without a window the preference is dark; with one it is dark iff the query reports dark |
| ThemeProvider.Resolve | src/components/ThemeProvider.tsx:58 | Light and dark resolve to themselves; system resolves to the browser's preference |
| ThemeProvider.ResolveIdempotent | src/components/ThemeProvider.tsx:58 | A resolved theme is a fixed point under any preference; the preference matters only for 'system' |
| ThemeProvider.TokenNamesDistinct | src/components/ThemeProvider.tsx:77-88 | There are twelve custom properties, every one listed once, with pairwise distinct CSS names |
| ThemeProvider.TokenTable | src/components/ThemeProvider.tsx:77-106 | Both modes write the same twelve properties; --blue-primary and --blue-secondary are equal in both (#3b82f6, #60a5fa) and every other property differs between the modes |
| ThemeProvider.MetaColorIsGradientStart | src/components/ThemeProvider.tsx:110-116 | The meta colour equals the mode's --gradient-from and the first stop of its body gradient, and differs between modes |
| ThemeProvider.MetaColorText | src/components/ThemeProvider.tsx:114 | The meta colour prints as '#f8fafc' in light mode and '#020617' in dark mode |
| ThemeProvider.UseTheme | src/components/ThemeProvider.tsx:13-19 | Outside a provider the hook fails with its error message; inside it returns the provider's value |
| ThemeProvider.Provider.constructor | src/components/ThemeProvider.tsx:27-53 | Mounting starts from the default; the resolve effect runs for it and again for a different valid stored theme; the document then shows the resolved mode; storage is not written |
| ThemeProvider.Provider.UpdateResolvedTheme | src/components/ThemeProvider.tsx:57-117 | Resolved theme by the rule; root classes keep every non-theme class and hold exactly the resolved one; data-theme, the body transition, background and colour, all twelve properties, and the meta tag (when present) follow the mode |
| ThemeProvider.Provider.ThemeEffect | src/components/ThemeProvider.tsx:119-131 | Unsubscribe, resolve and subscribe again: the document shows the resolved mode, the root keeps its other classes and attributes, and the media listener is attached |
| ThemeProvider.Provider.SetTheme | src/components/ThemeProvider.tsx:134-141 | The theme becomes t even when the write fails; storage holds t under the key exactly when the write succeeds; the root keeps its other classes and attributes and shows the new resolved mode; choosing the current theme leaves the whole document as it was |
| ThemeProvider.Provider.AmbientChange | src/components/ThemeProvider.tsx:122-127 | A preference change re-resolves only while the theme is 'system', keeping the root's other classes and attributes; the theme, storage and listener never change; under another theme the root, its properties, the body styles and the meta tag are all unchanged |
| ThemeContext.LoadTheme | src/contexts/ThemeContext.tsx:29-35 | The loaded theme is light iff the saved value is 'light'; anything else, including nothing, is dark |
| ThemeContext.LoadSavedTheme | src/contexts/ThemeContext.tsx:29-35 | A saved theme's name loads back as that theme |
| ThemeContext.Toggle | src/contexts/ThemeContext.tsx:63-65 | Toggling always changes the theme |
| ThemeContext.ToggleTwice | src/contexts/ThemeContext.tsx:63-65 | Toggling twice returns the original theme |
| ThemeContext.BodyStylesPerTheme | src/contexts/ThemeContext.tsx:52-60 | Each theme has its own background and text colour, and the text colour differs from the background's first stop |
| ThemeContext.UseTheme | src/contexts/ThemeContext.tsx:12-18 | Outside a provider the hook fails with its error message; inside it returns the provider's value |
| ThemeContext.Provider.constructor | src/contexts/ThemeContext.tsx:24-61 | Mounting ends with the loaded theme applied: one theme class on the body, body styles of that theme, and storage holding its name |
| ThemeContext.Provider.ApplyTheme | src/contexts/ThemeContext.tsx:39-61 | The body's theme classes are exactly the current one (other classes kept), 'theme' is saved, and the background, colour and transition are those of the theme |
| ThemeContext.Provider.ToggleTheme | src/contexts/ThemeContext.tsx:63-65 | The other theme, applied and saved: the body keeps its other classes and holds exactly the new theme class, its styles are the new theme's, and the saved entry is what the next load reads back |

## Left out

- JSX layout, class strings, icons and marketing copy are not modelled. The pricing tables' titles and tiers and the drop-down option values are kept as data.
- The project list literal of the preview is not copied into the model. `Gallery.PortfolioPreview` takes it as a constructor parameter, because its contents matter to no property.
- Contact.ServiceKey (and the lemmas on it): `toLowerCase` is modelled for ASCII capitals only. Other characters are kept as they are, so the key shape (no capital) is proved for ASCII capitals only. All six titles are ASCII.
- Contact.ServiceLabel: the table is a map of its six keys. Keys inherited from the object prototype (for example `constructor`) are not modelled.
- Contact.ContactSection.HandleSubmit: it records the text of the corrected template (`InquiryText`), not the garbled one the file holds (`InquiryTextAsWritten`); the two always differ (`AsWrittenDiffers`), see Findings.
- Contact.ContactSection.HandleSubmit: percent-encoding of the text and opening the link are not modelled; the method records the text it would send. The date and time readings are parameters.
- Contact.ContactSection.HandleServiceSelection: the `window.selectServicePackage` bridge is modelled as a direct call, and the scroll of the contact section into view is left out.
- The browser's e-mail format check on the contact and review forms is not modelled. Only the `required` checks are: `Contact.ValidatedSubmission` for the contact form, and a precondition of `ReviewForm.ReviewOverlay.BeginSubmit`.
- Gallery.ShuffleArray: uniformity of the shuffle is not modelled. The random pick is a nondeterministic choice of `j` in `[0, i]`, and the proof covers the bounds and the permutation only.
- Gallery.PortfolioPreview.Displayed: the source reshuffles on every render. The model draws one sample per call.
- ReviewForm.ReviewOverlay: the two timers (2 s and 3 s) are modelled as the separate steps FinishSubmit and ResetAfterSubmit. Their timing, and a reset firing after the overlay was closed, are outside the model. `onClose` is counted in `closeCalls`, and the parent's reaction to it (changing `isOpen`) is `SetOpen`.
- Portfolio.AfterLoad: the fetch and JSON decoding of `/logos.json` are not modelled; the fetched items arrive as a `Result`. A truthy `featured` value other than `true` is not modelled: the flag is `Option<bool>`.
- ThemeProvider.Provider.constructor: the `defaultTheme` and `storageKey` props are constructor arguments; their defaults ('system', 'portfolio-theme') are not applied by the constructor itself, and `ThemeProvider.DefaultMount` states the mount with them.
- ThemeProvider.SystemTheme: the no-window case gives dark. `Provider` itself always runs in a browser, and `window.matchMedia` is reduced to its boolean answer `ambientDark`.
- ThemeProvider.Provider: a change of the `storageKey` prop after mounting is not modelled.
- ThemeProvider.Provider: the root's other inline styles are not modelled, only its twelve custom properties.
- ThemeProvider.Provider: unmounting (removing the media listener) is not modelled.
- ThemeProvider.Provider: the warning printed on a storage failure is not modelled.
- ThemeContext.Provider: this store does not catch storage exceptions. The model has no failing storage for it.
- The image loading and fallback helpers in `src/utils/imageOptimization.ts` are not modelled, nor are image error handlers. The navigation bar's scroll listener is also left out.

## Findings

| source | as written | input that shows it | evidently intended | confidence | as-written member | corrected member |
|---|---|---|---|---|---|---|
| src/App.tsx:1196-1202 | The inquiry template's line markers are multi-character sequences such as U+F8FF U+00FC U+00EB U+00A7. They are each emoji's UTF-8 bytes misread as Mac Roman (mojibake). | Any submission, e.g. the empty form: the text after the header starts with U+F8FF | One pictograph per line: 👤 📧 🎨 📦 💬 📅 ⏰ (U+1F464, U+1F4E7, U+1F3A8, U+1F4E6, U+1F4AC, U+1F4C5, U+23F0) | high; not executed | Contact.InquiryTextAsWritten, Contact.AsWrittenDiffers, Contact.MarkersAreMisdecodedEmoji | Contact.InquiryText, Contact.MarkersAreDistinctEmoji |

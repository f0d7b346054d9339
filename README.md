# Portfolio site: project gallery, contact form and locale switching

This project models the interactive core of a personal portfolio website built with Next.js and React. The model covers:

- **Project cards.** The projects section shows a strip of cards. Each card has the first three technology tags and a "+k" badge for the rest. A card shows the client, or the "personal project" wording when there is none. An empty list shows a message instead of cards.
- **Project modal.** A click on a card opens a modal. Closing it hides the modal at once and drops the selected project 300 ms later, so the exit animation still has content. The modal shows the project's details and a gallery of images followed by an optional video.
- **Fullscreen viewer.** A click on a gallery image opens a viewer. Its "previous" and "next" arrows wrap around, and it has an "i / N" counter.
- **Contact form.** The browser first checks the e-mail field, which has type "email"; an address it rejects stops the submit before any handler runs. Otherwise the form checks the name, the e-mail address and the message against its schema. It then composes a pre-filled WhatsApp message and opens a `wa.me` link for it. The submit handler sets its "sending" flag and its success/error status four times without awaiting anything, so React batches the updates and only the last one is painted: the "sending" state is never displayed.
- **Locale switching.** The language switcher rewrites the locale prefix of the current path. Request-locale resolution keeps Spanish or English and falls back to Spanish for anything else.

Each component becomes one Dafny module:

| module | file | contents |
|---|---|---|
| `Types` | `types.dfy` | `Project` and `ContactInfo`; `Option` for optional fields and JavaScript's `null`; `Truthy` for JavaScript's truth test on optional strings |
| `Data` | `data.dfy` | the published contact details and the two published projects, with each project's prose (card summary and modal description) as a parameter |
| `Numerals` | `numerals.dfy` | how JSX prints a number: decimal text and its read-back |
| `I18n` | `i18n.dfy` | locale resolution |
| `LanguageSwitcher` | `language_switcher.dfy` | first-occurrence replace, the path rewrite, the menu, and the `Switcher` class holding the open flag |
| `Contact` | `contact.dfy` | the digit filter, the schema, the message and URL, and the `ContactForm` class with the submit handler |
| `ProjectModal` | `project_modal.dfy` | wrap-around index arithmetic, the `Viewer` class holding `fullscreenImage`, and the render functions |
| `Projects` | `projects.dfy` | the section's state cells, both as functions and as the `Section` class, and the card rendering |
| `Page` | `page.dfy` | the section and the modal driven together by a sequence of clicks and timer firings |

The modelling choices:

- **State.** State that the components update in place is a class field. Each handler is a method whose `ensures` gives the new state as a function of the old one. The properties are proved about those functions.
- **The deferred clear.** It is a counter of scheduled clears, and `ClearFires` is an event that may happen at any later point. No clock is modelled.
- **The exit animation.** While the modal is closed but still holds its project, its fading backdrop covers the cards. A click there closes the modal again instead of opening a card, and a click on an image of the fading gallery still sets the viewer's index. The modal's spring exit lasts half a second, longer than the 300 ms clear, so this phase lasts until a clear drops the project.
- **The viewer index.** It is an `Option<int>`, not a `nat`: JavaScript can store `-1` or an index past the end in that cell, and the model keeps those values.

## Model

| member | source | states |
|---|---|---|
| `I18n.ResolveLocale` | i18n.ts:5-14 | the result is always "es" or "en"; a supported request is returned unchanged; a missing or unsupported request gives "es" |
| `I18n.MissingLocaleFallsBack` | i18n.ts:12-13 | a missing or empty requested locale resolves to "es" |
| `I18n.ResolveIdempotent` | i18n.ts:12-14 | resolving an already resolved locale gives it back |
| `LanguageSwitcher.IndexOf` | components/ui/LanguageSwitcher.tsx:16 | finds the first occurrence of the pattern: it occurs there and at no earlier position, and `None` means it occurs nowhere |
| `LanguageSwitcher.ReplaceFirst` | components/ui/LanguageSwitcher.tsx:16 | without an occurrence the text is returned unchanged; with the first occurrence at `k`, the text before `k` is kept, the replacement stands at `k`, the text after the occurrence follows it, and the length changes by the difference of the two lengths |
| `LanguageSwitcher.ReplaceFirstSplits` | components/ui/LanguageSwitcher.tsx:16 | with the first occurrence at `k`, the result is the text before `k`, then the replacement, then the text after the occurrence |
| `LanguageSwitcher.ReplaceFirstAbsent` | components/ui/LanguageSwitcher.tsx:16 | a path without an occurrence is returned unchanged |
| `LanguageSwitcher.ReplaceFirstSelf` | components/ui/LanguageSwitcher.tsx:16 | replacing a pattern with itself changes nothing |
| `LanguageSwitcher.SwitchedPath` | components/ui/LanguageSwitcher.tsx:14-17 | a path without "/locale" is kept; otherwise, at the first "/locale", "/newLocale" takes its place and the text before and after it is kept |
| `LanguageSwitcher.SwitchedPathSwapsPrefix` | components/ui/LanguageSwitcher.tsx:14-17 | on a path "/locale…" the rewrite gives "/newLocale…" with the rest of the path kept |
| `LanguageSwitcher.SwitchToCurrentKeepsPath` | components/ui/LanguageSwitcher.tsx:16 | switching to the current locale leaves every path unchanged |
| `LanguageSwitcher.Menu` | components/ui/LanguageSwitcher.tsx:45-67 | no entries while closed; otherwise one entry per supported locale, in order, highlighted exactly when it is the current locale |
| `LanguageSwitcher.OneEntryHighlighted` | components/ui/LanguageSwitcher.tsx:53-63 | with a supported current locale, exactly one entry is highlighted |
| `LanguageSwitcher.Switcher.constructor` | components/ui/LanguageSwitcher.tsx:12 | the menu starts closed and nothing has been pushed |
| `LanguageSwitcher.Switcher.Toggle` | components/ui/LanguageSwitcher.tsx:24 | the button flips the open flag and navigates nowhere |
| `LanguageSwitcher.Switcher.SwitchLanguage` | components/ui/LanguageSwitcher.tsx:14-19 | pushes exactly the rewritten path and leaves the menu closed |
| `Numerals.NatToDecimal` | components/ui/ProjectModal.tsx:295 | the printed number is non-empty and all digits, with no leading zero |
| `Numerals.DecimalRoundTrip` | components/ui/ProjectModal.tsx:295 | reading the printed number back gives the number |
| `Numerals.NatToDecimalInjective` | components/ui/ProjectModal.tsx:295 | different numbers print differently |
| `Contact.DigitsOnly` | components/sections/Contact.tsx:45 | the result holds only digits, each taken from the input, and is no longer than the input |
| `Contact.DigitsOnlyAppend` | components/sections/Contact.tsx:45 | filtering distributes over concatenation, so the result keeps the input's digits in their order |
| `Contact.DigitsOnlyKeepsDigits` | components/sections/Contact.tsx:45 | a string of digits passes through unchanged |
| `Contact.DigitsOnlyDropsOthers` | components/sections/Contact.tsx:45 | a string without digits becomes empty |
| `Contact.DigitsOnlyIdempotent` | components/sections/Contact.tsx:45 | sanitising twice is sanitising once |
| `Contact.SiteNumberDigits` | components/sections/Contact.tsx:134 | the published number "+573135399868" becomes "573135399868" |
| `Contact.ValidationErrors` | components/sections/Contact.tsx:12-16 | there are no errors iff the name has at least 2 characters, the address is an e-mail and the message has at least 10 characters; each field's error, with its exact text, is reported iff that field fails |
| `Contact.ComposeMessage` | components/sections/Contact.tsx:42 | the message starts with the fixed header and ends with the message field; its length is the sum of the header, the three fields and the labels |
| `Contact.ComposeMessageInjective` | components/sections/Contact.tsx:42 | if the name and the address contain no newline, the three fields can be recovered from the composed message |
| `Contact.WhatsAppLink` | components/sections/Contact.tsx:134 | the link is "https://wa.me/" followed by exactly the digits of the number |
| `Contact.WhatsAppUrl` | components/sections/Contact.tsx:48 | the chat URL is the contact link followed by "?text=" and the encoded message |
| `Contact.UrlNumberEndsAtQuery` | components/sections/Contact.tsx:48 | in the chat URL the number ends at the first '?' and is exactly the sanitised digits |
| `Contact.SubmitOutcome` | components/sections/Contact.tsx:40-57 | a submission succeeds iff encoding returned and `window.open` returned |
| `Contact.View` | components/sections/Contact.tsx:259-285 | the button is disabled and reads "sending" exactly while submitting; the success line shows exactly when the status is success and the error line exactly when it is error, so they never both show and neither shows without a status. Because React batches the handler's updates, only the idle view with the outcome is painted after a submit, and the disabled "sending" button never shows |
| `Contact.ContactForm.constructor` | components/sections/Contact.tsx:24-34 | not submitting, no status, empty fields, no link opened |
| `Contact.ContactForm.OnSubmit` | components/sections/Contact.tsx:36-60 | the handler sets the two cells to busy with the old status, busy with no status, busy with the outcome, and idle with the outcome; React batches these updates and paints only the last, idle with the outcome; the status ends non-empty; fields are cleared only on success; the chat URL is opened once encoding returned |
| `Contact.ContactForm.OpenChat` | components/sections/Contact.tsx:40-57 | opens the chat URL once encoding returned; clears the fields and reports success only when `window.open` also returned |
| `Contact.ContactForm.Edit` | components/sections/Contact.tsx:213-250 | typing into the three registered inputs sets the values the form holds, and nothing else |
| `Contact.ContactForm.Submit` | components/sections/Contact.tsx:208-232 | submits what the inputs hold: the handler is reached exactly when that address is empty or the browser accepts it; when it is not reached, no error is reported and nothing changes; otherwise it returns the schema's errors; with errors nothing changes, the history included; without them the handler runs: its outcome becomes the status, the fields are cleared only on success and otherwise still hold what was submitted, and the chat URL is opened exactly when encoding returned |
| `ProjectModal.NextIndex` | components/ui/ProjectModal.tsx:37 | for 0 ≤ i < N the result is (i+1) mod N, within [0, N) |
| `ProjectModal.PreviousIndex` | components/ui/ProjectModal.tsx:31 | for 0 ≤ i < N the result is (i−1+N) mod N, within [0, N) |
| `ProjectModal.NextPreviousInverse` | components/ui/ProjectModal.tsx:29-39 | the two index steps undo each other on every valid index |
| `ProjectModal.NextTimesModular` | components/ui/ProjectModal.tsx:35-39 | k presses of "next" from i give (i+k) mod N |
| `ProjectModal.FullCycle` | components/ui/ProjectModal.tsx:35-39 | N presses of "next" return to the starting image |
| `ProjectModal.Previous` | components/ui/ProjectModal.tsx:29-33 | a no-op without an index or without `images`; on a shown image it steps back with wrap-around and stays in range |
| `ProjectModal.Next` | components/ui/ProjectModal.tsx:35-39 | a no-op without an index or without `images`; on a shown image it steps forward with wrap-around and stays in range |
| `ProjectModal.NextThenPrevious` | components/ui/ProjectModal.tsx:29-39 | the two handlers undo each other on a shown image |
| `ProjectModal.Viewer.constructor` | components/ui/ProjectModal.tsx:17 | the viewer starts closed |
| `ProjectModal.Viewer.HandleImageClick` | components/ui/ProjectModal.tsx:21-23 | clicking image i shows image i |
| `ProjectModal.Viewer.HandleCloseFullscreen` | components/ui/ProjectModal.tsx:25-27 | closing empties the cell |
| `ProjectModal.Viewer.HandlePreviousImage` | components/ui/ProjectModal.tsx:29-33 | the new cell is `Previous` of the old one |
| `ProjectModal.Viewer.HandleNextImage` | components/ui/ProjectModal.tsx:35-39 | the new cell is `Next` of the old one |
| `ProjectModal.GalleryItems` | components/ui/ProjectModal.tsx:136-193 | every image in order, each tied to its own index, then the video last when there is one |
| `ProjectModal.RenderGallery` | components/ui/ProjectModal.tsx:129-136 | the gallery shows iff there is an image or a video; its heading mentions the video iff there is one |
| `ProjectModal.Counter` | components/ui/ProjectModal.tsx:295 | for i ≥ −1 the counter is the decimal of i+1, then " / ", then the decimal of N; below −1 it starts with a minus sign |
| `ProjectModal.CounterReadsBack` | components/ui/ProjectModal.tsx:295 | the counter is "i+1", " / ", "N", and both numbers read back |
| `ProjectModal.RenderViewer` | components/ui/ProjectModal.tsx:204-302 | the viewer shows iff an index is set and `images` is present, even when the index is outside the list; the counter is "i+1 / N"; the arrows show iff N > 1; the image is `images[i]` when i is in range and missing otherwise |
| `ProjectModal.Render` | components/ui/ProjectModal.tsx:19-43 | nothing renders without a project, whatever `isOpen` says, nor while closed; otherwise the title, the technologies, the gallery and the viewer of that project |
| `ProjectModal.ThreeImageTour` | components/ui/ProjectModal.tsx:29-39 | with images [a, b, c]: "1 / 3", previous gives "3 / 3", and next twice gives "2 / 3" |
| `ProjectModal.VideoOnlyGallery` | components/ui/ProjectModal.tsx:129-193 | with no images and a video, the gallery holds just the video and no image can be clicked |
| `Projects.Initial` | components/sections/Projects.tsx:15-16 | nothing selected, modal closed, no clear scheduled |
| `Projects.Open` | components/sections/Projects.tsx:18-21 | from any state, opening shows the modal with the clicked project and cancels no scheduled clear |
| `Projects.Close` | components/sections/Projects.tsx:23-26 | closing hides the modal at once, keeps the project, and schedules exactly one more clear |
| `Projects.FireClear` | components/sections/Projects.tsx:25 | a scheduled clear empties the selection, leaves the open flag as it is, and is no longer pending |
| `Projects.ReopenDoesNotCancelClear` | components/sections/Projects.tsx:23-26 | a clear scheduled before a reopen still runs, and empties the selection while the modal is open |
| `Projects.Section.constructor` | components/sections/Projects.tsx:15-16 | nothing selected, modal closed, no clear scheduled |
| `Projects.Section.HandleProjectClick` | components/sections/Projects.tsx:18-21 | the new state is `Open` of the old one |
| `Projects.Section.HandleCloseModal` | components/sections/Projects.tsx:23-26 | the new state is `Close` of the old one |
| `Projects.Section.RunScheduledClear` | components/sections/Projects.tsx:25 | the new state is `FireClear` of the old one |
| `Projects.CardTags` | components/sections/Projects.tsx:124 | the first min(3, len) technologies, in their original order |
| `Projects.OverflowCount` | components/sections/Projects.tsx:132-134 | a badge exists iff there are more than 3 technologies, and it counts exactly those not shown |
| `Projects.TagsAccountForAll` | components/sections/Projects.tsx:124-134 | the shown tags plus the badge's count equal the number of technologies |
| `Projects.ClientLine` | components/sections/Projects.tsx:117 | shows the client when it is present and non-empty, and the "personal" wording otherwise |
| `Projects.RenderCard` | components/sections/Projects.tsx:124-134 | the card's tags are the truncated list; its badge exists iff len > 3 and reads "+" and len−3 |
| `Projects.RenderList` | components/sections/Projects.tsx:80-156 | the empty message shows iff there are no projects; otherwise one card per project, in order |
| `Data.PublishedShapes` | lib/data.ts:41-83 | the published projects have 9 and 8 technologies and 7 and 9 images, the first starts with TypeScript, JavaScript and React, and only the second has a video |
| `Projects.PublishedList` | lib/data.ts:41-83 | the published list renders as two cards in data order: TypeScript, JavaScript and React with badge "+6", then a card with badge "+5" |
| `Projects.PublishedCards` | lib/data.ts:41-83 | the published cards show TypeScript, JavaScript and React, with badges "+6" and "+5" |
| `Page.Enabled` | components/ui/ProjectModal.tsx:42-60 | a card takes a click exactly when the modal holds no project; the close control takes one only while a project is held and no viewer covers it; the viewer's controls take one only while the viewer shows; a gallery image takes one while the modal shows without the viewer, and also while the modal fades out, on the project it still holds |
| `Page.Step` | components/sections/Projects.tsx:18-26 | a click that cannot reach its handler changes nothing; a card click applies `Open` and a close applies `Close` to the section, and neither touches the viewer; the viewer's events leave the section alone |
| `Page.ClickDuringExitCloses` | components/ui/ProjectModal.tsx:42-60 | right after closing, a click aimed at a card does not reach it and changes nothing, while the click on the fading backdrop closes again and schedules a second clear; the first project stays held in both cases |
| `Page.DoubleCloseThenClear` | components/sections/Projects.tsx:18-26 | open, close twice during the exit, and let the first clear run: nothing is held, the modal is closed, and one clear is still pending |
| `Page.StaleClearHidesReopenedModal` | components/sections/Projects.tsx:18-26 | after that, open a card and let the second clear run: the modal is meant to be open, but nothing is selected and nothing is shown |
| `Page.StaleViewerKept` | components/ui/ProjectModal.tsx:17-27 | in the same race, reopening the project and opening its viewer at image i: the second clear empties the selection and the viewer keeps i |
| `Page.StaleViewerOutOfRange` | components/ui/ProjectModal.tsx:17-39 | then opening a project with fewer images than the last index shows the viewer at that index: the counter is past the total, there is no image, and "next" moves further out |
| `Page.ExitClickViewerOutOfRange` | components/ui/ProjectModal.tsx:17-39 | open a project, close it, click its last image in the fading gallery, let the clear run and open a project with fewer images: the viewer shows that index, the counter is past the total, there is no image, and "next" moves further out |
| `Page.PublishedStaleCounter` | components/ui/ProjectModal.tsx:295 | on the published projects that sequence ends with the counter "9 / 7" |
| `Page.RunConcat` | components/sections/Projects.tsx:18-26 | running two sequences of events one after the other is running their concatenation |
| `Page.OpenCancelling` | components/sections/Projects.tsx:18-21 | the corrected open shows the clicked project and leaves no clear scheduled |
| `Page.StepCancellingConsistent` | components/sections/Projects.tsx:18-26 | with the corrected open, which also closes the viewer, every event keeps the page consistent: an open modal has a project and no clear pending, and while it is open the viewer is closed or on one of its images |
| `Page.RunCancellingConsistent` | components/sections/Projects.tsx:18-26 | with the corrected open, every sequence of events keeps the page consistent |
| `Page.CancellingKeepsReopenedModal` | components/sections/Projects.tsx:18-26 | with the corrected open, the double-close race ends with the modal open on the second project, and it is shown |
| `Page.CancellingViewerInRange` | components/ui/ProjectModal.tsx:204-302 | with the corrected open, which cancels pending clears and closes the viewer, from the initial page: an open modal is always shown, and a shown viewer always has its image and an index within the total |

## Left out

- Animation, styling and layout are not modelled. This covers the framer-motion variants, delays and springs, and the hover effects. It also covers the Hero, About, TechStack and AstronautAnimation components and the root layouts, which have no behaviour beyond presentation.
- ThemeToggle is not modelled: it is a thin wrapper that flips next-themes' theme between "light" and "dark". Footer is not modelled: its only behaviour is printing the current year, which it reads from the system clock.
- Real time is not modelled. The 300 ms `setTimeout` is an event, `ClearFires`, that may fire at any later point, and clicks and clears may interleave in any order. The only ordering the code's constants impose, the clear ending before the half-second exit, is kept through `Page.Exiting`.
- Page.Enabled: during the exit animation the fading modal is taken as drawn at the moment of the close, which is without the viewer. Its backdrop, close button and gallery images take clicks until the clear drops the project. The fade's opacity is not modelled.
- The published projects' prose is a parameter of `Data.Educadia` and `Data.Temperature`, and of the list `Data.Published`. The published text is `Data.educadiaProse` and `Data.temperatureProse`, and `Data.projects` is the list with that text. So the facts about the published projects hold for any prose, the published text included. No property depends on that text, and writing it into every proof makes the proofs slow.
- Calls into libraries are parameters of the model:
  - `encodeURIComponent` is a function that returns `None` when it throws.
  - `window.open` is a flag that says whether it returned normally.
  - zod's e-mail check is a predicate.
  - The browser's own syntax check for a `type="email"` field is another predicate.
  - `router.push` is a log of the pushed paths.
- The dynamic import of the message catalogue and the next-intl middleware are not modelled. The translated captions a card uses are a `Captions` parameter.
- Contact.ValidationErrors: compares lengths in Unicode code points. zod counts UTF-16 code units, so the two differ for characters outside the Basic Multilingual Plane.
- LanguageSwitcher.SwitchedPath: treats the new locale as literal text. `String.replace` would expand `$` patterns in the replacement, but the only values that reach it are "es" and "en", which contain none.
- Contact.ContactForm.Submit: requires that no submission is in progress. The handler contains no `await` and always clears the flag before returning, so between events the form is idle.
- The viewer is not reset when a project is opened. A reset on close would not be enough, because the fading gallery takes clicks after the close. A reset on open keeps the index inside the next project's images. The code does neither, and the model follows the code. The consequence is in the second row under "## Findings".
- ProjectModal.Render: leaves out the fixed headings, such as "Descripción" and the translated technologies heading, and the images' alt texts. It keeps the data those headings label.

## Findings

| source | as written | input that shows it | evidently intended | confidence | as-written member | corrected member |
|---|---|---|---|---|---|---|
| components/sections/Projects.tsx:18-26 | `handleCloseModal` schedules a clear of the selection and keeps no timer handle, so a reopen before the clear runs does not cancel it | click card A, then close it twice while it fades out (the backdrop is still there), let the first clear run, and click card B before the second clear runs: the second clear fires while the modal is open, the selection becomes null and the modal disappears | reopening cancels the pending clear, so an open modal always has its project | medium, not executed: needs two closes within 300 ms and a reopen within the next few hundred milliseconds | `Page.StaleClearHidesReopenedModal` | `Page.RunCancellingConsistent` |
| components/ui/ProjectModal.tsx:17-39 | `fullscreenImage` survives a change of project, and `handleNextImage` wraps only at exactly N−1 | open the 9-image project, close it, click its 9th image while the modal fades out, wait for the clear, then open the 7-image project: the viewer shows "9 / 7" with no image, and "next" gives "10 / 7" | opening a project starts with the viewer closed, so the viewer index always lies within the current project's images | medium, not executed: needs a click on an image during the 300 ms fade-out | `Page.ExitClickViewerOutOfRange` | `Page.CancellingViewerInRange` |

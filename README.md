# Restaurant template: UI state of the interactive sections

This is a Dafny model of the four interactive components of a Next.js
restaurant landing page. Each component's React state cells become the
fields of a class, and each event handler becomes a method that updates
those fields. What a component renders from its state is a pure function
of that state.

- **Menu** (`menu.dfy`, module `Menu`): the catalog — dish and category records and the default
  catalog of 4 categories and 24 dishes. The selected-category cell starts at the first category
  and changes when a category button is clicked. The list of dishes shown for the selection is modelled,
  along with the active style of the category buttons and the badges of each dish.
- **Navbar** (`navigation.dfy`, module `Navigation`): scroll state, the mobile menu, in-page link clicks
  and their scroll targets, the light/dark switch (desktop and mobile buttons), the hydration
  guard, and the background tier that is drawn.
- **Gallery** (`lightbox.dfy`, module `Lightbox`): the grid of tiles and the lightbox dialog —
  the handlers the gallery passes to the dialog, and what the dialog shows.
- **ContactForm** (`contact.dfy`, module `Contact`): the four text fields, the submitting flag,
  the two synchronous steps of submission and the submit button.

`wrappers.dfy` holds `Option`, which models `undefined`/`null` and absent optional props.

Props with defaults are explicit constructor arguments. `OrDefault(prop, default)` models a prop
that is left out. Browser effects (scrolling, `preventDefault`) are returned as values. The set of
element ids in the document is a parameter.

## Model

| member | source | states |
|---|---|---|
| Menu.FilterByCategory | src/components/MenuSection.tsx:308-309 | the displayed list is no longer than the catalog, and every displayed dish has the selected category |
| Menu.FilterCounts | src/components/MenuSection.tsx:308-309 | each matching dish is kept exactly as often as it occurs in the catalog; every other dish is dropped |
| Menu.FilterMembership | src/components/MenuSection.tsx:308-309 | a dish is displayed if and only if it is in the catalog and has the selected category |
| Menu.FilterIsSubsequence | src/components/MenuSection.tsx:308-309 | the displayed dishes keep their catalog order (order-preserving subsequence) |
| Menu.FilterIdempotent | src/components/MenuSection.tsx:308-309 | filtering an already filtered list by the same category changes nothing |
| Menu.FilterAppend | src/components/MenuSection.tsx:308-309 | filtering a concatenated catalog gives the concatenation of the filtered parts |
| Menu.FilterKeepsAll | src/components/MenuSection.tsx:308-309 | a catalog whose dishes are all of the category is shown whole |
| Menu.FilterDropsAll | src/components/MenuSection.tsx:308-309 | a catalog with no dish of the category shows nothing |
| Menu.Badges | src/components/MenuSection.tsx:325-345 | Signature, Spicy and Vegetarian each appear if and only if the dish's flag is set, and never out of the order Signature, Spicy, Vegetarian |
| Menu.CategoryButtons | src/components/MenuSection.tsx:281-291 | one button per category, in category order; a button is active if and only if its id is the selected one |
| Menu.ExactlyOneActiveButton | src/components/MenuSection.tsx:288-291 | with distinct category ids and a selection naming a category, exactly one button is active |
| Menu.InitialSelection | src/components/MenuSection.tsx:239 | the first category's id; no selection exists for an empty category list |
| Wrappers.OrDefault | src/components/MenuSection.tsx:236-237 | an absent prop takes the declared default; a given prop, even an empty list, is kept as it is |
| Menu.MenuSection.constructor | src/components/MenuSection.tsx:233-239 | requires a non-empty category list (otherwise `categories[0]` is undefined and reading its `.id` throws); keeps the props; the selection starts at the first category's id and names a category |
| Menu.MenuSection.ClickCategory | src/components/MenuSection.tsx:281-286 | the selection becomes the clicked category's id; it still names a category; re-clicking the current category leaves it unchanged; the catalog props are constants |
| Menu.MenuSection.DisplayedItems | src/components/MenuSection.tsx:308-309 | every shown dish matches the selection, every matching catalog dish is shown as often as it occurs in the catalog (multiset counts), and catalog order is kept |
| Menu.MenuSection.Buttons | src/components/MenuSection.tsx:281-291 | button styles for the current selection; a button is active if and only if it is the selected category's; with distinct ids exactly one button is active |
| Menu.CatalogScenario | src/components/MenuSection.tsx:239-309 | for a two-category, three-dish catalog: starters first, then only the main course after a click; a repeated click changes nothing; the badge lists are as expected |
| Menu.DefaultCatalogScenario | src/components/MenuSection.tsx:233-239 | a section without catalog props shows exactly the default starters |
| Menu.DefaultStartersFirst | src/components/MenuSection.tsx:33-90 | the first default category is the starters, and filtering by it yields the six starters |
| Menu.DefaultCategoryIdsDistinct | src/components/MenuSection.tsx:33-38 | the four default category ids are distinct |
| Menu.DefaultItemsReferToCategories | src/components/MenuSection.tsx:33-231 | every default dish names one of the default category ids |
| Menu.DefaultItemIdsDistinct | src/components/MenuSection.tsx:40-231 | the 24 default dish ids (the React keys) are pairwise distinct |
| Menu.DefaultIdsDistinct | src/components/MenuSection.tsx:40-231 | the id lists of the four default groups are distinct within each group and disjoint across groups |
| Menu.DefaultSixPerCategory | src/components/MenuSection.tsx:33-231 | each default category shows six dishes |
| Menu.DefaultFilter | src/components/MenuSection.tsx:33-231 | filtering the default catalog by a category gives exactly that category's group, or nothing for an unknown id |
| Menu.DefaultGroups | src/components/MenuSection.tsx:40-231 | the default dishes form four groups of six, each of one category, with the listed ids |
| Navigation.NavItemsWellFormed | src/components/Navbar.tsx:9-16 | six links with distinct hrefs (the React keys), each starting with '#' and each a scroll link |
| Navigation.AnchorId | src/components/Navbar.tsx:31 | `href.substring(1)`: the href without its first character, or empty for an empty href |
| Navigation.NavClickEffectOf | src/components/Navbar.tsx:22-35 | the default navigation is suppressed if and only if the link is a scroll link; '#top' scrolls to the top; any other scroll link scrolls to the element named by its anchor when that element exists, and otherwise does not scroll |
| Navigation.NavItemsScroll | src/components/Navbar.tsx:9-37 | every bar link suppresses navigation; Home scrolls to the top, and the others scroll to their section when it exists and do not scroll otherwise |
| Navigation.LogoScrollsToTop | src/components/Navbar.tsx:69-71 | the brand link suppresses navigation and scrolls to the top |
| Navigation.NextTheme | src/components/Navbar.tsx:90 | 'dark' flips to 'light', and every other value (including undefined) flips to 'dark' |
| Navigation.NextThemeTwice | src/components/Navbar.tsx:90 | two flips restore 'light' and 'dark'; any other value ends at 'light' |
| Navigation.ThemeIconFor | src/components/Navbar.tsx:94-98 | the sun is shown exactly when a click would switch to light |
| Navigation.MobileThemeLabel | src/components/Navbar.tsx:150-160 | the mobile caption names the theme a click switches to |
| Navigation.Tier | src/components/Navbar.tsx:58-64 | an open mobile menu wins; otherwise the bar is Scrolled if scrolled past the threshold, else Base (three if-and-only-ifs) |
| Navigation.Navbar.constructor | src/components/Navbar.tsx:19-40 | not scrolled, menu closed, not mounted, theme as the provider gives it |
| Navigation.Navbar.Mount | src/components/Navbar.tsx:43 | sets `mounted`, nothing else changes |
| Navigation.Navbar.HandleScroll | src/components/Navbar.tsx:46-49 | scrolled exactly when `scrollY > 20` (strict), nothing else changes |
| Navigation.Navbar.ToggleMobileMenu | src/components/Navbar.tsx:105 | negates the menu flag, nothing else changes |
| Navigation.Navbar.HandleNavClick | src/components/Navbar.tsx:22-37 | returns the click's effect; a scroll link always closes the menu, whether or not its target exists; a non-scroll link changes nothing |
| Navigation.Navbar.ToggleThemeDesktop | src/components/Navbar.tsx:90 | flips the theme and leaves the menu and other cells as they were |
| Navigation.Navbar.ToggleThemeMobile | src/components/Navbar.tsx:144-147 | flips the theme and closes the menu |
| Navigation.Navbar.Render | src/components/Navbar.tsx:54-121 | renders nothing exactly when not mounted; otherwise the tier of the current cells, the close icon and the mobile panel exactly when the menu is open, the sun exactly when a click would switch to light, and the mobile caption naming the theme a click switches to |
| Navigation.ScrollScenario | src/components/Navbar.tsx:48 | scroll offsets 0, 25, 10 give not scrolled, scrolled, not scrolled; 20 is not past the threshold, 20.5 and 21 are |
| Navigation.HydrationScenario | src/components/Navbar.tsx:40-147 | nothing renders before mounting; after mounting the bar shows the base tier; mounting survives all other handlers; the mobile theme button closes the menu; toggling the menu twice restores it; a click on a missing section still closes the open menu |
| Lightbox.GalleryImagesShape | src/components/Gallery.tsx:15-22 | six tiles, all the same photo with the same alt text |
| Lightbox.ViewOf | src/components/Gallery.tsx:107-115 | the dialog is shown if and only if open; its content is shown if and only if an image is selected, and it is the selected image |
| Lightbox.Gallery.constructor | src/components/Gallery.tsx:25-26 | no image selected, dialog closed, and the open/selected invariant holds |
| Lightbox.Gallery.ClickImage | src/components/Gallery.tsx:83-91 | selects tile k's image and opens the dialog; the invariant holds |
| Lightbox.Gallery.OnOpenChange | src/components/Gallery.tsx:109-112 | records `open`; closing clears the selection (so it restores the invariant), opening keeps it |
| Lightbox.Gallery.CloseButton | src/components/Gallery.tsx:138 | closes the dialog and keeps the selection; the invariant holds |
| Lightbox.Gallery.Render | src/components/Gallery.tsx:107-115 | closed if and only if the dialog is closed; under the invariant an open dialog is never empty; the image content is shown if and only if the dialog is open with a selection, and it is the selected image |
| Lightbox.DismissScenario | src/components/Gallery.tsx:88-112 | click then dismiss shows the image then nothing; dismissing twice equals dismissing once |
| Lightbox.CloseButtonScenario | src/components/Gallery.tsx:88-138 | after the close button the old image stays selected but is hidden, until the next tile click replaces it |
| Contact.WithField | src/components/ContactForm.tsx:27-32 | the edited field takes the new value, and the other three keep theirs |
| Contact.FieldsDetermineForm | src/components/ContactForm.tsx:9-14 | two form records that agree on all four fields are equal |
| Contact.WithCurrentValue | src/components/ContactForm.tsx:31 | writing a field's current value back leaves the record equal |
| Contact.WithFieldTwice | src/components/ContactForm.tsx:31 | the last write to a field wins; writes to different fields commute |
| Contact.SubmitButtonFor | src/components/ContactForm.tsx:156-158 | disabled if and only if submitting; the caption is "Sending..." if and only if submitting, otherwise "Send Message" |
| Contact.ContactForm.constructor | src/components/ContactForm.tsx:16-25 | four empty fields, not submitting |
| Contact.ContactForm.HandleChange | src/components/ContactForm.tsx:27-32 | the record becomes `WithField` of the old record; the flag is unchanged |
| Contact.ContactForm.BeginSubmit | src/components/ContactForm.tsx:34-36 | callable only with all four required fields filled in and no submission under way (the button is disabled while sending); sets submitting and keeps the record |
| Contact.ContactForm.CompleteSubmit | src/components/ContactForm.tsx:40-41 | resets the record to the four empty fields and clears the flag, whatever the fields held |
| Contact.ContactForm.Button | src/components/ContactForm.tsx:156-158 | the button for the current flag: disabled and "Sending..." exactly while submitting, "Send Message" exactly otherwise |
| Contact.SubmitScenario | src/components/ContactForm.tsx:31-41 | the form, filled in completely, is kept while sending; the completion wipes it, including an edit made during the wait |

## Left out

- Animation: framer-motion variants, durations, stagger delays, easing curves and the exit-before-enter behaviour of `AnimatePresence` belong to a foreign library.
- DOM effects: `window.scrollTo`, `scrollIntoView`, `getElementById` and `preventDefault` are returned as a `NavClickEffect` value. The element ids in the document are a set parameter. Adding and removing the scroll listener is not modelled.
- Theme persistence: `useTheme`/`setTheme` of next-themes is an in-memory `Option<string>` cell; storage and the system preference are left out.
- Dialog internals: the dialog component's own code is not part of this model. The model assumes it shows its content exactly while `open` is true, and that it calls `onOpenChange(false)` on dismissal.
- The one-second wait in `handleSubmit`: only the synchronous steps before and after it (`BeginSubmit`, `CompleteSubmit`) are modelled. Interleaving is shown only by a scenario, in which an edit made between them is wiped.
- Contact.ContactForm.BeginSubmit: the browser's own validation is reduced to "every field is non-empty"; the syntax check of the `type="email"` input is left abstract.
- Contact.ContactForm.HandleChange: takes one of the four fields. An input whose `name` is not a form key would add a key to the record in the source; no input of the form does that.
- Menu.MenuItem: absent optional flags (`isSpicy`, `isVegetarian`, `isSignature`) are `false`, the falsy value they have in the source. `image` is kept but never rendered by the component.
- Lightbox.GalleryImage: `src` is the name of the imported asset (a string) rather than the bundler's image object. `next/image` rendering and all Tailwind class strings beyond the tier and active/inactive choice are left out.
- Title and description props of the menu section are display text only and are not modelled.
- Navigation.Navbar.HandleScroll: `window.scrollY` is a `real`, the threshold is 20.0 and the comparison is strict; the browser's event stream is left out.
- The mobile panel's links call the same handler as the desktop links, so they are modelled once, by `HandleNavClick`.
- Menu.MenuSection.ClickCategory: the selection changes only through a button of an existing category. The source has no path that selects an unknown id, so no error case is modelled.
- Lightbox.Gallery: the lightbox has no defensive close in the source, so none is modelled; an open dialog without a selection arises only if the dialog itself reports `open(true)` while nothing is selected, and it then shows no content.
- Static or configuration-only files (hero, about and reservations markup; sitemap; site configuration; page composition; lint configuration) hold no state logic and are not part of this model.

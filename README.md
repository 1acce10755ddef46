# Imóveis MR — catalogue store, admin forms and administrator bootstrap in Dafny

This project models the state logic of the Imóveis MR real-estate site, a single-page React application.
It covers four parts:

- **The catalogue store (`App.tsx`).** The listings ("properties") and categories sequences, the hero
  banner, the session login flag, the current page and the details-page carousel. The admin commands
  are: prepend a listing, remove a listing by id, set a listing's status, toggle its featured flag,
  append or remove a category, replace the banner (an empty URL resets it to the default), log in and
  log out, and guarded navigation. Every change is written back to browser storage.
- **The admin panel's forms (`components/AdminPanel.tsx`).** The new-listing form has a cap of five
  photos and removes a photo by position. Saving a listing needs at least one photo and forces status
  "available" with the first photo as thumbnail. Saving a category needs a photo.
- **The single-administrator bootstrap (`components/LoginModal.tsx`).** When no credential is stored,
  the dialog registers one, gated by the fixed installation key `MR-ADMIN-2025`. Afterwards it logs in
  against the stored pair.
- **The per-category counters (`components/PropertyTypes.tsx`).**

Layout, one module per file:

| file | module | models |
|---|---|---|
| types.dfy | `Types` | the records of `types.ts` |
| seqs.dfy | `Seqs` | `Array.prototype.filter` and the lemmas about what it keeps (order, multiplicity) |
| catalog.dfy | `Catalog` | the pure bodies of the App.tsx handlers and views, and the carousel arithmetic |
| app.dfy | `App` | class `AppStore`: App.tsx's state and its storage write-back |
| admin_panel.dfy | `AdminForms` | class `AdminPanel`: the two forms |
| login_modal.dfy | `Login` | class `LoginModal`: the bootstrap state machine |
| property_types.dfy | `PropertyTypes` | `getCount` and the card counters |
| site.dfy | `Site` | how App.tsx wires the panel's callbacks to the store, and a first-listing scenario |

Browser storage is modelled as typed values, not JSON text. App.tsx's four keys form the `App.Storage`
record, held in the store's `storage` field: `mr_properties_v3`, `mr_categories_v3`,
`mr_hero_image_v3` and the session key `mr_session_login`. Each key is an `Option`: `None` means the
key is absent. The credential key `mr_master_creds` is the `saved` field of `Login.LoginModal`. It is
read when the dialog mounts and written when registration succeeds. The code reads the key again on
every login attempt; the model compares against the value read at mount, which is the same value in a
single tab. Its key is disjoint from App's keys.

Details of the code that the model keeps:

- The seed categories are "Casas", "Apartamentos" and "Escritórios", with ids "1", "2" and "3".
- Registration checks for empty fields before it checks the key.
- `beds`, `baths` and `sqft` are unbounded integers (`int`), because nothing in the code keeps them
  non-negative.
- A stored but empty category list is used as it is. The seeds are installed only when the key is
  absent.
- The form has no control for `featured`, so every listing saved through it is featured.
- A failed login also clears the password field.

## Model

| member | source | states |
|---|---|---|
| Catalog.LoadCategories | App.tsx:30-38 | a stored category list is used as is, even when empty; with none stored, the three seed categories |
| Catalog.LoadProperties | App.tsx:41-45 | a stored listing list is used as is; with none stored, no listings |
| Catalog.AddProperty | App.tsx:93 | one longer; the head is the new listing and the tail is the old sequence unchanged |
| Catalog.RemoveProperty | App.tsx:94 | no survivor has the id; every listing with another id survives; the result is an order-preserving subsequence |
| Catalog.RemovePropertyExact | App.tsx:94 | each listing with another id is kept exactly as many times as it occurred; the id's listings occur 0 times |
| Catalog.RemoveAbsentId | App.tsx:94 | removing an id no listing has is a no-op |
| Catalog.RemoveIdempotent | App.tsx:94 | removing the same id twice gives the same result as once |
| Catalog.RemoveUndoesAdd | App.tsx:93-94 | adding a listing with a fresh id, then removing that id, restores the old sequence |
| Catalog.UpdateStatus | App.tsx:95 | same length and order; each entry differs from the old one at most in `status`, which is the new status exactly where the id matches |
| Catalog.UpdateStatusLastWins | App.tsx:95 | setting two statuses in a row on one id gives the same result as setting only the second |
| Catalog.ToggleFeatured | App.tsx:96 | same length and order; each entry differs at most in `featured`, which is flipped exactly where the id matches |
| Catalog.ToggleTwice | App.tsx:96 | toggling the same id twice returns the original sequence |
| Catalog.AddCategory | App.tsx:98 | one longer; the old categories come first, unchanged, and the new one is last |
| Catalog.RemoveCategory | App.tsx:99 | no survivor has the id; every other category survives; order is preserved |
| Catalog.RemoveCategoryExact | App.tsx:99 | each category with another id is kept exactly as many times as it occurred; the id's categories occur 0 times |
| Catalog.HeroOrDefault | App.tsx:65-68 | the banner is never empty; a non-empty URL is kept; the empty URL gives DEFAULT_HERO_IMAGE |
| Catalog.HomeView | App.tsx:124 | exactly the featured and available listings, as an order-preserving subsequence |
| Catalog.CatalogView | App.tsx:138 | exactly the available listings, as an order-preserving subsequence |
| Catalog.ViewsExact | App.tsx:124-138 | each view keeps every qualifying listing as often as it occurs and nothing else |
| Catalog.HomeWithinCatalog | App.tsx:124-138 | the home view is an order-preserving subsequence of the catalogue view |
| Catalog.HomeViewAfterAdd | App.tsx:93-124 | a newly added featured, available listing becomes the head of the home view, followed by the old home view |
| Catalog.NotAvailableLeavesViews | App.tsx:95-138 | after marking an id sold or rented, neither view shows a listing with that id |
| Catalog.NextImageIndex | App.tsx:192 | the right arrow stays in [0, n) and wraps from the last photo to the first |
| Catalog.PrevImageIndex | App.tsx:186 | the left arrow stays in [0, n) and wraps from the first photo to the last |
| Catalog.ArrowsInverse | App.tsx:186-192 | the left and right arrows undo each other |
| App.AppStore.constructor | App.tsx:20-62 | starts on the home page with the loaded collections, both written back to storage; a stored non-empty banner is adopted, else the default; logged in exactly when the session key is "true" |
| App.AppStore.UpdateHeroImage | App.tsx:65-68 | the displayed banner and its stored copy are both HeroOrDefault(url); nothing else changes |
| App.AppStore.NavigateTo | App.tsx:71-82 | contact leaves the page unchanged; admin while logged out leaves the page unchanged and opens the login dialog; any other target becomes the page; the admin page is reached only when logged in |
| App.AppStore.ViewDetails | App.tsx:85-90 | the details page shows the chosen listing with the carousel at index 0 |
| App.AppStore.DisplayedImage | App.tsx:177 | the details page shows one of the listing's photos, or its thumbnail when it has none |
| App.AppStore.NextImage | App.tsx:183-196 | the carousel index becomes NextImageIndex of the old index |
| App.AppStore.PrevImage | App.tsx:183-190 | the carousel index becomes PrevImageIndex of the old index |
| App.AppStore.SelectImage | App.tsx:208-213 | a thumbnail click selects that photo |
| App.AppStore.AddProperty | App.tsx:93 | listings become Catalog.AddProperty of the old ones and are written back; categories, banner and session are unchanged |
| App.AppStore.RemoveProperty | App.tsx:94 | listings become Catalog.RemoveProperty of the old ones and are written back; nothing else changes |
| App.AppStore.UpdateStatus | App.tsx:95 | listings become Catalog.UpdateStatus of the old ones and are written back; nothing else changes |
| App.AppStore.ToggleFeatured | App.tsx:96 | listings become Catalog.ToggleFeatured of the old ones and are written back; nothing else changes |
| App.AppStore.AddCategory | App.tsx:98 | categories become Catalog.AddCategory of the old ones and are written back; the listings never change |
| App.AppStore.RemoveCategory | App.tsx:99 | categories become Catalog.RemoveCategory of the old ones and are written back; the listings never change, even those naming the category |
| App.AppStore.SetLoginModal | App.tsx:274 | opens or closes the login dialog |
| App.AppStore.LoginSuccess | App.tsx:101-106 | logged in, session key "true", dialog closed, admin page shown |
| App.AppStore.Logout | App.tsx:108-112 | logged out, session key removed, home page shown; the catalogue is untouched |
| AdminForms.DefaultCategory | components/AdminPanel.tsx:34 | the first category's name, or "Casas" when there are no categories or that name is empty |
| AdminForms.InitialForm | components/AdminPanel.tsx:33-35 | empty texts, beds 1, baths 1, sqft 50, no photos, sale, featured, and the default category |
| AdminForms.SliceTo | components/AdminPanel.tsx:50 | JavaScript `slice(0, end)`: a prefix, with a negative end counting back from the length |
| AdminForms.FilesToProcess | components/AdminPanel.tsx:49-50 | a prefix of the selection: all of it when it fits, otherwise exactly 5 minus the current count, so the photo count never passes 5 |
| AdminForms.RemoveAt | components/AdminPanel.tsx:63-65 | removes exactly position i and keeps the rest in order; an out-of-range i leaves the list unchanged |
| AdminForms.AdminPanel.constructor | components/AdminPanel.tsx:33-38 | the listing form is InitialForm(categories) and the category form is empty |
| AdminForms.AdminPanel.EditFields | components/AdminPanel.tsx:146-190 | the form's inputs replace their own fields; the photos and featured flag are kept |
| AdminForms.AdminPanel.AddImages | components/AdminPanel.tsx:46-60 | appends, in order, the part of the selection that fits; the list never exceeds 5 photos |
| AdminForms.AdminPanel.RemoveImage | components/AdminPanel.tsx:63-65 | the photos become RemoveAt(old photos, index), one fewer when the index is in range |
| AdminForms.AdminPanel.SaveProperty | components/AdminPanel.tsx:78-89 | refuses exactly when there are no photos; otherwise returns the fresh id, status available, the first photo as thumbnail, and every other field copied from the form |
| AdminForms.AdminPanel.SetCategoryName | components/AdminPanel.tsx:208 | sets the category name field |
| AdminForms.AdminPanel.SetCategoryImage | components/AdminPanel.tsx:68-75 | sets the category photo field |
| AdminForms.AdminPanel.SaveCategory | components/AdminPanel.tsx:92-98 | refuses exactly when the photo is empty, keeping the form; otherwise returns the category with the fresh id and resets the form to an empty name and photo |
| Login.LoginModal.constructor | components/LoginModal.tsx:24-33 | register mode if and only if no credential is stored; adminExists if and only if one is |
| Login.LoginModal.FirstAccessOffered | components/LoginModal.tsx:146-154 | the "first access" button is never offered once an administrator exists |
| Login.LoginModal.StartFirstAccess | components/LoginModal.tsx:146-154 | the button switches to register mode |
| Login.LoginModal.SetUser | components/LoginModal.tsx:104-111 | sets the user field |
| Login.LoginModal.SetPass | components/LoginModal.tsx:114-121 | sets the password field |
| Login.LoginModal.SetSecurityKey | components/LoginModal.tsx:130-137 | sets the installation key field |
| Login.LoginModal.HandleAction | components/LoginModal.tsx:35-77 | an empty field aborts registration before the key is checked; a wrong key aborts; neither writes a credential. Success stores exactly {user, pass}, switches to login mode, sets adminExists and clears all three fields. Login succeeds if and only if both entered values equal the stored pair; a failure clears only the password. Once a credential is stored the only outcomes are login success or refusal, and the credential is never replaced or removed; the invariant keeps register mode unreachable while one is stored |
| Login.RegisterThenLogin | components/LoginModal.tsx:35-77 | on a fresh installation, registering with the key and then logging in with the same pair succeeds; a different password is refused; re-registration stays unavailable |
| Login.WrongKeyKeepsNoAdmin | components/LoginModal.tsx:40-47 | a wrong key (or an empty field) leaves no credential stored and the dialog in register mode |
| PropertyTypes.GetCount | components/PropertyTypes.tsx:12 | at most the number of listings, and 0 exactly when no listing names the category |
| PropertyTypes.CardCounts | components/PropertyTypes.tsx:21-31 | one count per category card, in category order |
| PropertyTypes.CountAfterAdd | components/PropertyTypes.tsx:12 | a new listing adds one to its own category's count and nothing to any other |
| PropertyTypes.CountIgnoresStatus | components/PropertyTypes.tsx:12 | changing a status changes no count, so sold and rented listings are still counted |
| PropertyTypes.CountIgnoresFeatured | components/PropertyTypes.tsx:12 | toggling featured changes no count |
| PropertyTypes.DanglingListingOnNoCard | components/PropertyTypes.tsx:12-31 | a listing whose category matches no card's name changes no card's count |
| PropertyTypes.NewCategoryCountsZero | components/PropertyTypes.tsx:12-31 | a newly appended category that no listing names shows 0, and the other cards are unchanged |
| Site.PublishListing | components/AdminPanel.tsx:78-89 | with photos, the built listing (available, featured, first photo as thumbnail, fresh id) heads the store and the page returns home; without photos the store is unchanged |
| Site.PublishCategory | components/AdminPanel.tsx:92-98 | with a photo, the category is appended to the store; without one, the categories are unchanged; the listings never change |
| Site.FirstListing | App.tsx:93-128 | on a fresh installation "Casas" counts 0; after one listing is published from the default form, it counts 1 and the home view is exactly that listing |

## Left out

- Rendering: JSX, CSS and layout in every component. Navbar, Footer, Services, FloatingLicense and FeaturedListings only map props to markup.
- components/Hero.tsx: its counter animation depends on timers and floating-point rounding, and its search form ignores its inputs.
- The chat assistant: components/AIAssistant.tsx and services/geminiService.ts wrap an external hosted-model SDK and a network call.
- JSON serialisation of storage: values are typed, so a stored record that fails to parse cannot be expressed.
- Multiple tabs sharing one storage, where the last write wins.
- FileReader: each selected file is taken to be already converted to an opaque reference, and references are appended in selection order. Reads complete asynchronously in the code. Two selections made before their reads finish could therefore exceed five photos, and completion order could differ from selection order. The model does not capture this.
- `Date.now()` ids: they are a `freshId` parameter, and nothing guarantees they are unique.
- `window.open` (the contact page and the WhatsApp button), `window.scrollTo`, `window.location.reload` (after NoAdminFound) and `alert`: none has an effect in the model.
- `parseInt` of the number inputs: EditFields takes integers directly.
- The browser's `required` check on form inputs, which runs before a submit handler.
- App.AppStore.constructor: describes the app after its mount effect has run. The first render, with the default banner and logged out before the stored banner and session flag are adopted, is not modelled.
- Site.PublishListing: in the code, closing the panel after a save unmounts it and discards its form; here the `AdminPanel` object survives with the same form, so a caller could publish that form again.
- Login.LoginModal.constructor: describes the dialog after its mount effect has run. The first render before that effect (login mode, adminExists false) is not modelled.
- Login.Outcome and the handlers' results stand for the alerts and the `onLogin` callback. Site wires the listing and category callbacks into the store. The login callback is `App.AppStore.LoginSuccess`, and no method composes the two.

# Storefront session model

A Dafny model of the storefront demo's single React component (`src/App.js`). The component
holds a small session state machine: a cart persisted to browser storage, a signup gate shown
to visitors with no stored user, navigation between a product grid, a product-detail panel and
a cart page, and a contact form that is cleared on submit. The model keeps the logic and drops
React. The state is an immutable record. Every handler is a pure function. Browser storage is a
record with two optional slots, `cart` and `user`.

Modules, one per concept:

- `Optional`: the `Option` type, standing for `null` and for absent storage slots.
- `Catalog`: the three-jacket catalogue (ids 1, 2, 3; prices 120, 110, 130).
- `Cart`: appending to the cart and the cart total. `Total` is the reference sum. `CartTotal` is the storefront's left-fold `reduce`.
- `Storage`: the `User` record and the two-slot store.
- `Session`: the state record (`selectedProduct`, `cart`, `contactForm`, `showSignup`, `auth`, `showCartPage`), the page-load initialiser, the view dispatcher `Render` and each handler.
- `Storefront`: state and storage together (`App`); page load (`Boot`); the cart-sync effect; the events a screen offers (`Dispatch`, `Step`, `Run`); the invariants of whole sessions.

Events are delivered only to elements that are on screen. A Skip click is live only behind the
signup gate. A card click is live only on the grid. "Back to Store" and "Add to Cart" are live
only on the detail panel. The navigation bar and the contact form are live on every screen
except the gate. An event for an element that is not rendered changes nothing.

Two details of the code are easy to misread:

- The Cart link only raises `showCartPage` (src/App.js:127). It does not clear `selectedProduct`. The cart page is still shown, because the dispatcher tests `showCartPage` before `selectedProduct` (src/App.js:144, 172). `SelectThenCartScenario` shows both facts together. So `selectedProduct` and `showCartPage` can both be set at once. They are exclusive only in what is rendered.
- The cart effect also runs on mount (src/App.js:39-41). So after page load the `cart` slot always holds the in-memory cart, even when nothing was stored before (`Boot`).

## Model

| member | source | states |
|---|---|---|
| Catalog.IdsDistinct | src/App.js:4-23 | the three catalogue entries have pairwise distinct ids |
| Catalog.PriceRange | src/App.js:4-23 | every catalogue price lies between 110 and 130 |
| Cart.Append | src/App.js:43-44 | adding grows the cart by exactly one; earlier items keep their places; the new item is last; its count goes up by one even if it is already present (no dedup) |
| Cart.TotalConcat | src/App.js:66 | the total of two carts joined end to end is the sum of their totals |
| Cart.TotalAppend | src/App.js:66 | the empty cart totals 0; adding a product raises the total by exactly its price |
| Cart.CartTotal | src/App.js:66 | the left-fold `reduce` from 0 gives the reference sum of item prices |
| Cart.AppendAllSpec | src/App.js:43-46 | adding products one at a time yields the old cart followed by them, in order; length and total grow by their count and their prices |
| Cart.TotalPermutation | src/App.js:66 | two carts with the same items in any order have the same total |
| Cart.TotalByCounts | src/App.js:66 | for catalogue items the total is 120, 110 and 130 times the number of black, navy and red jackets |
| Cart.TotalBounds | src/App.js:66 | a cart of catalogue items costs between 110 and 130 per item |
| Storage.WriteCart | src/App.js:40 | writing the cart slot stores the cart and leaves the user slot as it was |
| Storage.WriteUser | src/App.js:60 | writing the user slot stores the user and leaves the cart slot as it was |
| Session.Init | src/App.js:26-37 | the cart is the stored cart, or empty if none is stored; the gate is shown iff no user is stored; the user is the stored one; no selection, no cart page, empty contact form |
| Session.Render | src/App.js:68-201 | exactly one screen, in precedence order: gate if `showSignup`, else cart page if `showCartPage`, else detail of the selected product, else grid |
| Session.AddToCart | src/App.js:43-46 | the product is appended at the end; the total rises by its price; no other field changes |
| Session.Skip | src/App.js:90 | the gate closes; the user stays as it was; no other field changes |
| Session.GoToStore | src/App.js:111-123 | Home and Store clear the selection and the cart-page flag; cart, user, gate and form are kept |
| Session.OpenCart | src/App.js:127 | the Cart link raises the cart-page flag; the selection is kept; no other field changes |
| Session.BackToStore | src/App.js:180 | Back clears the selection; the cart-page flag and everything else are kept |
| Session.SelectProduct | src/App.js:218 | a card click selects that product; no other field changes |
| Session.EditContact | src/App.js:249-265 | typing in a contact input sets that field only |
| Session.SubmitContact | src/App.js:48-52 | the contact form is reset to three empty strings; no other field changes |
| Storefront.Signup | src/App.js:54-64 | with an empty name or email nothing changes, storage included; otherwise the user `{name, email}` is stored and signed in and the gate closes, with the cart and the other fields untouched |
| Storefront.CartEffect | src/App.js:39-41 | when the cart changed, the stored cart becomes the in-memory cart; otherwise storage is untouched; the user slot is never touched |
| Storefront.Boot | src/App.js:26-41 | page load gives the initial state, and the mount effect leaves the stored cart equal to it and the stored user as it was |
| Storefront.Step | src/App.js:39-265 | one interaction, the handler followed by the cart effect, never reopens the gate; it changes the user only by a signup, and never once a user is signed in; it adds at most one item, and only at the end, and only from the catalogue; it keeps storage in sync |
| Storefront.Dispatch | src/App.js:72-265 | which handler each on-screen element fires: signup and Skip act only behind the gate; navigation and the contact form act everywhere else; Back and Add to Cart act only on the detail panel, and Add to Cart appends exactly the product on display; a card click acts only on the grid and selects the product with id position + 1; no handler writes the cart slot |
| Storefront.BootConsistent | src/App.js:26-41 | after load, storage mirrors the state; the first screen is the gate iff no user is stored, and the grid otherwise |
| Storefront.RunConsistent | src/App.js:39-64 | storage mirrors the state after any sequence of interactions |
| Storefront.GateNeverReopens | src/App.js:54-93 | once the gate is closed, no sequence of interactions shows it again |
| Storefront.UserIsPermanent | src/App.js:54-64 | once a user is signed in, no sequence of interactions replaces or removes it, in state or in storage |
| Storefront.CartOnlyGrows | src/App.js:43-46 | across any interactions the earlier cart is kept as a prefix, and every added item is a catalogue product |
| Storefront.VisitInvariants | src/App.js:26-64 | over a whole session storage mirrors the state; the cart starts with the stored cart; the gate is open only if no user was stored and nobody has signed up |
| Storefront.GateBlocksStore | src/App.js:68-97 | behind the gate every interaction except signup and Skip is ignored |
| Storefront.CartLinkShowsCart | src/App.js:127-144 | from any store screen the Cart link shows the cart page, whatever product is selected; the selection and the cart are kept |
| Storefront.NavigationLandsOnGrid | src/App.js:111-123 | from any store screen Home and Store show the grid, with cart and user unchanged |
| Storefront.CardSelectsById | src/App.js:209-218 | clicking card i on the grid selects the one catalogue product with id i + 1 |
| Storefront.ReloadKeepsCart | src/App.js:27-30 | a stored cart is restored exactly, in the same order, and written back unchanged |
| Storefront.SkipScenario | src/App.js:90 | a first visit followed by Skip shows the grid and stores no user |
| Storefront.SignupScenario | src/App.js:54-64 | a first visit followed by signing up as Cameron stores that user and shows the grid |
| Storefront.SelectThenCartScenario | src/App.js:127-172 | selecting a jacket and then opening the cart shows the cart page while the selection is still held |
| Storefront.TwoJacketsScenario | src/App.js:43-66 | adding jacket 1 and then jacket 2 from their detail panels gives the cart `[1, 2]` with total 230 |

## Left out

- Markup, styling and the entrance animations: presentation only, with no effect on state.
- The `alert` acknowledgements after adding to the cart and after contact submit: they are notifications and are modelled as no-ops.
- `localStorage` string encoding and `JSON.parse`/`JSON.stringify`: the slots hold typed values. So malformed stored content, which would throw on load, is outside the model. So are stored strings that are empty or `"null"`.
- The browser's own `required` and `type="email"` checks on the signup and contact inputs: the browser enforces them, not the component. Only the explicit non-empty test on name and email in the signup handler is modelled. So `SubmitContact` clears the form whatever its contents.
- The Checkout button: it has no handler.
- Image URLs appear only as catalogue data. The welcome greeting and the footer are static text.
- React's scheduling of batched updates: each handler is applied as one atomic transition, followed by the cart effect.

# Cart, review pagination, WhatsApp links and team initials

A Dafny model of the small pieces of logic in the air-conditioning shop's
website (a React/TypeScript single-page site):

- **Cart page** (`src/pages/Cart.tsx`): the `CartItem` record; the view's
  list of cart items and its copy under the `"cart"` key of local storage;
  `removeFromCart`, which filters the list by id and overwrites the stored
  copy; the enquire-all message (a numbered list between a fixed greeting
  and a fixed closing, not sent for an empty cart) and the single-item
  message (title, brand, price and the features joined by `", "`); and the
  sign-in gate, which sends a visitor without a session to
  `/login?redirect=/cart` instead of loading the cart.
- **Reviews page** (`src/pages/Reviews.tsx`): the six fixed reviews, three per
  page; `totalPages = ceil(n / 3)`; the page slice (with JavaScript's
  `slice` clamping); the previous/next/numbered-page handlers and the
  disabled conditions of the arrow buttons; the five-star row filled for
  `i < rating`.
- **WhatsApp link** (`src/components/WhatsAppButton.tsx`): the `wa.me` URL for
  the fixed phone number, with `?text=` and the encoded message only when
  the message is truthy, and the floating button's fixed greeting.
- **Team initials** (`src/pages/About.tsx`): `name.split(" ").map(n => n[0]).join("")`.

Modules, one per file: `Wrappers` (Option), `Text` (JavaScript `split` on
one character, `join`, decimal rendering of a number), `WhatsApp`, `Cart`,
`Reviews`, `About`.

Modelling choices:

- `encodeURIComponent` is a parameter `encode: string -> string` of every
  member that builds a link, so nothing is assumed about it.
- The optional `message` argument of `openWhatsApp` is an `Option<string>`;
  both `None` (undefined) and `Some("")` are falsy and give the bare URL.
- The Supabase session is an input `hasSession: bool`; `navigate` is
  recorded in the view's `redirect` field; local storage is the view's
  `saved: Option<seq<CartItem>>` field (`None` = no entry); JSON
  encoding and decoding are taken to round-trip.
- The page counter is an `int`, and the model is generic in the review
  list: with an empty list there are no pages and the next handler
  (`Math.min(totalPages - 1, p + 1)`) moves the counter to -1, which the
  model keeps as a reachable state; with the six fixed reviews the counter
  stays in 0..1.
- JavaScript's `n[0]` on an empty piece is `undefined`, which `join`
  renders as the empty string; the model gives such a piece no initial.

The product list in `src/pages/Products.tsx` is static with no filtering,
and the cart page reads and writes local storage and has no add operation;
neither a product filter nor a remote cart is modelled.

## Model

| member | source | states |
|---|---|---|
| `Text.Split` | src/pages/About.tsx:253 | `split(" ")` yields at least one piece and no piece contains the separator |
| `Text.SplitCount` | src/pages/About.tsx:253 | there is exactly one piece more than there are separators in the string |
| `Text.JoinSplit` | src/pages/About.tsx:253-255 | joining the pieces with the separator gives back the original string: splitting loses nothing |
| `Text.SplitJoin` | src/pages/Cart.tsx:62-64 | lines without the separator, joined by it and split again, come back exactly (one-character separator such as `"\n"`) |
| `Text.Join` | src/pages/Cart.tsx:64 | `join`: the empty list joins to "", and a non-empty join begins with its first part whole |
| `Text.JoinLength` | src/pages/Cart.tsx:76 | a join is as long as its parts plus one separator between each two neighbours |
| `Text.JoinAppend` | src/pages/Cart.tsx:76 | joining two non-empty lists is joining each and putting one separator between |
| `Text.JoinAround` | src/pages/Cart.tsx:76 | in a joined string part k appears right after the earlier parts (joined, plus a separator) and right before the later ones |
| `Text.Decimal` | src/pages/Cart.tsx:63 | `${index + 1}` renders as a non-empty string of decimal digits with no leading zero, one digit exactly for numbers below 10 |
| `Text.DecimalRoundTrip` | src/pages/Cart.tsx:63 | reading the rendered digits back gives the number |
| `WhatsApp.WhatsAppUrl` | src/components/WhatsAppButton.tsx:3-9 | every URL starts with `https://wa.me/` and the fixed phone number; it is exactly the bare URL if and only if the message is missing or empty |
| `WhatsApp.Truthy` | src/components/WhatsAppButton.tsx:6-7 | JavaScript truthiness of the optional message (undefined and "" are falsy); its effect on the URL is stated by `WhatsApp.WhatsAppUrl` and `WhatsApp.UrlCarriesMessage` |
| `WhatsApp.UrlCarriesMessage` | src/components/WhatsAppButton.tsx:6-9 | the `?text=` part of the URL holds `encode(m)` for a non-empty message m, and there is no `?text=` part for a missing or empty one |
| `WhatsApp.FloatingButtonUrl` | src/components/WhatsAppButton.tsx:16 | the floating button's link is for the fixed number and carries the encoded fixed greeting |
| `Cart.RemoveId` | src/pages/Cart.tsx:54 | after the filter no item with the removed id is left |
| `Cart.RemoveIdKeepsOrder` | src/pages/Cart.tsx:54 | the filtered list is a subsequence of the old one: remaining items keep their relative order |
| `Cart.RemoveIdCounts` | src/pages/Cart.tsx:54 | every item with another id is kept as many times as it occurred; every item with the id is gone |
| `Cart.RemoveAbsentId` | src/pages/Cart.tsx:54 | removing an id no item has leaves the list unchanged |
| `Cart.RemoveIdAppend` | src/pages/Cart.tsx:54 | filtering a concatenation filters each part separately (so order across parts is kept) |
| `Cart.EnquireAllMessage` | src/pages/Cart.tsx:59-66 | no message for an empty cart; otherwise the message starts with the fixed greeting and ends with the fixed closing |
| `Cart.ItemLine` | src/pages/Cart.tsx:63 | an item line starts with its number in decimal followed by `. *`, and has no line break when the item's title, brand and price have none |
| `Cart.ItemLines` | src/pages/Cart.tsx:62-63 | there is one line per cart item, and the line at position k starts with the number k + 1 |
| `Cart.ItemLineNumber` | src/pages/Cart.tsx:62-63 | every list line starts with its number in decimal, which reads back as that number |
| `Cart.EnquireAllLines` | src/pages/Cart.tsx:62-66 | between greeting and closing there is one line per cart item, in cart order, line k being `k. *title* (brand) - price` numbered from 1 (for item fields without line breaks) |
| `Cart.SingleMessageLayout` | src/pages/Cart.tsx:70-78 | the single-item message is, with nothing in between: the fixed greeting, the title, the brand label, the brand, the price label, the price, the features label, the feature list and the fixed closing |
| `Cart.FeatureList` | src/pages/Cart.tsx:76 | no features give ""; otherwise the list is as long as the features plus one `", "` between each two neighbours |
| `Cart.EnquireSingleMessage` | src/pages/Cart.tsx:71-78 | the single-item message; its layout is stated by `Cart.SingleMessageLayout` and its feature order by `Cart.FeatureInOrder` |
| `Cart.FeatureInOrder` | src/pages/Cart.tsx:76 | in that message each feature comes after all earlier features and before all later ones |
| `Cart.CartView.constructor` | src/pages/Cart.tsx:21-22 | a new view has an empty list, is loading, and nowhere to navigate yet |
| `Cart.CartView.CheckAuth` | src/pages/Cart.tsx:25-37 | with no session, the redirect target is exactly `/login?redirect=/cart` and neither the list nor the loading flag changes; with one, the stored cart (if any) is loaded and loading ends |
| `Cart.CartView.OnAuthStateChange` | src/pages/Cart.tsx:42-48 | losing the session redirects to `/login?redirect=/cart`; otherwise nothing changes |
| `Cart.CartView.RemoveFromCart` | src/pages/Cart.tsx:53-57 | the new list is the filtered old one (no item with the id, the others in order and with their counts) and the stored copy equals the new list |
| `Cart.CartView.EnquireAll` | src/pages/Cart.tsx:59-68 | no link is opened for an empty cart; otherwise the opened link carries the encoded enquire-all message |
| `Cart.CartView.EnquireSingle` | src/pages/Cart.tsx:70-80 | the opened link carries the encoded single-item message |
| `Reviews.TotalPages` | src/pages/Reviews.tsx:77-78 | the page count is the least t with 3t at least the number of reviews |
| `Reviews.FixedListHasTwoPages` | src/pages/Reviews.tsx:5-78 | the six fixed reviews make two pages |
| `Reviews.SliceIndex` | src/pages/Reviews.tsx:79-82 | `slice` positions are clamped into the list |
| `Reviews.Slice` | src/pages/Reviews.tsx:79-82 | `slice` never returns more than the list, and for 0 <= start <= end it is the window from start to end cut off at the end of the list |
| `Reviews.PageOf` | src/pages/Reviews.tsx:79-82 | a page holds at most three reviews, and page p >= 0 is the window of reviews from 3p up to min(3p + 3, n) |
| `Reviews.PageWindow` | src/pages/Reviews.tsx:79-82 | page p holds exactly the reviews at indices 3p up to min(3p + 3, n), so at most three, in order |
| `Reviews.PagesUpToPrefix` | src/pages/Reviews.tsx:79-82 | the first k pages together are the first min(3k, n) reviews |
| `Reviews.PagesPartitionReviews` | src/pages/Reviews.tsx:77-82 | pages 0 to totalPages - 1 in order give back the whole review list |
| `Reviews.PrevPage` | src/pages/Reviews.tsx:189 | prev never goes below page 0, goes back one page from page 1 on, and gives page 0 otherwise |
| `Reviews.NextPage` | src/pages/Reviews.tsx:212 | next never goes beyond the last page, goes on one page before it, and gives the last page otherwise |
| `Reviews.PrevNextClamp` | src/pages/Reviews.tsx:189-213 | prev moves back one page except on the first, where it stays; next moves on one page except on the last, where it stays |
| `Reviews.StepInRange` | src/pages/Reviews.tsx:189-212 | each click the page offers keeps the counter on an existing page |
| `Reviews.RunInRange` | src/pages/Reviews.tsx:189-212 | any sequence of offered clicks keeps the counter on an existing page |
| `Reviews.RunFromFirstPage` | src/pages/Reviews.tsx:76-212 | starting at page 0, any sequence of prev, next and numbered-page clicks keeps the counter in 0..totalPages - 1 for a non-empty list |
| `Reviews.PrevDisabled` | src/pages/Reviews.tsx:190 | when the prev button is disabled, a prev click would leave the page as it is |
| `Reviews.NextDisabled` | src/pages/Reviews.tsx:214 | when the next button is disabled, a next click would leave the page as it is |
| `Reviews.DisabledExactlyWhenStuck` | src/pages/Reviews.tsx:189-214 | prev is disabled exactly when clicking it would not move the counter, and likewise next |
| `Reviews.Pager.constructor` | src/pages/Reviews.tsx:76 | the counter starts at page 0, which is a valid page |
| `Reviews.Pager.CurrentReviews` | src/pages/Reviews.tsx:79-82 | on a valid page, at most three reviews are shown: none for an empty list, otherwise the window of reviews starting at 3 times the page, which lies inside the list |
| `Reviews.Pager.PrevClicked` | src/pages/Reviews.tsx:189 | from a valid page the counter becomes max(0, p - 1), which is valid |
| `Reviews.Pager.NextClicked` | src/pages/Reviews.tsx:211-213 | from a valid page the counter becomes min(totalPages - 1, p + 1), which is valid |
| `Reviews.Pager.PageClicked` | src/pages/Reviews.tsx:196-201 | a numbered button sets the counter to its page, which is valid |
| `Reviews.StarRow` | src/pages/Reviews.tsx:151-158 | a row of k stars, where a filled star is never preceded by an empty one |
| `Reviews.FilledStars` | src/pages/Reviews.tsx:151-158 | of the first k stars, min(max(rating, 0), k) are filled |
| `Reviews.FiveStarRow` | src/pages/Reviews.tsx:151-158 | of the five stars shown, min(rating, 5) are filled for a non-negative rating |
| `About.FirstChar` | src/pages/About.tsx:254 | `n[0]` as `join` renders it: at most one character, empty exactly for an empty piece (whose `n[0]` is undefined), and otherwise the piece's first character |
| `About.InitialsOf` | src/pages/About.tsx:254-255 | `.map(n => n[0]).join("")` over the pieces; what it yields is stated by `About.InitialPerPart` and `About.EmptyPartsIgnored` |
| `About.InitialPerPart` | src/pages/About.tsx:252-255 | with no empty part there is one initial per part, and initial i is the first character of part i |
| `About.NonEmpty` | src/pages/About.tsx:253-254 | the parts kept as words are all non-empty, and each non-empty part occurs exactly as often as in the input |
| `About.EmptyPartsIgnored` | src/pages/About.tsx:253-255 | empty parts (from leading, trailing or doubled spaces) contribute nothing to the initials |
| `About.Initials` | src/pages/About.tsx:252-255 | the initials expression: there is one initial per non-empty space-separated word, and initial i is the first character of word i |
| `About.SingleWordName` | src/pages/About.tsx:253-255 | a name without a space gives just its first character (nothing for the empty name) |
| `About.TwoWordName` | src/pages/About.tsx:253-255 | two words separated by one space give their two first characters |
| `About.FounderInitials` | src/pages/About.tsx:55 | "XAFEER KHAN" gives "XK" |
| `About.DirectorInitials` | src/pages/About.tsx:60 | "MUSTAFA" gives "M" |
| `About.RelationsInitials` | src/pages/About.tsx:65 | "ABDULLAH HUSSAIN" gives "AH" |

## Left out

- Rendering, layout and styling of every page (JSX, CSS classes, icons, images), and the static content of the home, services and products pages and the footer.
- Animations (`src/components/ScrollAnimations.tsx`), the navigation bar (scroll listener, auth subscription, menu toggle) and the route table in `src/App.tsx`.
- `encodeURIComponent` internals: the encoder is an arbitrary function parameter.
- `window.open`: the members return the URL that would be opened instead.
- The Supabase client: the session lookup and the auth-state subscription are reduced to a boolean input; unsubscribing on unmount and the async timing of `checkAuth` are not modelled.
- Local storage and JSON: the stored cart is a field holding the list itself; a stored entry that is not valid JSON (which makes `JSON.parse` throw) is not modelled.
- JavaScript strings are UTF-16: `n[0]` of a name part starting with a character outside the Basic Multilingual Plane yields half a surrogate pair; the model's characters are whole Unicode scalar values.
- Ratings are integers in the model; a fractional rating (which `i < rating` would also accept) is not modelled.
- `Cart.EnquireAllLines`: the line-by-line reading of the list requires item titles, brands and prices without line breaks, since a line break inside a field would split its line; `Text.JoinAround` still places every line for arbitrary fields.
- The avatar letters `String.fromCharCode(64 + i)` on the home page.

# Storefront product list and user session, modelled in Dafny

This project models the two pieces of state logic of a small storefront
front-end:

- **The product list page** (`src/pages/Productos.jsx`). The search box text
  (`busqueda`) is trimmed and lower-cased. A product is kept when that term occurs
  in its lower-cased name (`producto`) or category (`categoria`), and an empty
  term keeps everything. The kept list (`productosFiltrados`) is cut into pages
  of eight (`productosPorPagina`). Page `paginaActual` shows the slice
  `[(p-1)*8, p*8)` (`productosActuales`), and `totalPaginas = ceil(n/8)`. The
  pager is drawn when there are more than eight matches. The "page p of N" line
  is drawn when there is at least one match. Three handlers change the page
  state: typing (`manejarBusqueda`) stores the text and goes back to page 1, a
  pager button (`cambiarPagina`) sets the page with no bounds check, and the
  clear button empties the box and keeps the page.
- **The user context** (`src/context/UserContext.jsx`). It runs a placeholder
  login over the browser's durable key-value storage, using the keys
  `authToken`, `authNombre` and `authEmail`. On start, the user is read from
  storage, with `""` for any missing key. The session is authenticated when the
  token is present and non-empty. Login (`iniciarSesion`) writes the token
  `"fake-token-" + nombre`, the name and the email. Logout (`cerrarSesion`)
  removes the three keys. `esAdmin` is the exact, case-sensitive test
  `nombre == "admin"`.

Files:

- `text.dfy` (module `Text`): the ASCII versions of `trim`, `toLowerCase` and
  `includes`. `Includes` is proved equal to a substring definition (`Occurs`).
- `wrappers.dfy` (module `Wrappers`): `Option`, for record fields that may be
  absent.
- `products.dfy` (module `Products`): the filter, the page slicing, the page
  count and the display conditions. It also holds the class `ProductList` for
  the page state and its handlers.
- `session.dfy` (module `Session`): the storage transitions as functions, the
  round-trip lemmas about them, and the class `UserSession`. That class has
  `storage: map<string,string>`, `usuario` and `isAuthenticated`, and its
  invariant `Valid()` says the in-memory state equals what a reload would
  restore.

Behaviour of the code worth noting:

- Restore reads the name and email whether or not a token is present
  (src/context/UserContext.jsx:11-15).
- The session counts as authenticated when the token is truthy, that is,
  present and non-empty (src/context/UserContext.jsx:18-21).
- The search box keeps the raw text. Trimming and lower-casing happen only
  inside the filter (src/pages/Productos.jsx:20, 43).

## Model

| member | source | states |
|---|---|---|
| `Text.Lower` | src/pages/Productos.jsx:20 | lower-casing keeps the length, folds each character on its own, and leaves no upper-case letter |
| `Text.Trim` | src/pages/Productos.jsx:20 | the trimmed text is the infix of the input left once only whitespace is removed from each end, and when non-empty it neither starts nor ends with whitespace |
| `Text.TrimEmptyIffBlank` | src/pages/Productos.jsx:20-21 | a text trims to `""` exactly when every character is whitespace |
| `Text.IncludesIffOccurs` | src/pages/Productos.jsx:26 | `includes` holds exactly when the needle occurs at some position of the haystack |
| `Products.SearchKey` | src/pages/Productos.jsx:20-21 | the search term is empty exactly when the box holds only whitespace, and it contains no upper-case letter |
| `Products.Filter` | src/pages/Productos.jsx:19-27 | the filtered list is a subsequence of the catalogue, no longer than it; every element is kept; every kept product appears exactly as often as in the catalogue, and every other product not at all |
| `Products.SubsequenceBounded` | src/pages/Productos.jsx:19-27 | a subsequence is no longer than its source and draws its elements from it |
| `Products.FilteredIsSubsequence` | src/pages/Productos.jsx:19-27 | `productosFiltrados` is an order-preserving subsequence of `products`, so its length is at most `products.length` |
| `Products.FilterKeepsAll` | src/pages/Productos.jsx:19-21 | when every product is kept, the filter returns the catalogue unchanged |
| `Products.BlankSearchKeepsAll` | src/pages/Productos.jsx:20-21 | an empty or whitespace-only search shows the whole catalogue, in order |
| `Products.ShownIffTermOccurs` | src/pages/Productos.jsx:23-26 | for a non-blank term, a product is shown exactly when it is in the catalogue and the term occurs in its lower-cased name or category |
| `Products.AbsentFieldNeverMatches` | src/pages/Productos.jsx:23-24 | a missing name or category counts as `""` and never matches a non-blank term |
| `Products.Slice` | src/pages/Productos.jsx:35 | `slice(start, end)` returns at most `end - start` items; for non-negative bounds it is the clamped range; an end of 0 gives nothing |
| `Products.PageItems` | src/pages/Productos.jsx:33-35 | a page never holds more than 8 items; page `p >= 1` is `filtered[(p-1)*8 .. min(p*8, len)]`, or empty when `(p-1)*8 >= len`; page 0 is empty |
| `Products.TotalPages` | src/pages/Productos.jsx:38 | `totalPaginas` is `ceil(len/8)`: the least page count whose pages hold every item; it is 0 exactly when nothing matches |
| `Products.PageNonEmptyIffInRange` | src/pages/Productos.jsx:33-38 | from page 1 on, a page shows products exactly when it is at most `totalPaginas`; every page before the last is full |
| `Products.ConcatPagesIsPrefix` | src/pages/Productos.jsx:33-38 | pages 1 to `k` laid end to end are the first `8k` filtered items (or all of them) |
| `Products.PagesReassemble` | src/pages/Productos.jsx:33-38 | pages 1 to `totalPaginas` in order give back the filtered list |
| `Products.TenProductsTwoPages` | src/pages/Productos.jsx:30-38 | with 10 items there are 2 pages: page 1 shows the first 8, page 2 the last 2, page 3 nothing |
| `Products.DisplayConditions` | src/pages/Productos.jsx:258-281 | the pager is drawn exactly when there are at least 2 pages, and the page line exactly when there is at least one; the buttons are pages 1 to `totalPaginas`, and each leads to a non-empty page |
| `Products.ProductList.constructor` | src/pages/Productos.jsx:17-31 | the list starts with an empty search and page 1, and the filter keeps the whole catalogue |
| `Products.ProductList.Search` | src/pages/Productos.jsx:42-45 | `manejarBusqueda` stores the typed text and resets the page to 1 whatever it was; the page then shows the first (up to) 8 matches |
| `Products.ProductList.ChangePage` | src/pages/Productos.jsx:39 | `cambiarPagina(n)` sets the page to `n` with no clamp; a page past `totalPaginas` shows nothing; the search is unchanged |
| `Products.ProductList.ClearSearch` | src/pages/Productos.jsx:152 | the clear button sets the search to `""` and leaves the page unchanged; the whole catalogue is filtered again |
| `Session.LoginStore` | src/context/UserContext.jsx:28-30 | login adds exactly the three auth keys, with token `"fake-token-" + nombre`, name and email, and leaves every other key's value unchanged |
| `Session.LogoutStore` | src/context/UserContext.jsx:40-42 | logout removes exactly the three auth keys and leaves every other key and value unchanged |
| `Session.RestoreDefaults` | src/context/UserContext.jsx:11-21 | with the keys absent, restore gives the user `{"", ""}`, unauthenticated |
| `Session.LoginRestoreRoundTrip` | src/context/UserContext.jsx:11-34 | restoring after a login gives the same user, authenticated, because the token is never empty |
| `Session.LogoutRestoreRoundTrip` | src/context/UserContext.jsx:11-44 | restoring after a logout gives the user `{"", ""}`, unauthenticated |
| `Session.LogoutIdempotent` | src/context/UserContext.jsx:37-44 | logging out twice leaves the same storage as logging out once |
| `Session.LoginOverwrites` | src/context/UserContext.jsx:24-34 | a second login overwrites everything the first one wrote |
| `Session.LogoutUndoesLogin` | src/context/UserContext.jsx:24-44 | login followed by logout leaves the storage as logout alone would |
| `Session.AdminSurvivesReload` | src/context/UserContext.jsx:11-53 | after a reload, the session is an admin session exactly when the last login was by `"admin"`, and never after a logout |
| `Session.UserSession.constructor` | src/context/UserContext.jsx:11-21 | the lazy initialisers read name and email with `""` defaults, and authentication is "token present and non-empty"; the invariant holds |
| `Session.UserSession.Login` | src/context/UserContext.jsx:24-34 | `iniciarSesion(nombre, email = "")` writes the three keys, sets the user to `{nombre, email}` and marks the session authenticated; `esAdmin` then holds exactly when `nombre == "admin"`; the invariant is kept |
| `Session.UserSession.Logout` | src/context/UserContext.jsx:37-47 | `cerrarSesion` removes the three keys, resets the user to `{"", ""}` and unauthenticates; `esAdmin` is then false; the invariant is kept |

## Left out

- Product fetch and the loading and error flags (src/pages/Productos.jsx:48-66, 88-117) are network I/O. `ProductList` starts from the fetched catalogue, as the list is first rendered once loading ends.
- Scroll position save and restore (`sessionStorage`, `window.scrollTo`, `requestAnimationFrame`) is browser plumbing.
- Navigation (`navigate(...)`, including the one in `cerrarSesion`) is a router side effect. Only the state change is modelled.
- JSX rendering, styling and animation are left out. Only the two display conditions (pager and page line) and the pager's button numbers are modelled.
- Cart functions (`agregarCarrito`, `formatJT`): the cart context is not part of this model.
- `useUserContext`'s throw outside a provider is React context plumbing.
- Product records keep only `id`, name and category. Description, price and image matter only to rendering.
- A name or category that is a non-string value (a number passed through `String()`) is not modelled. A field is either absent or a string.
- Text.Trim and Text.Lower: whitespace and case folding are ASCII only. JavaScript's `trim` also strips Unicode spaces, and `toLowerCase` folds non-ASCII letters.
- Products.ProductList.ClearSearch: the button is rendered only while the search box is non-empty (line 149). The method does not require that, since the handler itself does not check it.
- Session.UserSession.Login: a caller passing `null` or a non-string value is not modelled. JavaScript would store its string form.
- Session.UserSession: the storage is modelled as written only by this context. Writes by other tabs or other code on the same origin are not modelled, and the source has no `storage` event listener, so `Valid()` (in-memory state equals what a reload would restore) would not survive such writes.
- Storage unavailability and quota errors are not modelled: the storage is a total `map`.

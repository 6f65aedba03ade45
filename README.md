# Gabba Store cart, filters and search in Dafny

A model of the storefront script `Script.js` of Gabba Store (class `GabbaStore`): the shopping
cart it keeps in memory and in the browser's `localStorage`, the aggregates it shows (item
count badge, order subtotal and total with a flat 5000 shipping cost), and the two visibility
decisions of the product grid (the five attribute filters and the text search).

- `wrappers.dfy` — `Wrappers.Option`, used for the storage slot, missing DOM attributes and NaN.
- `text.dfy` — `Text.Contains`, JavaScript's `String.prototype.includes` as a left-to-right
  search, proved equal to "occurs at some position".
- `cart.dfy` — `Cart`: the cart line, the cart invariant (every quantity at least 1, names
  pairwise distinct), each cart operation as a function of the list before it, and the sums
  with lemmas saying how every operation moves them.
- `store.dfy` — `Store.GabbaStore`: a class with fields `carrito: seq<Line>` and
  `stored: Option<seq<Line>>` (the `'carrito'` key: `None` when it is absent). Its methods update
  the fields in place as the script does, and their contracts tie the new cart to the functions
  of `Cart`, say what the slot holds afterwards, and keep `Synced()` (restoring from the slot
  gives back the in-memory cart) and the cart invariant. A few client methods run usage examples
  through the class: the same hoodie added twice, a cap added then removed, a clear then a
  restore, and a quantity change then a restore.
- `catalog.dfy` — `Catalog`: the filter decision written step by step like the script's
  `mostrar` flag, proved equal to the conjunction of five independent tests; the search
  decision and its properties.

Three behaviours of the code that the model keeps as written:
- Startup does not catch a `JSON.parse` failure (Script.js:6), so there is no recovery path:
  the slot holds a line list or nothing, and an absent slot restores to the empty cart.
- The size filter calls `includes` on the `data-tallas` attribute text (Script.js:196-197), a
  substring test, so a size filter `S` passes a product whose size text is `XS,M`; an empty or
  missing attribute passes. `Catalog.SizePasses` says so.
- Out-of-range indices are not guarded: the code throws on them (Script.js:43-64), so the
  index-taking methods require an index inside the cart (see below).

## Model

| member | source | states |
|---|---|---|
| `Cart.FindByName` | Script.js:29 | `find` by name: the result is a matching line with no match before it, and there is no result exactly when no line has the name |
| `Cart.FindUnique` | Script.js:29 | in a cart with distinct names the first match is the one line carrying that name |
| `Cart.Added` | Script.js:19-35 | adding a present name keeps the length; adding a new name appends exactly the new line with quantity 1 after the unchanged old lines; no line changes anything but its quantity; the name is present afterwards; the cart invariant is preserved |
| `Cart.AddedExisting` | Script.js:29-32 | in a well-formed cart, adding a name held by line `i` raises line `i`'s quantity by one and leaves every other line as it was |
| `Cart.Removed` | Script.js:42-44 | `splice(index, 1)`: one line shorter, earlier lines in place, later lines shifted left by one; the invariant is preserved |
| `Cart.QuantityChanged` | Script.js:50-55 | if `q + cambio > 0` line `index` gets quantity `q + cambio` at the same length, keeps its name, price, image, category and id, and every other line is unchanged; otherwise the result is the cart with that line removed; a cart of positive quantities stays positive; invariant preserved |
| `Cart.ChangeToZeroRemoves` | Script.js:50-55 | changing line `index` by minus its quantity removes that line |
| `Cart.QuantitySet` | Script.js:61-64 | a missing (NaN) or non-positive value leaves the cart equal to before; a positive value becomes line `index`'s quantity, every other line and field unchanged; invariant preserved |
| `Cart.Restored` | Script.js:6 | an absent slot restores to the empty cart, a present slot to exactly the saved lines |
| `Cart.Count` | Script.js:83 | the badge total of a cart whose quantities are all at least 1 is at least its number of lines |
| `Cart.LineAmount` | Script.js:260 | a line's amount (price times quantity) is at least its unit price when the price is non-negative and the quantity at least 1 |
| `Cart.Subtotal` | Script.js:259-260 | the subtotal of a cart with non-negative prices and positive quantities is non-negative |
| `Cart.Total` | Script.js:261 | with non-negative prices and positive quantities the total is at least the shipping cost 5000 |
| `Cart.SumsWithQuantity` | Script.js:52 | giving line `i` quantity `q` moves the count by `q` minus the old quantity and the subtotal by the price times that difference |
| `Cart.SumsRemoved` | Script.js:44 | removing line `i` takes its quantity off the count and price times quantity off the subtotal and off the total |
| `Cart.SumsAdded` | Script.js:29-35 | adding raises the count by exactly one and the subtotal, and with it the total, by the price of the line that was bumped or appended |
| `Cart.SumsQuantityChanged` | Script.js:50-55 | changing quantity moves the count by `cambio` and the subtotal by price times `cambio`, or, when the line is dropped, takes its quantity off the count and its amount off the subtotal |
| `Cart.SumsQuantitySet` | Script.js:61-64 | setting a positive quantity moves the count by the new minus the old quantity and the subtotal by the old amount replaced with price times the new quantity; an ignored value leaves both unchanged |
| `Cart.HoodieTwice` | Script.js:19-35 | adding the 80000 hoodie twice to an empty cart gives one line of quantity 2 keeping the first id, count 2, subtotal 160000, total 165000 |
| `Store.GabbaStore.constructor` | Script.js:5-7 | the cart starts as the restored slot, the slot is left as it was, and the store starts synced |
| `Store.GabbaStore.GuardarCarrito` | Script.js:76-78 | afterwards the slot holds exactly the current cart, and the cart is not touched |
| `Store.GabbaStore.BuscarPorNombre` | Script.js:29 | the loop returns the position `find` would pick, or nothing when no line has the name |
| `Store.GabbaStore.AgregarAlCarrito` | Script.js:19-37 | the new cart is `Added` of the old, the slot holds it, the invariant is kept and the count rises by one |
| `Store.GabbaStore.EliminarDelCarrito` | Script.js:42-47 | returns the removed line (the one the message names), the new cart is `Removed` of the old, the slot holds it, the count drops by its quantity |
| `Store.GabbaStore.CambiarCantidad` | Script.js:50-59 | the new cart is `QuantityChanged` of the old on both branches, the slot holds it, the invariant is kept |
| `Store.GabbaStore.ActualizarCantidad` | Script.js:61-68 | the new cart is `QuantitySet` of the old; the slot is rewritten only for a positive value and left untouched otherwise; synced and well-formed carts stay so |
| `Store.GabbaStore.LimpiarCarrito` | Script.js:70-74 | the cart is empty and the storage key is deleted |
| `Store.HoodieScenario` | Script.js:19-37 | two adds of the same hoodie through the store give one line, count 2, subtotal 160000 and total 165000 |
| `Store.CapScenario` | Script.js:42-47 | adding a cap and removing line 0 leaves an empty cart with count 0 |
| `Store.ClearThenRestore` | Script.js:70-72 | whatever the slot held, clearing and then restoring from the slot gives an empty cart with count 0 |
| `Store.ChangeThenRestore` | Script.js:50-59 | after a quantity change, a store restored from the slot holds exactly the in-memory cart |
| `Catalog.ReadFilters` | Script.js:166-172 | each string filter is switched off exactly when its control is missing, empty or on its "all" value, and otherwise holds the control's value; a missing price control means every price |
| `Catalog.MissingControlIsOff` | Script.js:166-172 | for every product and every other control, a missing or empty control shows the same products as that control set to `todos`/`todas` |
| `Catalog.NoControlsShowsAll` | Script.js:166-172 | a page without any filter control shows every product |
| `Catalog.Visible` | Script.js:174-216 | the `mostrar` chain: a shown product passes the category, price, age and gender tests (the full two-way statement is `VisibleIffAllPass`) |
| `Catalog.VisibleIffAllPass` | Script.js:174-216 | a product is shown iff the category is equal, the price is in the closed range, the size occurs in the size text or there is none, the age is equal and the gender is equal or unisex — each test skipped on its "all" value |
| `Catalog.NoFilterShowsAll` | Script.js:166-172 | with every control on `todos`/`todas` every product is shown |
| `Catalog.DisablingNeverHides` | Script.js:177-216 | switching any one filter to its "all" value never hides a product that was shown |
| `Catalog.Shown` | Script.js:368-370 | a shown product has a name or a description at least as long as the term |
| `Catalog.BlankTermShowsAll` | Script.js:362-370 | a blank search term shows every product |
| `Catalog.ShownIffOccurs` | Script.js:364-370 | a product is shown iff the term occurs in its name or its description (the blank-term test adds nothing, as the empty word occurs everywhere) |
| `Catalog.LongerTermShowsFewer` | Script.js:368 | extending the search term never shows a product the shorter term hid |
| `Text.Contains` | Script.js:197 | `includes` only finds a word no longer than the text it searches |
| `Text.ContainsIffOccurs` | Script.js:368 | the left-to-right `includes` search succeeds iff the word occurs at some position |
| `Text.ContainsTransitive` | Script.js:368 | a word found in a word found in a text is found in the text |

## Left out

- Rendering and effects: the count badge text, `mostrarMensaje` and its 4000 ms auto-dismiss,
  `mostrarMensajeSinProductos`, `agregarEstilosAnimacion`, `configurarEventos`, lazy loading,
  the click and scroll handlers and the display/animation styles of the grid. They are browser
  output and timers; only the decisions and values behind them are modelled.
- `formatearPrecio` (a locale library), the WhatsApp message text, its date stamp, URL encoding
  and `window.open`; of `enviarPedidoWhatsApp` only the subtotal and total are modelled.
- `validarFormulario` and `trackEvent`: field styling, focus and logging.
- JSON text: the slot holds the line list itself, so `JSON.stringify` then `JSON.parse` is taken
  as the identity on lines; a slot holding text that does not parse is not modelled (the script
  would throw at startup).
- Line ids: the clock-plus-random value is the `id` parameter of `AgregarAlCarrito`; nothing
  guarantees or checks that ids differ, as nothing in the script does.
- `Store.GabbaStore.EliminarDelCarrito`, `Store.GabbaStore.CambiarCantidad`,
  `Store.GabbaStore.ActualizarCantidad`: an index outside the cart is excluded by `requires`,
  because the script throws on it (`producto.nombre` on `undefined`, or reading `.cantidad` of
  `undefined`); the partial effects before that throw (for instance `splice(-1, 1)` removing the
  last line and saving) are not modelled. `ActualizarCantidad` needs the index only for a
  positive value, since the script reads the line only then.
- `parseInt`: `ActualizarCantidad` takes the parsed value as `Option<int>` with `None` for NaN;
  the product price and the `"min-max"` price control are taken as integers: `Catalog.ReadFilters`
  receives the price control already split into a `PriceFilter`, with `None` for a missing or
  empty control.
- `Cart.Count`, `Cart.Subtotal`: sums are exact unbounded integers; JavaScript numbers are
  doubles that lose precision above 2^53, which is not modelled. Quantities and prices are
  integers.
- `Catalog.Shown`: the lower-casing of name, description and term and the trimming of the term
  are taken as already applied by the caller.
- Object sharing: `productoExistente.cantidad++` updates the object held in the array; lines are
  values here, so the model replaces the line at that index, which has the same effect because
  the slot holds a serialised copy and no other reference to a line exists.
- The constructor's `init()` wiring, `whatsappNumero`, and the `costoEnvio` field, which is the
  module constant `Cart.CostoEnvio`.

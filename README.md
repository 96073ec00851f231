# Inventory ledger of the cold-storage inventory system

This project models, in Dafny, the inventory ledger that the application shell
(`App.tsx`) of a meat cold-storage inventory system keeps, together with the
record and enumeration types it works on (`types.ts`).

The ledger is the `inventory` list of `InventoryEntry` records, kept most recent
first, and a product catalogue. Three handlers change the list and one callback
changes the catalogue:

- `addInventoryEntry` puts one entry in front;
- `updateInventoryEntry(tag, entry)` replaces, in place, every entry whose tag is `tag`;
- `bulkLoadInventory(entries)` puts a whole batch in front, in the batch's order;
- `onAddProduct` appends a product to the catalogue.

None of them validates anything. Duplicate tags are accepted, an update naming an
unknown tag changes nothing, and an update replaces all entries carrying the tag,
whatever tag the replacement itself has.

Layout:

- `wrappers.dfy` (module `Wrappers`): `Option`, for TypeScript's optional member and for parsing.
- `types.dfy` (module `Types`): `Product`, `MovementType`, `Category`, `InventoryEntry`,
  `OperationalIncident` as datatypes; the string values of the two enumerations and
  their inverses; the sheet-column numbering given in the comments of `InventoryEntry`.
  `merma` is the only member of `InventoryEntry` typed `Option`; every other member is
  always present, by construction of the datatype.
- `ledger.dfy` (module `InventoryLedger`): each new array a handler builds, as a pure
  function on sequences (`Prepend`, `ReplaceByTag`, `BulkLoad`, `AppendProduct`), the
  lemmas about them, and the class `Ledger` whose fields are the application state and
  whose methods assign those functions' results to the fields. The `incidents` list is a `const` field: the source never updates it. Each inventory method
  returns the new list: it stands for the snapshot the handler passes to the cloud sync.

JavaScript `number`s are modelled as `real` (type `Types.Number`); no arithmetic is done on them here.
`INITIAL_PRODUCTS` comes from `constants.ts`, which is not part of this model: the
`Ledger` constructor takes the initial catalogue as a parameter.

## Model

| member | source | states |
|---|---|---|
| Types.MovementTypeValue | types.ts:8-10 | each member's string value parses back to that member |
| Types.ParseMovementType | types.ts:7-11 | a string parses to a movement type exactly when it is ENTRADA, SALIDA or TRASLADO |
| Types.MovementTypeIsClosed | types.ts:7-11 | every movement type is one of exactly three distinct members |
| Types.MovementTypeRoundTrip | types.ts:8-10 | each member's string value parses back to that member, a string that parses is the value of its member, and no two members share a value |
| Types.CategoryValue | types.ts:13 | each category's literal parses back to that category |
| Types.ParseCategory | types.ts:13 | a string is a category exactly when it is "MP" or "PT" |
| Types.CategoryRoundTrip | types.ts:13 | each category's literal parses back to it, a string that parses is its category's literal, and the two literals differ |
| Types.Column | types.ts:16-37 | a member with a column has one of 0-20, and that column is its position in declaration order; exactly cava, timestamp, tipo, categoria and merma have none |
| Types.FieldAtColumn | types.ts:16-36 | sheet columns 0-20 exist and no other; each names a member whose column it is |
| Types.ColumnsFollowDeclarationOrder | types.ts:16-41 | the first 21 declared members, tag through observaciones, hold columns 0-20 in declaration order; cava, timestamp, tipo, categoria and merma hold none |
| Types.FieldsAreComplete | types.ts:15-42 | the field list names every `Field` constructor exactly once; `Field` has one constructor per member of InventoryEntry, named after it and in its declaration order |
| Types.ColumnsAreDistinct | types.ts:16-37 | no two members share a column, and the column-to-member lookup inverts the member-to-column map |
| InventoryLedger.Prepend | App.tsx:98 | the new list is one longer, holds the new entry first and the old list, unchanged, after it |
| InventoryLedger.ReplaceByTag | App.tsx:104 | the keyed replacement keeps the list's length |
| InventoryLedger.BulkLoad | App.tsx:110 | the new list's length is the sum of both; the batch comes first in its own order, then the old list unchanged |
| InventoryLedger.AppendProduct | App.tsx:166 | the catalogue is one longer, the new product is last and the earlier products are unchanged |
| InventoryLedger.AddAcceptsDuplicateTag | App.tsx:97-98 | adding an entry whose tag is already present succeeds, leaving two entries with that tag and every earlier entry one place on |
| InventoryLedger.ReplaceByTagAt | App.tsx:104 | at each position the result is the replacement if the old entry's tag matched, and the old entry otherwise |
| InventoryLedger.ReplaceByTagIsPointwise | App.tsx:104 | the same for all positions at once: length and order are kept and every match is replaced, not only the first |
| InventoryLedger.ReplaceByTagUnchangedIff | App.tsx:104 | the update leaves the list unchanged if and only if every entry carrying the tag already equals the replacement |
| InventoryLedger.UpdateUnknownTagIsNoOp | App.tsx:104 | an update naming a tag no entry carries leaves the list exactly as it was |
| InventoryLedger.ReplaceByTagTags | App.tsx:104 | the replacement need not carry the tag: if it does not, no entry carries the old tag afterwards; if it does, every position keeps its tag |
| InventoryLedger.ReplaceByTagIdempotent | App.tsx:104 | applying the same update twice gives the same list as applying it once |
| InventoryLedger.ReplaceByTagConcat | App.tsx:104 | updating a concatenation updates each part separately |
| InventoryLedger.UpdateAfterBulkLoad | App.tsx:104-110 | an update after a bulk load equals loading the updated batch onto the updated old list |
| InventoryLedger.BulkLoadIsRepeatedAdd | App.tsx:98-110 | a bulk load equals the Prepend fold `AddEach` of the batch onto the old list, last entry first |
| InventoryLedger.BulkLoadSmallBatches | App.tsx:98-110 | an empty batch is a no-op and a one-entry batch equals adding that entry |
| InventoryLedger.BulkLoadTwice | App.tsx:110 | two bulk loads in a row equal one load of the later batch followed by the earlier batch |
| InventoryLedger.Ledger.constructor | App.tsx:22-24 | the ledger starts empty, with the initial catalogue and no incidents |
| InventoryLedger.Ledger.AddInventoryEntry | App.tsx:97-101 | the list becomes the entry prepended to the old list, the catalogue is unchanged, and that new list is the snapshot returned for sync |
| InventoryLedger.Ledger.UpdateInventoryEntry | App.tsx:103-107 | the list becomes the keyed replacement of the old list, position by position; an unknown tag leaves it unchanged; the catalogue is unchanged; the new list is returned for sync |
| InventoryLedger.Ledger.BulkLoadInventory | App.tsx:109-113 | the list becomes the batch followed by the old list, which equals the Prepend fold `AddEach`; the catalogue is unchanged; the new list is returned for sync |
| InventoryLedger.Ledger.AddProduct | App.tsx:166 | the catalogue gets the product appended at its end; the inventory is unchanged |

## Left out

- Cloud sync (`syncWithGoogleDrive`, App.tsx:51-63): asynchronous I/O with a timer, `localStorage` and a status flag; the model only returns, from each inventory method, the snapshot that would be handed to it.
- Start-up load from `localStorage` (App.tsx:65-77): foreign I/O and JSON parsing.
- Login, logout and the cloud account configuration (App.tsx:27-32, 79-95): authentication and configuration plumbing.
- The form defaults in `persistentData` (App.tsx:34-49): they only feed the input screen.
- Rendering, routing and the navigation components (App.tsx:115-200): user interface.
- The `onDelete` callback (App.tsx:165): an empty function, so there is nothing to model.
- Net-weight derivation, tag uniqueness, movement-type transition rules, merma bounds, date checks, all-or-nothing bulk validation and location occupancy: the handlers modelled here enforce none of them; whatever does lives in the screen and utility modules, which are not part of this model.
- Floating point: `number` fields are exact reals, since no arithmetic on them happens in these handlers.
- Stale reads between renders: each handler builds its new array from the `inventory` (or `products`) value captured at the last render (App.tsx:98, 104, 110, 166), so two handler calls before a re-render both start from the same list and the later `setInventory` discards the earlier change; `onUpdate(t, u); onAdd(e)` in one event leaves `[e, ...old]`. The model's methods always read the current field, so a sequence of method calls matches the source only when a re-render happens between the calls.
- The comment on `cava` reads "derived or column 16"; column 16 is already `pasillo`'s, so the model gives `cava` no column.

# Create-location form: a Dafny model

This project models the form state of the "create location" page of a small
web client for registering recycling collection points
(`src/pages/CreateLocation/index.tsx`). The page keeps five state cells: the
item catalog, the map position (initially `(0, 0)`), a contact and address
record with five text fields (initially all empty), the list of selected item
ids (initially empty) and an optional image file. Event handlers replace those
cells one event at a time, and the submit handler turns them into a multipart
request body.

Modules:

- `Selection` (selection.dfy): the selected-id list and the toggle of
  `handleSelectItem`, written as `findIndex`, `filter` and append. Also the
  fold of a run of clicks and the parity law for it.
- `Contact` (contact.dfy): the five-field record, its keys and the point update
  of `handleInputChange`.
- `Payload` (payload.dfy): the multipart body. It covers decimal rendering of
  ids, `join(",")` and its inverse `split(",")`, and the body in append order.
  It also has a reading side: `Lookup` returns the first part under a key, as
  `FormData.get` does, and `Decode` recovers the record, the ids and the file
  from a body.
- `CreateLocation` (create_location.dfy): the class `FormState`, whose fields
  are the five state cells. It has one method per handler. `Submit` builds the
  body one append at a time.
- `Wrappers` (wrappers.dfy): an `Option` type.

The class invariant `Valid()` says the selection holds no id twice. The
constructor establishes it and every method keeps it. Each `ToggleItem` call
applies `Selection.Toggle` to the selection. `Selection.ToggleAllSnoc` shows
that one more click toggles the selection reached so far. So a caller that
calls `ToggleItem` once per click holds
`selectedItems == Selection.ToggleAll([], clicks[..k])` after k clicks. The
lemmas about `ToggleAll` then apply to the page's selection.

`handleSelectItem` does not consult the catalog. It appends any id that is not
selected (`src/pages/CreateLocation/index.tsx:66-71`), and `Selection.Toggle`
does the same.

## Model

| member | source | states |
|---|---|---|
| `CreateLocation.FormState.constructor` | src/pages/CreateLocation/index.tsx:23-39 | Initial state: empty catalog, position (0,0), every field "", no selected ids, no file; the selection invariant holds |
| `Contact.BlankIsEmpty` | src/pages/CreateLocation/index.tsx:29-35 | Every field of the initial record is the empty string |
| `CreateLocation.FormState.LoadCatalog` | src/pages/CreateLocation/index.tsx:43-47 | The fetched list replaces the catalog; no other cell changes |
| `CreateLocation.FormState.MapClick` | src/pages/CreateLocation/index.tsx:49-51 | The position becomes exactly the clicked (lat, lng), whatever it was before; no other cell changes |
| `CreateLocation.FormState.SetField` | src/pages/CreateLocation/index.tsx:53-59 | The named field takes the new value and the other four keep theirs; no other cell changes |
| `Contact.Update` | src/pages/CreateLocation/index.tsx:56 | Point update of the record: field f reads v, every other field reads as before |
| `Contact.UpdateUnique` | src/pages/CreateLocation/index.tsx:56 | Any record with those two properties is the updated record, so the update is fully determined |
| `Contact.UpdateOverwrites` | src/pages/CreateLocation/index.tsx:56 | A later change to the same input overwrites an earlier one |
| `Contact.UpdatesCommute` | src/pages/CreateLocation/index.tsx:56 | Changes to two different inputs commute |
| `Contact.UpdateSameValue` | src/pages/CreateLocation/index.tsx:56 | Re-entering a field's current value leaves the record unchanged |
| `Contact.KeyInjective` | src/pages/CreateLocation/index.tsx:55-56 | The five input names are distinct, so one change event reaches exactly one field |
| `CreateLocation.FormState.ToggleItem` | src/pages/CreateLocation/index.tsx:61-74 | A selected id is removed and the others keep their order. Any other id is appended at the end. The no-duplicates invariant is kept |
| `Selection.FindIndex` | src/pages/CreateLocation/index.tsx:63 | Returns -1 exactly when the id is absent. Otherwise returns the position of its first occurrence |
| `Selection.Without` | src/pages/CreateLocation/index.tsx:67 | The id no longer occurs and every other id is kept; the multiset is the old one with the id's count zeroed |
| `Selection.WithoutConcat` | src/pages/CreateLocation/index.tsx:67 | Filtering distributes over concatenation, so the survivors keep their relative order |
| `Selection.WithoutAbsent` | src/pages/CreateLocation/index.tsx:67 | Filtering out an id that is not present returns the list unchanged |
| `Selection.Toggle` | src/pages/CreateLocation/index.tsx:63-71 | The toggled id flips membership; every other id keeps its membership |
| `Selection.ToggleAppends` | src/pages/CreateLocation/index.tsx:69-71 | Toggling an unselected id appends it at the end and leaves every earlier entry in place |
| `Selection.ToggleRemoves` | src/pages/CreateLocation/index.tsx:63-68 | In a duplicate-free selection, toggling the id at position i removes exactly that entry and keeps the rest in order |
| `Selection.ToggleKeepsNoDuplicates` | src/pages/CreateLocation/index.tsx:61-74 | A toggle never introduces a duplicate |
| `Selection.ToggleTwiceRestores` | src/pages/CreateLocation/index.tsx:61-74 | Toggling an unselected id twice restores the selection exactly |
| `Selection.ToggleAllParity` | src/pages/CreateLocation/index.tsx:61-74 | After a run of clicks, an id's membership has flipped exactly when it was clicked an odd number of times |
| `Selection.SelectedIffOddClicks` | src/pages/CreateLocation/index.tsx:61-74 | From the empty selection, an id is selected exactly when it was clicked an odd number of times |
| `Selection.ToggleAll` | src/pages/CreateLocation/index.tsx:61-74 | A run of clicks applied in order. From a duplicate-free selection, any run of clicks keeps it duplicate-free |
| `Selection.ToggleAllSnoc` | src/pages/CreateLocation/index.tsx:61-74 | One more click toggles the selection reached so far, so a run of handler calls can be tracked click by click |
| `Payload.IdToString` | src/pages/CreateLocation/index.tsx:94 | The rendering of one id is never empty and holds no comma, so joining with "," can be undone |
| `Payload.IdRoundTrip` | src/pages/CreateLocation/index.tsx:94 | Every integral id is recovered from its decimal rendering |
| `Payload.DecimalRoundTrip` | src/pages/CreateLocation/index.tsx:94 | The digits of a natural number denote that number |
| `Payload.Join` | src/pages/CreateLocation/index.tsx:94 | The joined string starts with the first piece's first character and ends with the last piece's last character |
| `Payload.SplitJoin` | src/pages/CreateLocation/index.tsx:94 | Splitting on "," undoes joining with "," when no piece holds a comma |
| `Payload.ItemsText` | src/pages/CreateLocation/index.tsx:83-94 | The items part is "" exactly when nothing is selected. Otherwise it neither starts nor ends with a separator |
| `Payload.ItemsRoundTrip` | src/pages/CreateLocation/index.tsx:83-94 | The items part gives back the selected ids in selection order |
| `Payload.Build` | src/pages/CreateLocation/index.tsx:85-97 | The body has eight parts, plus one when a file is attached. The only binary part is the one after the eight text parts, and it holds the attached file. `BuildOrder` and the `BuildLookup*` lemmas give the rest of its meaning |
| `Payload.BuildOrder` | src/pages/CreateLocation/index.tsx:87-97 | The parts come in the order name, email, whatsapp, uf, city, latitude, longitude, items. An image part comes last exactly when a file is attached |
| `Payload.BuildLookupField` | src/pages/CreateLocation/index.tsx:81-91 | Each of the five form keys reads back its field's value |
| `Payload.BuildLookupPosition` | src/pages/CreateLocation/index.tsx:82-93 | The latitude and longitude keys read back the rendered coordinates |
| `Payload.BuildLookupItems` | src/pages/CreateLocation/index.tsx:94 | The items key reads back the comma-joined ids |
| `Payload.BuildLookupImage` | src/pages/CreateLocation/index.tsx:95-97 | The image key reads back the attached file, and nothing when no file is attached |
| `Payload.DecodeBuild` | src/pages/CreateLocation/index.tsx:81-97 | The body determines the record, the selection and the file |
| `CreateLocation.FormState.UploadFile` | src/pages/CreateLocation/index.tsx:39 | The dropped file replaces any earlier one; no other cell changes |
| `CreateLocation.FormState.Submit` | src/pages/CreateLocation/index.tsx:77-97 | The body built one append at a time is the fixed serialisation of the current state, and it decodes back to the record, the selection and the file |

## Left out

- `src/pages/Home/index.tsx` is static markup with one link and has no logic to model.
- The catalog request on mount and the POST of the body are HTTP calls through a client that is not part of this model. The catalog response is the parameter of `LoadCatalog`. `Submit` returns the body instead of sending it.
- The confirmation dialog and the navigation back to `/` after submitting are browser and router side effects. So are `preventDefault` and the ordering of `await`.
- The map widget, the drop zone widget and all rendering are left out. That includes the CSS class chosen with `includes`.
- `Payload.Build`: `String(latitude)` and `String(longitude)` format floating-point numbers in JavaScript. The model takes that conversion as the parameter `show` and treats coordinates as `real`.
- `Payload.IdToString`: ids are JavaScript numbers. The model takes them as integers and renders them in plain decimal. It does not model the exponent form JavaScript uses at 1e21 and above, non-integral ids, or NaN.
- React's `useCallback` memoisation and stale-closure behaviour are left out. Handlers are modelled as acting on the current state, one event at a time.
- `CreateLocation.FormState.SetField`: a change event whose input name is not one of the five known keys would add an extra key to the record. The model only accepts the five fields.
- The file is opaque data, a name and bytes. The model does not look inside it.

# Record store of anki-linguist, modelled in Dafny

anki-linguist is a browser-side flashcard editor. Its document store
(`src/stores/record.ts`) keeps the chunk records of the current document.
A chunk record is a front/back pair with an ordered list of additions.
The store also keeps:

- the document's title,
- a registry of the titles that have been saved,
- the browser's `localStorage`, where a saved document lives under the key
  `AL_records_` followed by its title.

The model has three modules:

- `FirstMatch` (`first_match.dfy`) holds the linear search by id that the
  store uses for both records and additions. It has a reference function
  `IndexOf` for "first match or -1", the search loop `FindIndex`, and a reference
  definition `RemoveFirst` of "drop the first match". The lemma
  `RemoveFirstIsSplice` proves that `findIndex` followed by
  `splice(index, 1)` computes `RemoveFirst`.
- `Records` (`records.dfy`) holds the entities:
  - `Addition` is a value datatype. Its JSON shape is the same four fields.
  - `RecordJson` is the plain JSON object of a record (`JsonType<ChunkRecord>`).
  - `ChunkRecord` is a class, because `withFront`, `withBack`, `push` and
    `splice` change a record in place. `ToJson` reads an object back as its
    JSON, and `RecordsToJson` does the same for a list of records. That list
    is what `export_records` serialises.
- `Store` (`store.dfy`) holds the `RecordStore` class, with fields
  `title`, `records`, `registry` and `storage`. Its methods are the store's
  functions. Each method states the new state in terms of the old one,
  through `ExportRecords()`. `Valid()` says two things: no record object
  occurs twice, and the registry has no duplicate title. Every method keeps
  `Valid()`.

Ids that `nanoid` would generate are parameters of the operations. A
missed lookup returns the default record or default addition built from
such an id. This record is created but never inserted, and the model
proves this: either `fresh` plus an unchanged `records` list, or an
unchanged export. JSON text in `localStorage` is modelled as a lossless
encoding, so a storage entry holds the list of plain record objects that
was written. `LoadRecords` rebuilds the record objects from it with
`ChunkRecord.fromJSON`, and the model proves the round trip:
`ExportRecords()` after a load equals the stored entry.

The model follows `record.ts` as written:

- the storage key is the plain title after `AL_records_`, with no further encoding;
- a stored document is the bare list of records, with no version, sections or footer;
- `delete_record` returns nothing;
- there is no operation that deletes a saved document.

## Model

| member | source | states |
|---|---|---|
| `FirstMatch.IndexOf` | src/stores/record.ts:88-90 | the index of the first element with the given id, every earlier element has another id, and -1 exactly when no element has it |
| `FirstMatch.FindIndex` | src/stores/record.ts:104-106 | the left-to-right scan that `find` makes over a record's additions returns exactly the first-match index (or -1) |
| `FirstMatch.RemoveFirstIsSplice` | src/stores/record.ts:92-97 | `findIndex` then `splice(index, 1)` (nothing when -1) equals removing the first match, with the elements before and after it kept in order |
| `FirstMatch.RemoveFirstLength` | src/stores/record.ts:92-97 | removal shortens the list by exactly one when some element matches and leaves it unchanged otherwise |
| `Records.Addition.FromJson` | src/stores/record.ts:26-28 | `Addition.fromJSON` copies id, icon, front and back exactly |
| `Records.Addition.Default` | src/stores/record.ts:30-32 | a default addition has the fresh id, icon "→" and empty front and back |
| `Records.MapFromJson` | src/stores/record.ts:64-66 | mapping `Addition.fromJSON` over additions keeps the length, and each position holds the conversion of the same position |
| `Records.MapFromJsonCopies` | src/stores/record.ts:26-28 | rebuilding additions from their JSON gives back the same list: nothing lost, nothing reordered |
| `Records.ChunkRecord.constructor` | src/stores/record.ts:42-48 | a record holds exactly the id, level, texts and additions it was built with |
| `Records.ChunkRecord.Default` | src/stores/record.ts:60-62 | a default record has the fresh id, level "-", empty front and back and no additions |
| `Records.ChunkRecord.FromJson` | src/stores/record.ts:64-66 | `ChunkRecord.fromJSON` copies id, level, front and back, maps the additions, and the object serialises back to the JSON it was built from |
| `Records.ChunkRecord.ToJson` | src/stores/record.ts:142-144 | the plain object `JSON.stringify` writes for a record carries exactly its id, level, front, back and additions; `ChunkRecord.FromJson` reads such an object back to a record with the same JSON |
| `Records.ChunkRecord.WithFront` | src/stores/record.ts:50-53 | only the front text changes, and the same object is returned |
| `Records.ChunkRecord.WithBack` | src/stores/record.ts:55-58 | only the back text changes, and the same object is returned |
| `Records.RecordsToJson` | src/stores/record.ts:142-144 | the export has one plain object per record |
| `Records.RecordsToJsonAt` | src/stores/record.ts:142-144 | position k of the export is the JSON of the record at position k, so the order is kept |
| `Records.RecordsToJsonAppend` | src/stores/record.ts:85 | pushing a record onto the list appends its JSON to the export |
| `Records.RecordsToJsonConcat` | src/stores/record.ts:142-144 | the export of two lists joined is the two exports joined |
| `Records.RecordsToJsonSplice` | src/stores/record.ts:95 | splicing out the record at index i removes exactly position i of the export |
| `Records.RecordsToJsonUpdate` | src/stores/record.ts:101 | when only the record at index i has changed in place, the export differs from the old one at position i only |
| `Records.DistinctSplice` | src/stores/record.ts:95 | removing one record from a list without repeated objects keeps it without repeats |
| `Store.RecordsKey` | src/stores/record.ts:120 | the key is exactly `AL_records_` followed by the title: its first characters are the prefix and the rest is the title |
| `Store.RecordsKeyInjective` | src/stores/record.ts:120-124 | distinct titles use distinct keys, so saving one document never overwrites another |
| `Store.Register` | src/stores/record.ts:117-119 | after saving, the title is in the registry, the old registry is a prefix, at most one title is added, and a registry without duplicates stays without duplicates |
| `Store.RegisterIdempotent` | src/stores/record.ts:117-119 | registering a title that was just registered changes nothing |
| `Store.DeleteSplices` | src/stores/record.ts:92-97 | splicing out the record at the first-match index (nothing at -1) removes the first match from the export and keeps the list free of repeated objects |
| `Store.RecordStore.constructor` | src/stores/record.ts:69-82 | first start: title "Chunks", the two sample records, an empty registry, and then the silent load of "Chunks", which replaces the records when that document is stored |
| `Store.RecordStore.AddRecord` | src/stores/record.ts:84-86 | the list grows by one fresh record at the end, the old records stay as the prefix, and the new export is the old one plus a default record |
| `Store.RecordStore.IndexOfRecord` | src/stores/record.ts:89 | the scan that `find` makes over the record objects returns the first-match index of the id in the export |
| `Store.RecordStore.ExportRecords` | src/stores/record.ts:142-144 | `export_records`: one plain object per record; position k is the JSON of record k (`RecordsToJsonAt`), and the export of a pushed, spliced or updated list follows `RecordsToJsonAppend`, `RecordsToJsonSplice` and `RecordsToJsonUpdate` |
| `Store.RecordStore.FindRecord` | src/stores/record.ts:88-90 | returns the first record with the id, or else a fresh default record that is not in the list |
| `Store.RecordStore.DeleteRecord` | src/stores/record.ts:92-97 | removes exactly the first record with the id, keeping the others in order, and changes nothing when none matches |
| `Store.RecordStore.AddAddition` | src/stores/record.ts:99-102 | the matched record gets one default addition at the end and every other record is unchanged; with no match, nothing changes |
| `Store.RecordStore.FindAddition` | src/stores/record.ts:104-106 | two-level lookup: the first addition with the id in the first record with the id, else a default addition |
| `Store.RecordStore.DeleteAddition` | src/stores/record.ts:108-114 | removes the first matching addition of the matched record only; with no matching record or addition, nothing changes |
| `Store.RecordStore.RemoveAddition` | src/stores/record.ts:110-113 | on the record found, the first addition with the id is removed and the others stay in order (the reference `RemoveFirst`); the record's other fields are unchanged |
| `Store.RecordStore.SaveRecords` | src/stores/record.ts:116-121 | registers the title and stores the current export under its key, and all other keys are untouched |
| `Store.RecordStore.LoadRecords` | src/stores/record.ts:123-134 | with an entry: the title becomes the requested one and the records are replaced wholesale by fresh objects whose export equals the entry; without one: nothing changes, and the not-found alert fires exactly when interactive |
| `Store.RecordStore.AddNewRecords` | src/stores/record.ts:136-140 | saves the outgoing title and records first, then leaves an empty record list and a title "New " followed by the fresh id |
| `Store.SaveThenLoad` | src/stores/record.ts:116-134 | saving and then loading the current title gives back the same title and records, with no alert |
| `Store.AddThenFind` | src/stores/record.ts:84-90 | a record added under an id no record has is the one `find_record` returns, still a default record |

## Left out

- `download_export` (lines 146-150) is left out. It is a browser file download made through `Blob` and `saveAs`.
- The `alert("Record not found.")` call is modelled only as the out-parameter `alerted` of `LoadRecords`.
- The reactive `useLocalStorage` cells for `AL_title`, `AL_chunkRecords` and `AL_recordStorageIds`, and their custom serializer, are left out. The constructor models the first start, when none of the three is stored yet.
- The real JSON text is left out. This covers the 2-space pretty-printing and failures to parse a corrupt entry. A storage entry is the list of plain records itself.
- `nanoid` is left out. Ids are caller-supplied parameters, and no member assumes they are unique, except `AddThenFind`, which states it as a requirement.
- The `JsonType<T>` type mapping is left out. It has no run-time behaviour.
- `Records.Addition.FromJson`: additions are values, so the identity of addition objects is not modelled. Changing an addition in place through the object `find_addition` returns is therefore not captured.
- `Records.ChunkRecord.constructor`: the additions list is a sequence. Two records sharing one additions array object is not modelled.
- `records` is a sequence that the methods reassign, not one shared array object. `AddRecord` (`push`, line 85), `DeleteRecord` (`splice(index, 1)`, line 95), `LoadRecords` (`splice(0, length, ...)`, line 131) and `AddNewRecords` (`splice(0, length)`, line 139) change the same `chunkRecords` array in place in the source; the identity of that array, and any other holder of a reference to it, is not modelled.
- `Store.RecordStore.SaveRecords`: the write to `localStorage` cannot fail in the model. In the source, `setItem` (line 120) can throw when storage is full; the title has then already been pushed onto the registry (line 118) while the entry under its key is missing or stale.
- `Store.RecordStore.AddNewRecords`: because that failure is not modelled, neither is its effect here: in the source an exception from `save_records` (line 137) stops `add_new_records` before the title and records are reset.

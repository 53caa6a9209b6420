# Glowwise local store and avatar, in Dafny

This project models the client-side state store of the Glowwise skincare
app (`AppProvider` in `context/AppContext.tsx`) and the pure helpers of its
avatar component (`components/ui/Avatar.tsx`), and proves properties of the
model.

The store holds four collections: the skin profile, the routines, the
progress entries and the wishlist. It also holds an `isLoaded` flag. Each
`useState` cell is a field of the class `Store.AppStore`, and each setter
call assigns that field. The list and record transformations behind the
mutators are functions. They live in `Records` (the record types and
shallow merges) and `IdLists` (the operations keyed by id), and their laws
are proved as lemmas. Device storage (AsyncStorage) is a field
`storage: map<string, string>`. The load and save effects are the methods
`Load` and `Save`. Each is specified by a function in `Persistence`
(`Loaded`, `Saved`), and the load/save lifecycle is proved about those
functions. `JSON.stringify`/`JSON.parse` are abstracted as a `Codec` per
slot: an encoder and a decoder that may fail. `LawfulCodecs` is the
assumption, used only as a precondition, that each decoder reads back what
its encoder wrote and that an encoding is never the empty text.

Two behaviours of the code that a reader might not expect, and that the
model follows:
- `updateRoutine` uses `map`, so it merges the patch into every routine
  with the id, not only the first one (`Store.UpdateRoutinesAllMatches`).
- Load failures are not isolated per slot. One `try` covers all four
  parses, so a corrupt profile slot also discards valid stored routines,
  progress and wishlist (`Persistence.CorruptProfileSkipsAll`).
  The save that follows the load then overwrites those slots with
  in-memory values (`Persistence.CorruptProfileOverwritesRest`).

The avatar part covers the size table (dimension, font size, the border
radius and line height derived from the dimension) and `getInitials`.
`Split` models `name.split(' ')` and is proved to be inverted by `Join`.
`Initials` is characterised through the text before the first space and
after the last space.

A TypeScript property named `type` is called `kind` here. A JavaScript
`number` (the wishlist price) is a `real`.

## Model

| member | source | states |
|---|---|---|
| Records.MergeProfile | context/AppContext.tsx:124-126 | each key present in the partial profile takes the partial's value; each absent key keeps its previous value |
| Records.MergeProfileTwice | context/AppContext.tsx:124-126 | two merges in a row equal one merge with the second patch laid over the first, so setting `sensitivity` and then `skinType` keeps both |
| Records.MergeProfileIdempotent | context/AppContext.tsx:124-126 | merging the same partial profile twice equals merging it once |
| Records.MergeRoutine | context/AppContext.tsx:134 | `{ ...routine, ...updates }`: each routine key takes the patch's value when present, including the id; an empty patch leaves the routine unchanged |
| IdLists.Without | context/AppContext.tsx:138-140 | the filter by id: no survivor carries the id; every survivor came from the input; every non-matching input record survives; the length drops by the number of matching records |
| IdLists.WithoutConcat | context/AppContext.tsx:139 | filtering distributes over concatenation, so survivors keep their original order |
| IdLists.WithoutAbsent | context/AppContext.tsx:139 | removing an id that no record carries leaves the list unchanged |
| IdLists.WithoutIdempotent | context/AppContext.tsx:139 | removing the same id twice equals removing it once |
| IdLists.WithoutCommutes | context/AppContext.tsx:139 | removals of two ids give the same list in either order |
| IdLists.WithoutUnique | context/AppContext.tsx:157-159 | removing an id keeps the wishlist's ids unique |
| IdLists.UpdateWhere | context/AppContext.tsx:134 | the `map` by id: the length is kept; each record with the id is replaced by its image; every other record stays in its place |
| IdLists.UpdateWhereAbsent | context/AppContext.tsx:132-136 | updating an id that no record carries leaves the list unchanged |
| IdLists.CountId | context/AppContext.tsx:152 | the number of records with an id is zero exactly when `some` finds none |
| IdLists.AddIfAbsentSpec | context/AppContext.tsx:150-155 | after the add the id is present; the list is unchanged exactly when the id was present before, and it is the old list plus the item at the end exactly when the id was absent; the id's count grows by one only in that case |
| IdLists.AddIfAbsentTwice | context/AppContext.tsx:150-155 | a second add with the same id leaves the list as the first add left it, so an id absent before occurs exactly once |
| IdLists.AddIfAbsentUnique | context/AppContext.tsx:150-155 | if the wishlist's ids were unique before the add, they stay unique |
| Persistence.KeysDistinct | context/AppContext.tsx:86-89 | the four storage keys are pairwise different |
| Persistence.ParseSlot | context/AppContext.tsx:91-94 | an absent or empty slot keeps the current value; other text is decoded; a decoding failure is a throw; a successful decode yields the decoded value |
| Persistence.LoadedSlots | context/AppContext.tsx:85-96 | after the load, each slot ranked before the first corrupt slot holds its parsed value, while the corrupt slot and every later slot keep their current values |
| Persistence.LoadedNothingStored | context/AppContext.tsx:91-94 | when every slot is absent or empty, the load keeps the current state |
| Persistence.CorruptProfileSkipsAll | context/AppContext.tsx:85-96 | a corrupt profile slot leaves the whole state as it was, valid later slots included |
| Persistence.SavedSlots | context/AppContext.tsx:109-118 | after a save round, each slot ranked before the first rejected write holds the encoding of the current collection; the rejected slot and later slots keep their old text; other keys are untouched |
| Persistence.SaveHeals | context/AppContext.tsx:109-121 | a save round with no rejected write leaves storage as if an earlier, partly failed round had never run |
| Persistence.SaveThenLoad | context/AppContext.tsx:84-118 | with round-tripping codecs, a complete save followed by a load reproduces the saved aggregate field for field |
| Persistence.CorruptProfileOverwritesRest | context/AppContext.tsx:85-121 | after a load that hit a corrupt profile slot, the next complete save writes the in-memory routines, progress and wishlist over the stored ones |
| Store.UpdateRoutinesAt | context/AppContext.tsx:132-136 | `updateRoutine` keeps the length and order, merges the patch into every routine with the id, leaves the others unchanged, and is a no-op when no routine has the id |
| Store.UpdateRoutinesAllMatches | context/AppContext.tsx:134 | two routines that share an id are both updated |
| Store.AppStore.constructor | context/AppContext.tsx:76-80 | the store starts with an empty profile, empty lists and `isLoaded` false |
| Store.AppStore.Load | context/AppContext.tsx:84-99 | the new state is the `Loaded` function of the stored text and the previous state; `isLoaded` is true afterwards whether or not the load succeeded |
| Store.AppStore.Save | context/AppContext.tsx:106-118 | storage is unchanged while `isLoaded` is false; otherwise it is the `Saved` function of the old storage and the current state; the in-memory state never changes |
| Store.AppStore.UpdateUserProfile | context/AppContext.tsx:124-126 | the profile becomes the shallow merge of the old profile and the partial |
| Store.AppStore.AddRoutine | context/AppContext.tsx:128-130 | the routine is appended at the end with no id check; nothing else changes |
| Store.AppStore.UpdateRoutine | context/AppContext.tsx:132-136 | the routines become `UpdateRoutines` of the old routines |
| Store.AppStore.DeleteRoutine | context/AppContext.tsx:138-140 | the routines become the old routines without the id |
| Store.AppStore.AddProgressEntry | context/AppContext.tsx:142-144 | the entry is appended at the end with no id check |
| Store.AppStore.DeleteProgressEntry | context/AppContext.tsx:146-148 | the entries become the old entries without the id |
| Store.AppStore.AddToWishlist | context/AppContext.tsx:150-155 | the wishlist becomes `AddIfAbsent` of the old wishlist and the item |
| Store.AppStore.RemoveFromWishlist | context/AppContext.tsx:157-159 | the wishlist becomes the old wishlist without the id |
| Store.StartUp | context/AppContext.tsx:83-121 | start-up against storage that holds a full save of an aggregate, with a profile update and a save attempted before the load: the store ends up loaded and holding that aggregate, and storage ends as it began |
| Persistence.Loaded | context/AppContext.tsx:84-99 | a failed read leaves the state as it was; each collection afterwards is either its current value or the value decoded from its own slot |
| Persistence.Saved | context/AppContext.tsx:109-118 | each slot afterwards holds either its old text or the encoding of the current collection; no stored key is lost |
| IdLists.HasId | context/AppContext.tsx:152 | `some` finds the id exactly when the id is among the records' ids |
| IdLists.AddIfAbsent | context/AppContext.tsx:150-155 | the old wishlist is a prefix of the new one, which is at most one longer; the new ids are the old ids plus the item's id |
| Store.UpdateRoutines | context/AppContext.tsx:132-136 | the update keeps the number of routines, and an empty patch leaves the routines unchanged |
| Avatar.Dimension | components/ui/Avatar.tsx:20-29 | the dimension is 32, 48, 64 for small, medium, large: 32 plus 16 per step up |
| Avatar.FontSize | components/ui/Avatar.tsx:31-41 | the font size is 12, 16, 20 for small, medium, large: 12 plus 4 per step up |
| Avatar.FirstChar | components/ui/Avatar.tsx:49-51 | `charAt(0)` is a prefix of the text, one character long, or empty for empty text |
| Avatar.ResolveSize | components/ui/Avatar.tsx:16 | a missing size is medium; a given size is kept |
| Avatar.BorderRadius | components/ui/Avatar.tsx:62-78 | the radius of the container and the image is exactly half the dimension, so both are circles |
| Avatar.LineHeight | components/ui/Avatar.tsx:85-88 | the initials' line height equals the dimension and exceeds the font size |
| Avatar.SizeTableMonotone | components/ui/Avatar.tsx:20-41 | dimension and font size strictly increase from small to medium to large; the font size is always below the dimension |
| Avatar.Upper | components/ui/Avatar.tsx:49-51 | upper-casing keeps the length, maps each ASCII lower-case letter to its capital, keeps every other character, and leaves no lower-case letter |
| Avatar.UpperIdempotent | components/ui/Avatar.tsx:49-51 | upper-casing twice equals upper-casing once |
| Avatar.Split | components/ui/Avatar.tsx:47 | `split(' ')` yields at least one piece, and no piece contains a space |
| Avatar.JoinSplit | components/ui/Avatar.tsx:47 | joining the pieces with single spaces gives back the name |
| Avatar.SplitNoSpace | components/ui/Avatar.tsx:47-48 | a name without a space splits into itself alone |
| Avatar.SplitCount | components/ui/Avatar.tsx:47-48 | a name with a space splits into at least two pieces |
| Avatar.SplitFirst | components/ui/Avatar.tsx:47-51 | the first piece is the text before the first space |
| Avatar.SplitLast | components/ui/Avatar.tsx:47-51 | the last piece is the text after the last space |
| Avatar.Initials | components/ui/Avatar.tsx:44-52 | a missing or empty name gives the empty string; every result has at most two characters and no lower-case letter |
| Avatar.InitialsOneWord | components/ui/Avatar.tsx:47-49 | a name without a space gives its first character, upper-cased |
| Avatar.InitialsSeveralWords | components/ui/Avatar.tsx:47-51 | a name with a space gives the first character of the text before the first space followed by the first character of the text after the last space, upper-cased; an empty first or last piece contributes nothing |
| Avatar.InitialsIgnoreMiddle | components/ui/Avatar.tsx:51 | middle names do not change the initials |

## Left out

- AsyncStorage's asynchrony is left out. Reads and writes are synchronous updates of the `storage` map. Two save rounds that interleave are not modelled, because each round runs to completion here.
- A rejected `getItem` is the `readFailed` parameter of `Load`. A rejected `setItem` is membership in the `rejects` parameter of `Save`. A rejected write is assumed to leave its slot unchanged.
- `JSON.parse`/`JSON.stringify` are abstract codecs. Text that parses to a value of the wrong shape (such as `"null"`) counts as a value of the right type or as a failed decode. The model does not check the stored value's type at run time.
- React effect scheduling is left out. The save effect is the `Save` method, which the host calls after each change, including the change of `isLoaded` after the load.
- `addToWishlist` tests the render-time `wishlist` rather than `prev`. The model reads the current state, so it does not capture two adds in one render both appending.
- `console.error` logging is left out.
- Clearing a key by passing it explicitly as `undefined` is not modelled. In `{ ...prev, ...patch }` (context/AppContext.tsx:125 and 134) such a key clears the old value, but a `None` in a model patch always keeps it. No screen passes one: the quiz passes `''` for an unselected answer (app/(tabs)/quiz.tsx:92-99).
- Avatar.Upper: models `toUpperCase` on ASCII letters only. Unicode case mapping, which can change the length (for example `ß` becomes `SS`), is not modelled.
- Avatar.Initials: the bound of two characters and the absence of lower-case letters hold for this ASCII upper-casing only. `charAt` works on UTF-16 code units, and the model works on characters.
- The avatar's rendering (image versus text, styles, colours) is left out as presentation.
- `components/ui/Button.tsx`, `Badge.tsx`, `Card.tsx`, `Input.tsx`, `components/Card.js`, `components/Button.js`, `App.js`, `constants/Colors.ts`, `constants/Typography.ts`, `app/_layout.tsx`, `generate-qr.js`, `app.config.js` and the screens are left out. They are layout, styling, static data or framework and library calls, with no behaviour of the store to state.

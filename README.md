# User registration client — verified model

This is a Dafny model of the logic in a small React/Redux client for registering political candidates. The client has four parts worth modelling:

- **User store** (`src/store/userSlice.ts`). This is the state `{users, loading, error}`. It has four asynchronous operations (fetch, create, update, delete) over the `registeredUsers` local-storage entry, and a reducer that settles each operation's pending, fulfilled and rejected outcome into the state.
- **Registration form** (`src/components/UserRegistrationForm.tsx`). This is the draft record and its handlers: set one top-level field, edit one field of one education entry, add or remove an entry, and submit.
- **CMS client transforms** (`src/api/userApi.ts`). These map between the flat record and the CMS's `{data: …}` and `{id, attributes}` envelopes, plus the list normalisation of `getAll`.
- **App shell** (`src/App.tsx`). It tracks which view is shown and which record is being edited.

Files and modules:

- `user_types.dfy` (`UserTypes`): the records. Optional TypeScript properties become `Option`, and ids are compared as `Option`s. So two records without an id match, just as `undefined === undefined` does in the source. The contact fields `email`, `address`, `city`, `state` and `zipCode` are `Option` too, although `src/types/user.ts` declares them required: the form's draft never sets them, so records it submits lack them.
- `user_api.dfy` (`UserApi`): the three transforms, `getAll`'s mapping, and the decimal rendering of numeric ids.
- `user_slice.dfy` (`UserSlice`): the storage entry, the operation bodies as functions on sequences, and the reducer `Reduce`. The class `UserStore` applies `Reduce` by assigning its fields in place (`Dispatch`).
- `store_properties.dfy` (`StoreProperties`): what each reducer case changes and keeps. It also proves that the store's list and the stored list stay equal over any run of successful operations that starts with them equal and with distinct ids, when every created id is new.
- `registration_form.dfy` (`RegistrationForm`): the draft's defaults and edits as functions. The class `DraftForm` holds the draft, and its handlers reassign it.
- `app_shell.dfy` (`AppShell`): the class `App` with its two state variables and its handlers.

Points where the code behaves in a way a reader might not expect. The model follows the code:

- A pending fetch or create only raises `loading`. It does not clear `error`.
- Update and delete have no pending or rejected case, so they never change `loading` or `error`.
- The stored list's update replaces every record with the payload's id (`map`). The in-memory update replaces only the first one (`findIndex`). `StoreProperties.ReplaceFirstIsReplaceById` shows that the two agree when ids are distinct. `StoreProperties.DuplicateIdsDiverge` shows that they differ when two records share an id.
- The draft carries no contact fields and no timestamps. So submitting an edit sends the record back without them (`RegistrationForm.UnchangedEditDropsContactDetails`).
- The form keeps its draft when its `editingUser` prop changes, because it is not remounted. Pressing the form's navigation button while editing clears the prop but keeps the edited draft, so the next submit creates a copy of the record under a new id (`AppShell.ResubmitAfterNavigatingToForm`).
- In edit mode, the education list is copied from the edited record even when that list is empty, because an empty array is truthy. The rule of at least one entry therefore holds only from a non-empty start.

## Model

| member | source | states |
|---|---|---|
| `UserApi.NatToString` | src/api/userApi.ts:42 | The id string is all decimal digits. It starts with `0` only for the number 0. |
| `UserApi.ParseNatToString` | src/api/userApi.ts:42 | Reading the decimal rendering back gives the number. |
| `UserApi.NatToStringInjective` | src/api/userApi.ts:42 | Two numeric ids render as the same string exactly when they are equal. |
| `UserApi.TransformStrapiUser` | src/api/userApi.ts:41-44 | Every attribute is copied unchanged. An `id` in the attributes wins. Otherwise the id is a decimal string that reads back as the item's numeric id, with no leading zero unless the id is 0. |
| `UserApi.TransformUserForStrapi` | src/api/userApi.ts:46-48 | For a record without an id, unwrapping `data` gives the record back. |
| `UserApi.TransformUserUpdateForStrapi` | src/api/userApi.ts:50-53 | The wrapped patch has no `id`. Putting the old `id` back gives the original patch, so every other field is kept. |
| `UserApi.GetAllNormalize` | src/api/userApi.ts:58 | The result has the same length as the item list. Element k is the transform of item k. |
| `UserApi.CreateRoundTrip` | src/api/userApi.ts:41-48 | Wrapping a draft and reading it back as item `n` gives the draft plus the id `n` in decimal. |
| `UserApi.UpdateEnvelopeOfRecord` | src/api/userApi.ts:50-53 | An update request for a whole record carries exactly that record minus its id. |
| `UserApi.GetAllUniqueIds` | src/api/userApi.ts:41-58 | Items with distinct numeric ids and no attribute id normalise to records with distinct ids. |
| `UserSlice.LoadUsersFromStorage` | src/store/userSlice.ts:8-15 | A missing or unreadable entry loads as the empty list. A stored list loads as itself. |
| `UserSlice.SaveUsersToStorage` | src/store/userSlice.ts:17-19 | Loading after saving gives back the saved list. |
| `UserSlice.ReplaceById` | src/store/userSlice.ts:44-46 | Length and every id are kept. Each record with the payload's id becomes the payload. Every other record is unchanged. |
| `UserSlice.RemoveById` | src/store/userSlice.ts:56 | No remaining record has the id. An absent id leaves the list unchanged. A present one makes the list shorter. |
| `UserSlice.FindIndex` | src/store/userSlice.ts:104 | Gives no index exactly when no record has the id. Otherwise gives the first index whose record has it. |
| `UserSlice.ReplaceFirst` | src/store/userSlice.ts:104-107 | Length is kept. On a miss the list is unchanged. Only a first matching record can change, and only into the payload. On a hit the first matching index holds the payload. |
| `UserSlice.CreateUserBody` | src/store/userSlice.ts:29-38 | The stored list is the old one plus one record at the end. That record is the input with the new id, and all earlier records are unchanged. |
| `UserSlice.UpdateUserBody` | src/store/userSlice.ts:40-50 | The stored list keeps its length. Every record with the payload's id is replaced by the payload, and the others are unchanged. Resolves with the payload. |
| `UserSlice.DeleteUserBody` | src/store/userSlice.ts:52-60 | No stored record keeps the id. Deleting an absent id changes nothing, and a present id shortens the list. Resolves with the id. The kept records are stated by `StoreProperties.DeleteUserBodyKeepsOthers`. |
| `UserSlice.ErrorText` | src/store/userSlice.ts:88 | Gives the rejection's message if it is present and non-empty, else the fallback. |
| `UserSlice.Reduce` | src/store/userSlice.ts:68-113 | Only `clearError` and the fetch and create rejections change `error`. Only the fetch and create outcomes change `loading`. Only fulfilled outcomes change the list. Each case is stated further by the `StoreProperties` lemmas. |
| `UserSlice.UserStore.constructor` | src/store/userSlice.ts:62-66 | The store starts with no users, not loading and no error. |
| `UserSlice.UserStore.Dispatch` | src/store/userSlice.ts:68-113 | Assigning fields case by case leaves the store in exactly the state the reducer specifies for that action. |
| `StoreProperties.PendingAndClearErrorFrames` | src/store/userSlice.ts:72-93 | A pending fetch or create only sets `loading`. `clearError` only clears `error`. |
| `StoreProperties.FetchAndCreateFulfilled` | src/store/userSlice.ts:82-97 | A fetch replaces the list wholesale. A create appends its record at the end and keeps the earlier records. Both lower `loading` and keep `error`. |
| `StoreProperties.UpdateFulfilledReplacesFirst` | src/store/userSlice.ts:103-108 | Length, `loading` and `error` are kept. A miss changes nothing. A hit replaces exactly the first matching record. |
| `StoreProperties.DeleteFulfilledFilters` | src/store/userSlice.ts:110-112 | The id is gone. Every other record is kept, in its original order, and no record is added. `loading` and `error` are kept. Deleting an absent id changes nothing. |
| `StoreProperties.DeleteUserBodyKeepsOthers` | src/store/userSlice.ts:55-57 | The stored list after a delete keeps every record without the id, in its original order, and adds none. |
| `StoreProperties.RejectedSetsError` | src/store/userSlice.ts:86-101 | A rejected fetch or create lowers `loading` and keeps the list. The error becomes the rejection's message when it is present and non-empty, else the fixed fallback, so it is never empty. |
| `StoreProperties.UnhandledOutcomesAreNoOps` | src/store/userSlice.ts:76-113 | Pending and rejected updates and deletes leave the state as it is. |
| `StoreProperties.RemoveByIdAppend` | src/store/userSlice.ts:56 | Filtering distributes over concatenation, so the kept records stay in their original order. |
| `StoreProperties.RemoveByIdSplit` | src/store/userSlice.ts:56 | Filtering the list equals filtering any prefix and the rest and joining them, so kept records keep their order. |
| `StoreProperties.RemoveByIdMembers` | src/store/userSlice.ts:56 | Filtering keeps every record without the id and introduces no record. |
| `StoreProperties.RemoveByIdKeepsUnique` | src/store/userSlice.ts:56 | Filtering keeps ids distinct. |
| `StoreProperties.ReplaceFirstIsReplaceById` | src/store/userSlice.ts:44-107 | With distinct ids, the reducer's first-match update equals the stored list's update of every match. |
| `StoreProperties.DuplicateIdsDiverge` | src/store/userSlice.ts:44-107 | For any two records sharing the payload's id, the second differing from the payload, storage replaces both and the store replaces only the first. |
| `StoreProperties.AppendNewIdKeepsUnique` | src/store/userSlice.ts:33-34 | Appending a record whose id is not yet taken keeps ids distinct. |
| `StoreProperties.Succeed` | src/store/userSlice.ts:22-113 | One operation that succeeds: the pending action, the body over storage, then the fulfilled action with the body's result. `error` is untouched. A fetch or create ends with `loading` down, and an update or delete leaves `loading` as it was. A fetch leaves storage alone and loads the stored list. A create adds exactly one stored record. |
| `StoreProperties.SucceedKeepsInSync` | src/store/userSlice.ts:22-112 | From a state where the store's list equals the stored list and ids are distinct, one successful operation (with an unused id for a create) keeps them equal. Ids stay distinct and `error` is untouched. |
| `StoreProperties.FetchEstablishesInSync` | src/store/userSlice.ts:22-85 | A fetch makes the store's list equal the stored list, whatever the store held before, and leaves storage as it was. |
| `StoreProperties.ReplayKeepsInSync` | src/store/userSlice.ts:22-112 | From such a state, the same holds over any run of successful operations applied in completion order. |
| `StoreProperties.FetchFromEmptyStorage` | src/store/userSlice.ts:8-85 | Fetching from a missing, unreadable or empty entry ends with an empty list and `loading` down. `error` is unchanged. |
| `StoreProperties.CreateThenFetch` | src/store/userSlice.ts:22-38 | A created record comes back last from the next fetch. It equals the submitted data except for its new id. |
| `RegistrationForm.PhotoOrEmpty` | src/components/UserRegistrationForm.tsx:60 | An absent or empty photo becomes the empty URL. Any other photo is kept. |
| `RegistrationForm.InitialFormData` | src/components/UserRegistrationForm.tsx:51-61 | Creating: every text field is empty, gender is male, there is exactly one blank education entry, and the photo is empty. Editing: the edited record's fields. Never an id, contact field or timestamp. |
| `RegistrationForm.ApplyInput` | src/components/UserRegistrationForm.tsx:65-68 | Only the named field changes. The education list and every other field are kept, and writing the old value back restores the draft. |
| `RegistrationForm.SetEntryField` | src/components/UserRegistrationForm.tsx:70-74 | Length is kept. Entry `index` gets the value in that field and keeps its other fields. Every other entry is unchanged. |
| `RegistrationForm.WithoutIndex` | src/components/UserRegistrationForm.tsx:87 | For an index in range, exactly that entry is removed and the others keep their order. Otherwise the list is unchanged. |
| `RegistrationForm.UnchangedEditDropsContactDetails` | src/components/UserRegistrationForm.tsx:51-96 | Submitting an untouched edit sends the record without its contact fields and timestamps, with an absent photo made empty. |
| `RegistrationForm.DraftForm.constructor` | src/components/UserRegistrationForm.tsx:63 | The draft starts at the initial value. It has an education entry exactly when creating or when the edited record has one. |
| `RegistrationForm.DraftForm.HandleInputChange` | src/components/UserRegistrationForm.tsx:65-68 | The draft becomes the old draft with the one input applied. The education rule is kept. |
| `RegistrationForm.DraftForm.ReceiveEditingUser` | src/components/UserRegistrationForm.tsx:44-63 | A new `editingUser` prop replaces the old one, and the draft is kept. |
| `RegistrationForm.DraftForm.HandleEducationChange` | src/components/UserRegistrationForm.tsx:70-74 | The draft's education list is replaced by one where only the one field of the one entry has changed. |
| `RegistrationForm.DraftForm.AddEducation` | src/components/UserRegistrationForm.tsx:76-81 | Exactly one blank entry is appended. The earlier entries and the other fields are unchanged. |
| `RegistrationForm.DraftForm.RemoveEducation` | src/components/UserRegistrationForm.tsx:83-90 | With more than one entry, the entry at the index is filtered out. With one entry or none, nothing changes. From at least one entry, at least one remains. |
| `RegistrationForm.DraftForm.HandleSubmit` | src/components/UserRegistrationForm.tsx:92-105 | Editing: requests an update of the draft with the edited id and keeps the draft. Creating: requests a create of the draft and resets it to the defaults. |
| `AppShell.App.constructor` | src/App.tsx:9-10 | Starts on the form view with no record being edited. |
| `AppShell.App.HandleEditUser` | src/App.tsx:12-15 | Edits the given record on the form view. |
| `AppShell.App.HandleCancelEdit` | src/App.tsx:17-20 | Clears the edited record and shows the list. |
| `AppShell.App.HandleViewChange` | src/App.tsx:22-25 | Shows the chosen view. Choosing the form clears the edited record, and choosing the list keeps it. |
| `AppShell.App.Rendered` | src/App.tsx:59-66 | The form is shown exactly on the form view. It gets a cancel callback exactly when a record is being edited. |
| `AppShell.ResubmitAfterNavigatingToForm` | src/App.tsx:22-63 | Editing a record and then pressing the form's navigation button leaves the edited draft in the form, and the next submit is a create of that draft. |
| `AppShell.App.FormSubmitted` | src/components/UserRegistrationForm.tsx:101 | After a submit, an edit returns to the list with nothing being edited. A create stays on the form. |

## Left out

- JSON encoding and decoding of the storage entry. The entry is an abstract value: absent, unreadable, or a stored list. A text that parses to something other than a list is not modelled.
- Exceptions thrown by local storage while saving, which would reject an operation. Only the rejected actions themselves are modelled.
- `generateId`, which depends on the clock and a random source. The new id is a parameter. Its uniqueness is not promised, so the lemmas that need a new id take that as a hypothesis.
- The HTTP calls of the CMS client (`getAll`, `getById`, `create`, `update`, `delete`) and `uploadPhoto` with its multipart body. These are network I/O through a library. Only the data mappings are modelled.
- `UserApi.TransformStrapiUser`: the numeric id is a natural number. Negative or fractional ids, and the exponent notation JavaScript uses for ids of 10^21 and above, are not modelled. An attributes object whose `id` key is explicitly `undefined` is treated like one without the key. In JavaScript such a key would erase the rendered id.
- Races between operations in flight. Each reducer case is one atomic transition.
- The list view (`src/components/userList.tsx`): rendering, the confirmation prompt before a delete, and the fetch on mount.
- Rendering, styling, the step indicator, the input component, the disabled state of the submit button while loading, and the Redux provider wiring.
- `RegistrationForm.DraftForm.HandleEducationChange`: requires an index inside the list. The form only passes indexes of existing entries. The source does not check the index, and in JavaScript a write past the end would extend the array with holes.
- The media object of a photo keeps only its id, name and URL. Its other properties are not modelled.
- The CMS schema declaration (`backend/strapi-backend/types/generated/components.d.ts`), which has no behaviour.

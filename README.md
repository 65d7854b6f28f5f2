# PawPad client: the dog intake and dog page workflows, in Dafny

PawPad is a shelter-management web client. This project models its four
stateful pieces and proves properties of the model:

- **The add-dog form** (`AddNewDog`). It covers the reducer over text, image and shot actions, the
  initial state with its five shot slots, the routing of input events to
  actions, the two payload builders (`makeDogObj`, `makeShotsArray`) and the
  submit workflow. The submit creates the dog, then one shot per slot tagged
  with the new id.
- **The profile section of a dog's page** (`ProfileSection`). It covers the fields derived from
  the fetched record (radio state, image name), the seven-field draft with
  its editing flag, the commit (`updateDogInfo`), the status dropdown and the
  three-step image swap.
- **The dog page** (`DogInfo`). It covers the Adopted/Archive button guard, the modal flags,
  the shot sort and shot lines rendered at mount, the archive workflow, the
  cascading delete and the four-step image swap.
- **The adoption form in the Adopted modal** (`AdoptModal`). It covers eight text fields, the
  one-field change handler and the submit that projects six of them.

Supporting modules:
- `Common`: JavaScript values, and the settled outcome of a service promise.
- `Strings`: `split` on one character and its inverse `join`, and the `>` order on strings.
- `Records`: the records exchanged with the service.
- `DogsApiService`: the service itself. It is a `DogsApi` object that records every request in the order issued.

How each request settles is not decided by the model. Each workflow takes the
settled outcome of every awaited request as a parameter:
- `Result<T>` is a resolved value or a rejection message;
- `Outcome` is resolved or rejected, for a request whose value is not used.

Each workflow's contract states the exact request sequence and the exact new
state for every combination of outcomes. A rejection that the code does not
catch changes nothing and records no error:
- every await in the profile section;
- the mount fetch of the dog page;
- `handleDelete`;
- the refetch inside `handleArchive`.

## Behaviour the model keeps as the code has it

- **Shot slots.** `state.shots` is a JavaScript object whose keys keep insertion
  order, and `makeShotsArray` walks it with `for…in`. Its model is an
  ordered list of slots: an existing key is updated in place and a new key
  goes last. JavaScript keeps insertion order only for keys that are not
  array indices, and every key here is one of the fixed shot labels such as
  "Rabies" or "Complex I", none of them numeric (AddNewDog.js:321-379), so the
  list order is the object's order. The "Rabies Yearly Booster" picker writes a key that is not among the
  five initial slots, so choosing a date there adds a sixth shot
  (`RabiesBoosterAddsSixthSlot`).
- **Commit gender.** The commit compares the boolean `gender.male` with the string
  `"true"` under `===`. That is never true, so every commit sends "Female"
  (`CommitGender`, `MaleDraftCommitsFemale`).
- **Edit and cancel.** Entering and leaving edit mode only flip `isEditing`. The draft is never
  refilled from the record, so a cancelled edit reappears
  (`CancelKeepsStaleDraft`).
- **Profile image swap.** The swap in the profile section:
  - deletes the old image under `imgName`;
  - uploads the new one under the tag number;
  - on success, changes only `info.profile_img`.

  The dog page's swap instead uses the tag number for both image requests, then refetches.
- **No status checks.** `handleArchive` checks no status; only the disabled buttons stand in
  its way (`AdoptedDogCannotBeArchived`, `ArchiveIgnoresStatus`). The status
  dropdown takes any value, "Adopted" and "Archived" included.
- **Adoption submit.** The adoption form's submit sends nothing and changes nothing. Its only
  effect is the record it builds.
- **Shot sort order.** The shot sort comparator `a.shot_name > b.shot_name ? 1 : -1` never
  answers 0. The contract therefore orders shots only by name: shots with equal names may
  end in either order.
- **Shot line keys.** The React keys of the shot lines can collide (`ShotKeysCanCollide`).

## Model

| member | source | states |
|---|---|---|
| Strings.Join | src/Components/ProfileSection/ProfileSection.js:45-46 | the inverse of `split`: the joined string starts with the first part, followed by the separator when more parts follow |
| Strings.Split | src/Components/ProfileSection/ProfileSection.js:45-46 | `split` on one character always yields at least one part |
| Strings.SplitJoinsBack | src/Components/ProfileSection/ProfileSection.js:45-46 | the parts of a split hold no separator, and joining them with it gives the string back |
| Strings.SplitJoin | src/Components/ProfileSection/ProfileSection.js:45-46 | splitting the join of separator-free parts gives back exactly those parts |
| Strings.FirstSegment | src/Components/ProfileSection/ProfileSection.js:46 | `split(sep)[0]` is the longest prefix holding no separator |
| Strings.LastSegment | src/Components/ProfileSection/ProfileSection.js:45-46 | the last part of a split is the longest suffix holding no separator |
| Strings.LastSegmentAfterSep | src/Components/ProfileSection/ProfileSection.js:45-46 | whatever comes before the last separator, the last part of a split is the separator-free text after it |
| Strings.Less | src/Routes/DogInfo/DogInfo.js:267-269 | the string `>`: never holds between equal strings, and a proper prefix comes first |
| Strings.LessAsymmetric | src/Routes/DogInfo/DogInfo.js:267-269 | the string `>` never holds both ways |
| Strings.LessTransitive | src/Routes/DogInfo/DogInfo.js:267-269 | the string `>` is transitive |
| Strings.LessTotal | src/Routes/DogInfo/DogInfo.js:267-269 | two different strings are ordered one way or the other |
| Strings.NotAfterTransitive | src/Routes/DogInfo/DogInfo.js:267-269 | "does not sort after" is transitive, so neighbour order is global order |
| AddNewDog.Put | src/Routes/AddNewDog/AddNewDog.js:43-47 | spreading `[key]: date` into the shots sets that key, leaves every other key alone, keeps the key order and appends a new key last |
| AddNewDog.Names | src/Routes/AddNewDog/AddNewDog.js:121 | the keys that `for…in` visits: one key per slot, in slot order (each position is fixed by `NamesAt`) |
| AddNewDog.NamesAt | src/Routes/AddNewDog/AddNewDog.js:121 | the key list reads each slot's key at that slot's position |
| AddNewDog.PutKeepsUnique | src/Routes/AddNewDog/AddNewDog.js:43-47 | spreading a key into shots whose keys are distinct leaves them distinct |
| AddNewDog.FormReducer | src/Routes/AddNewDog/AddNewDog.js:24-52 | each action type changes only its own part of the state: text and touched flags, the image, or the shots; any other type changes nothing |
| AddNewDog.InitialSlots | src/Routes/AddNewDog/AddNewDog.js:72-78 | the form starts with exactly the five named shot slots, in that order |
| AddNewDog.ReducerTextInput | src/Routes/AddNewDog/AddNewDog.js:26-31 | a text action sets that one field, marks it touched and leaves image and shots alone |
| AddNewDog.ReducerImgInput | src/Routes/AddNewDog/AddNewDog.js:32-41 | an image action replaces file and preview and nothing else |
| AddNewDog.ReducerShotInput | src/Routes/AddNewDog/AddNewDog.js:43-47 | a shot action changes only the named slot, adding it last when new |
| AddNewDog.ReducerOther | src/Routes/AddNewDog/AddNewDog.js:49-50 | any other action type returns the state unchanged |
| AddNewDog.RabiesBoosterAddsSixthSlot | src/Routes/AddNewDog/AddNewDog.js:341-344 | a date for "Rabies Yearly Booster" adds a sixth slot after the five |
| AddNewDog.Replay | src/Routes/AddNewDog/AddNewDog.js:24-52 | over a run of actions, each part of the state stays as it was unless some action of its type occurs |
| AddNewDog.ReplayTouched | src/Routes/AddNewDog/AddNewDog.js:24-52 | over any run of actions a field is touched exactly when it was or some text action named it; no flag is ever reset |
| AddNewDog.ReplayKeepsSlots | src/Routes/AddNewDog/AddNewDog.js:24-52 | over any run of actions the earlier slots keep their order in front of later ones and no key repeats |
| AddNewDog.ChangeAction | src/Routes/AddNewDog/AddNewDog.js:133-157 | `handleChange` sends gender by its value, the three dates by the raw picker value, the image as an image action when a file was chosen and as nothing when the file list is empty (the handler throws before dispatching), and every other field by `e.target.value` |
| AddNewDog.ChangeTouches | src/Routes/AddNewDog/AddNewDog.js:133-161 | every field changed through `handleChange` but the image becomes touched, its flag set to true; the image leaves the flags as they were; a shot change touches nothing |
| AddNewDog.ShotOf | src/Routes/AddNewDog/AddNewDog.js:122-127 | a slot's shot is completed exactly when its date is truthy, and only then carries the formatted date |
| AddNewDog.ShotList | src/Routes/AddNewDog/AddNewDog.js:119-131 | one payload per slot, the i-th being the i-th slot's shot |
| AddNewDog.MakeShotsArray | src/Routes/AddNewDog/AddNewDog.js:119-131 | one payload per slot, in key order, each the slot's shot |
| AddNewDog.RabiesScenario | src/Routes/AddNewDog/AddNewDog.js:119-131 | after picking a Rabies date on a fresh form only Rabies is completed; the other four are sent with no date |
| AddNewDog.DogFields | src/Routes/AddNewDog/AddNewDog.js:89-107 | the `newDog` list: eight text entries keyed `dog_name` through `shelter_id`, in that order |
| AddNewDog.DogForm | src/Routes/AddNewDog/AddNewDog.js:96-114 | the create payload holds the image first, then eight text entries in fixed key order ending with the shelter id |
| AddNewDog.MakeDogObj | src/Routes/AddNewDog/AddNewDog.js:88-117 | the appended form data is exactly that payload |
| AddNewDog.MicrochipDate | src/Routes/AddNewDog/AddNewDog.js:91-94 | an empty microchip date becomes today's date, stringified; any other value is stringified as is |
| AddNewDog.MicrochipDateDefaultsToToday | src/Routes/AddNewDog/AddNewDog.js:91-94 | an untouched microchip date is sent as today's date, a chosen one as itself |
| AddNewDog.Tagged | src/Routes/AddNewDog/AddNewDog.js:171 | every shot, in order, gets the new dog's id and nothing else changes |
| AddNewDog.TagWithDogId | src/Routes/AddNewDog/AddNewDog.js:171 | tagging in place leaves the array equal to the tagged list |
| AddNewDog.ShotInserts | src/Routes/AddNewDog/AddNewDog.js:172 | one insert request per shot, in order |
| AddNewDog.SubmittedShots | src/Routes/AddNewDog/AddNewDog.js:167-172 | a successful submit inserts one shot per slot with the new id and completion derived from the slot's date |
| AddNewDog.AddNewDogForm.constructor | src/Routes/AddNewDog/AddNewDog.js:58-82 | the form starts in the initial state with no error |
| AddNewDog.AddNewDogForm.Dispatch | src/Routes/AddNewDog/AddNewDog.js:24-52 | a dispatch replaces the state by the reducer's result |
| AddNewDog.AddNewDogForm.HandleChange | src/Routes/AddNewDog/AddNewDog.js:133-157 | a change event dispatches its routed action; an image event with no file changes nothing |
| AddNewDog.AddNewDogForm.HandleShotChange | src/Routes/AddNewDog/AddNewDog.js:159-161 | a shot picker dispatches a shot action for its label |
| AddNewDog.AddNewDogForm.HandleSubmit | src/Routes/AddNewDog/AddNewDog.js:163-178 | the create request first, and the shot inserts and the move to the dog list only after it resolved; a rejection records its message |
| ProfileSection.LoadedGender | src/Components/ProfileSection/ProfileSection.js:34-36 | "Male" checks male; every other value checks female; exactly one is checked |
| ProfileSection.PickedGender | src/Components/ProfileSection/ProfileSection.js:150-170 | a radio click checks that button and unchecks the other |
| ProfileSection.ImgName | src/Components/ProfileSection/ProfileSection.js:45-46 | the image name is the part before the first `.` of the part after the last `/` |
| ProfileSection.ImgNameSegments | src/Components/ProfileSection/ProfileSection.js:45-46 | the image name is the url's last `/` segment cut before its first `.`, holding neither character |
| ProfileSection.ImgNameOfPath | src/Components/ProfileSection/ProfileSection.js:45-46 | a url `dir/name.ext` names the image `name`, whatever the directory part holds, slashes included |
| ProfileSection.ImgNameOfUrl | src/Components/ProfileSection/ProfileSection.js:45-46 | a full url such as `https://host/img/rex.jpg` names the image `rex` |
| ProfileSection.CommitGender | src/Components/ProfileSection/ProfileSection.js:62-65 | the committed gender is always "Female" |
| ProfileSection.CommitPayload | src/Components/ProfileSection/ProfileSection.js:67-75 | every committed field comes from the draft, none from the record |
| ProfileSection.MaleDraftCommitsFemale | src/Components/ProfileSection/ProfileSection.js:61-75 | a draft with Male checked still commits "Female" |
| ProfileSection.ApplyEdit | src/Components/ProfileSection/ProfileSection.js:129-211 | each input sets its own draft field and no other, and keeps one radio checked |
| ProfileSection.Profile.constructor | src/Components/ProfileSection/ProfileSection.js:17-27 | all fields start empty, no radio checked, both flags off |
| ProfileSection.Profile.Load | src/Components/ProfileSection/ProfileSection.js:29-50 | one fetch; when it resolves every draft field, the radio state and the image name are derived from the record and the flags kept |
| ProfileSection.Profile.Derive | src/Components/ProfileSection/ProfileSection.js:32-47 | the setters after a resolved fetch: the record, each draft field, the radio state and the image name, with the flags kept |
| ProfileSection.Profile.Edit | src/Components/ProfileSection/ProfileSection.js:129-211 | an input changes its draft field and nothing else |
| ProfileSection.Profile.UpdateStatus | src/Components/ProfileSection/ProfileSection.js:83-85 | any status is taken into the draft, unguarded, with no request |
| ProfileSection.Profile.ToggleEditing | src/Components/ProfileSection/ProfileSection.js:215 | the edit and cancel icons only flip `isEditing`; no request, no refill |
| ProfileSection.Profile.TogglePhotoEditing | src/Components/ProfileSection/ProfileSection.js:122 | the photo icon flips `editingPhoto` only |
| ProfileSection.Profile.ClosePhotoModal | src/Components/ProfileSection/ProfileSection.js:113 | closing the image modal clears `editingPhoto` only |
| ProfileSection.Profile.UpdateDogInfo | src/Components/ProfileSection/ProfileSection.js:61-81 | sends the draft, refetches by the returned id, and only when both resolve replaces the record and flips `isEditing` |
| ProfileSection.Profile.UpdateDogImage | src/Components/ProfileSection/ProfileSection.js:87-106 | delete under `imgName`, upload under the tag, update with name and url, strictly in order; a rejection stops the rest; success changes only the image url and flips `editingPhoto` |
| ProfileSection.CancelKeepsStaleDraft | src/Components/ProfileSection/ProfileSection.js:257 | an edited, cancelled and reopened draft still shows the edit and sends nothing |
| DogInfo.NavButtonsFor | src/Routes/DogInfo/DogInfo.js:126-154 | Adopted and Archive are disabled exactly when the dog is adopted or archived; Delete never is |
| DogInfo.BlankRecordEnablesAll | src/Routes/DogInfo/DogInfo.js:21-22 | before the first fetch no button is disabled |
| DogInfo.RenderShot | src/Routes/DogInfo/DogInfo.js:193-209 | a shot shows a cross exactly when its flag is `false`; `true` and `null` show a tick with the date |
| DogInfo.RenderShots | src/Routes/DogInfo/DogInfo.js:192-212 | one line per shot, in list order |
| DogInfo.ShotKeysCanCollide | src/Routes/DogInfo/DogInfo.js:196-203 | a completed "x-" and a missing "x" get the same key |
| DogInfo.Swap | src/Routes/DogInfo/DogInfo.js:267-269 | one exchange of neighbours during the sort: only those two places change, and the shots stay the same |
| DogInfo.AdjacentSortedIsSorted | src/Routes/DogInfo/DogInfo.js:267-269 | shots ordered neighbour by neighbour are ordered throughout |
| DogInfo.SortByName | src/Routes/DogInfo/DogInfo.js:267-269 | the in-place sort leaves the same shots in name order |
| DogInfo.SinkInto | src/Routes/DogInfo/DogInfo.js:267-269 | one insertion step extends the ordered prefix by one and keeps the same shots |
| DogInfo.DogPage.constructor | src/Routes/DogInfo/DogInfo.js:19-27 | blank record, all flags closed, no error |
| DogInfo.DogPage.Mount | src/Routes/DogInfo/DogInfo.js:264-275 | one fetch by `props.dogId`; when it resolves the record holds its own shots in name order and the shot lines are rendered from them |
| DogInfo.DogPage.OpenModal | src/Routes/DogInfo/DogInfo.js:41-44 | sets only the named flag to true |
| DogInfo.DogPage.CloseModal | src/Routes/DogInfo/DogInfo.js:46-48 | sets only flag `str` to false |
| DogInfo.DogPage.ClickNavButton | src/Routes/DogInfo/DogInfo.js:126-154 | a disabled button changes nothing; Adopted and Archive open their modal and change nothing else; Delete deletes, and adds "/dogs-list" to the history exactly when the dog delete resolved |
| DogInfo.DogPage.HandleDelete | src/Routes/DogInfo/DogInfo.js:50-58 | the dog delete first; the notes and shots clean-ups and the move to the list only after it resolved |
| DogInfo.DogPage.HandleArchive | src/Routes/DogInfo/DogInfo.js:60-79 | archive, note, refetch, in order; a failed archive or note records "Can't archive dog." and stops; only a resolved refetch closes the modal and replaces the record |
| DogInfo.DogPage.UpdateDogImage | src/Routes/DogInfo/DogInfo.js:81-113 | delete and upload under the tag, update and refetch under the id, in order; any rejection stops the rest and records its message; success replaces the record and closes the image modal |
| DogInfo.DeleteCalls | src/Routes/DogInfo/DogInfo.js:53-55 | the clean-ups are requested exactly when the dog delete resolved |
| DogInfo.ArchiveCalls | src/Routes/DogInfo/DogInfo.js:68-71 | the note only after the archive, the refetch only after the note |
| DogInfo.ImageCalls | src/Routes/DogInfo/DogInfo.js:88-104 | each of the four image requests is made exactly when every one before it resolved |
| DogInfo.AdoptedDogCannotBeArchived | src/Routes/DogInfo/DogInfo.js:139-150 | an adopted dog's Archive click opens nothing and sends nothing |
| DogInfo.ArchiveIgnoresStatus | src/Routes/DogInfo/DogInfo.js:60-79 | called directly, the archive runs on an adopted dog too |
| DogsApiService.DogsApi.Issue | src/Routes/AddNewDog/AddNewDog.js:169-172 | a request is recorded after every earlier one, and nothing else changes |
| AdoptModal.Adoption | src/Components/AdoptModal/AdoptModal.js:29-45 | the submitted record has exactly the six fields, copied, without `contract_img` and `comment` |
| AdoptModal.UnsubmittedFieldsIgnored | src/Components/AdoptModal/AdoptModal.js:29-45 | changing the contract image or the comment never changes the submission |
| AdoptModal.SubmittedFieldReflectsInput | src/Components/AdoptModal/AdoptModal.js:20-45 | a submitted field typed last is submitted as typed |
| AdoptModal.InitialSubmission | src/Components/AdoptModal/AdoptModal.js:7-16 | the fresh form has all eight fields and submits six empty ones |
| AdoptModal.AdoptForm.constructor | src/Components/AdoptModal/AdoptModal.js:7-16 | all eight fields start as the empty string |
| AdoptModal.AdoptForm.OnChange | src/Components/AdoptModal/AdoptModal.js:20-26 | the named field takes the value; the other fields keep theirs |
| AdoptModal.AdoptForm.HandleSubmit | src/Components/AdoptModal/AdoptModal.js:28-48 | builds the six-field record and changes nothing, sends nothing |

## Left out

- Rendering (JSX, styling, icons, the modals' look) and routing. Navigation is kept only as the list of pushed paths.
- `moment` date formatting on the dog page and in the profile section: a shot line keeps the raw date string.
- `Format.stringifyDate`, `new Date(string)` and `new Date()` are parameters of the model (`stringify`, `parseDate`, `today`, `now`). They are not defined here.
- `URL.createObjectURL` and the file chosen in a file input are modelled as opaque values.
- `FormData` coercion of appended values to strings (the arrays `Object.keys(i)` and `Object.values(i)` become text). Entries keep their key and value.
- src/services/token-service.js: browser storage. The shelter id is a parameter.
- src/Components/Forms/DeleteDogForm.js: the bulk delete is not part of this model.
- The validation message under the name field (`Validate.validateName`): src/Utils/validation.js is not part of this model, and neither is the service module behind `DogsApiService`.
- Concurrency: each workflow runs to completion with the outcomes it is given. Interleaved clicks, state read by stale closures and the order in which React batches `setState` are not modelled.
- Fire-and-forget requests (`insertNewShot`, the notes and shots clean-ups) are issued, but their outcomes are not modelled, since nothing observes them.
- `console.log` calls.
- `loading` in the add-dog form. The submit button toggles it (AddNewDog.js:401), and it decides only whether the loader is drawn (AddNewDog.js:408), which is rendering.
- A record whose `profile_img` is not a string makes the profile section's load throw after its other setters ran. The model assumes a string.
- The records before the first fetch. The source's initial records are `{}` (ProfileSection.js:17) and `""` (DogInfo.js:22), whose fields read as `undefined`; the model's `Blank` record has empty-string fields. So an image swap started before the fetch resolves sends `undefined` for the tag number and the id in the source (ProfileSection.js:95, DogInfo.js:88, 101), while the model sends empty strings.
- The dog page's `error` holds the rejection object in `updateDogImage`. The model keeps its message.
- Strings.Less: compares characters as code points, not as UTF-16 code units as JavaScript does.
- DogInfo.SortByName: promises order by name and the same shots. It does not promise the particular order in which the engine's sort leaves shots of equal name.
- AdoptModal.AdoptForm.HandleSubmit: requires that every field is present, which the constructor establishes and `OnChange` preserves; an input name outside the form is not modelled beyond its map entry.

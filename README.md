# SimpleForm form state engine, in Dafny

A model of the state logic of the `SimpleForm` registration form component.
The model covers:

- the form values it holds (`formData`);
- the change handlers that edit them: the flat field change, the hobby name edit, hobby removal, hobby append and the subscribe checkbox;
- the submit-time validator, with its nine rules and fixed messages;
- the submit handler, which moves through the `isSubmitting` flag and the `error` record.

Modules:

- `FormState` (`form_state.dfy`): the form record, its mount-time defaults, and reading a top-level key.
- `FormUpdates` (`form_updates.dfy`): each handler's record update as a function. Also `WithPath`, the change handler the address inputs evidently expect (see Findings).
- `Validation` (`validation.dfy`): the error record and the rules. `Validate` is the reference definition. `CollectErrors` builds the same record the way the handler does, by successive assignments and a pass over the hobbies (`CollectHobbyErrors`). It is proved equal to `Validate`. Also the email pattern `^\S+@\S+$`, stated as a language and proved equal to the executable check.
- `SimpleFormComponent` (`simple_form.dfy`): the component as a class. Its fields `formData`, `error` and `isSubmitting` are updated in place by its handler methods. The API call's outcome is a parameter of `HandleSubmit`.
- `Session` (`session.dfy`): sequences of user actions. It proves what every session keeps and what none can reach.

Three behaviours of the code a reader might not expect; the model follows the code:

- The change handler is flat. The address inputs report the names `"address.city"` and `"address.state"`, and the handler stores those as new top-level keys (`FormData.stray`). `formData.address` is never written.
- `removeHobby` has no length guard. Only the rendering keeps the last hobby: it shows the Remove button while more than one hobby is listed. The guard is `RemoveHobby`'s precondition and part of `Session.Offered`.
- `gender` is the select's raw string. `""` means unset.

## Model

| member | source | states |
|---|---|---|
| FormState.InitialFormData | src/components/simpleForm.tsx:9-20 | The mounted values: one empty hobby, age 18, not subscribing, an empty address, and every text field empty |
| FormUpdates.WithField | src/components/simpleForm.tsx:29-39 | After a change, reading key `name` gives the new value and every other key reads as before. Address, hobbies and subscribe are untouched |
| FormUpdates.ChangeUndone | src/components/simpleForm.tsx:29-39 | Writing a declared field's old value back restores the record |
| FormUpdates.ChangeLeavesAddress | src/components/simpleForm.tsx:173-204 | The change handler never alters `address`. The name "address.city" becomes a top-level key holding the typed value |
| FormUpdates.WithHobbyName | src/components/simpleForm.tsx:41-52 | Same length; entry idx becomes the new name; every other entry and every other field unchanged |
| FormUpdates.HobbyEditUndone | src/components/simpleForm.tsx:41-52 | Writing the old hobby name back undoes an edit |
| FormUpdates.WithoutHobby | src/components/simpleForm.tsx:54-61 | Length drops by one. Entries before idx keep their place and later ones shift down by one. The multiset loses exactly the removed entry. Nothing else changes |
| FormUpdates.RemovingOnlyHobbyEmptiesList | src/components/simpleForm.tsx:54-61 | Nothing in the handler itself stops the removal of the only hobby |
| FormUpdates.WithNewHobby | src/components/simpleForm.tsx:63-68 | Length grows by one; old entries form the prefix; the new last entry has an empty name; nothing else changes |
| FormUpdates.AddThenRemoveRestores | src/components/simpleForm.tsx:54-68 | Removing the entry just appended gives back the original record |
| FormUpdates.WithSubscribe | src/components/simpleForm.tsx:245-252 | The checkbox sets `subscribe` and nothing else |
| FormUpdates.WithPath | src/components/simpleForm.tsx:173-204 | Corrected handler: "address.city" and "address.state" set the nested field and nothing else. Any other name behaves as the flat handler |
| Validation.NoErrors | src/components/simpleForm.tsx:73 | The cleared record has no keys |
| Validation.RootError | src/components/simpleForm.tsx:106-108 | The failure record holds exactly the rejection message under `root` |
| Validation.EmailPattern | src/components/simpleForm.tsx:79-80 | The email check accepts exactly the language of `^\S+@\S+$`, with JavaScript's whitespace class (both directions) |
| Validation.EmailRule | src/components/simpleForm.tsx:79-80 | The email key is "Invalid email address" exactly when the pattern fails, and absent exactly when it matches |
| Validation.SetAt | src/components/simpleForm.tsx:89-90 | Writing past the end of a JavaScript array lengthens it to idx+1 with holes. Other indices keep their entries |
| Validation.HobbyErrors | src/components/simpleForm.tsx:87-92 | Absent exactly when no hobby name is empty. Otherwise it ends at the last empty name. Index i holds the message exactly when hobby i is empty and is a hole otherwise |
| Validation.AddressErrorsOf | src/components/simpleForm.tsx:83-86 | The city key is present exactly when the city is empty, and the state key exactly when the state is empty. The entry is absent when both are filled |
| Validation.Validate | src/components/simpleForm.tsx:75-95 | The validator never sets `root` |
| Validation.CollectHobbyErrors | src/components/simpleForm.tsx:87-92 | The loop over the hobbies yields exactly the reference hobby entry |
| Validation.CollectErrors | src/components/simpleForm.tsx:75-95 | The handler's step-by-step construction, including the pass over the hobbies, yields exactly the reference record |
| Validation.ValidateEmptyIff | src/components/simpleForm.tsx:77-97 | The record is empty exactly when all of these hold: both names, gender, city and state are filled; the email matches the pattern; age is at least 18; every hobby has a name; and not (subscribing with an empty referral) |
| Validation.RulesIndependent | src/components/simpleForm.tsx:77-95 | Each key depends only on the fields its own rule reads. No rule short-circuits another |
| Validation.ReferralRule | src/components/simpleForm.tsx:94-95 | A referral error appears exactly when subscribing with an empty referral. When not subscribing, the referral text changes nothing in the record |
| Validation.FirstNameRule | src/components/simpleForm.tsx:77 | An empty first name is always reported, whatever the other fields hold |
| Validation.SampleValuesPass | src/components/simpleForm.tsx:75-97 | The fully filled example values produce an empty record |
| Validation.SampleBadEmailFails | src/components/simpleForm.tsx:79-80 | The same values with "not-an-email" produce exactly the email error |
| SimpleFormComponent.SimpleForm.constructor | src/components/simpleForm.tsx:22-27 | Mounting: default values, empty error record, not submitting |
| SimpleFormComponent.SimpleForm.HandleChange | src/components/simpleForm.tsx:29-39 | The values become `WithField` of the old ones. Errors and the flag are unchanged; stale errors stay until the next submit |
| SimpleFormComponent.SimpleForm.HandleHobbyChange | src/components/simpleForm.tsx:41-52 | The values become `WithHobbyName` of the old ones; errors and flag unchanged |
| SimpleFormComponent.SimpleForm.RemoveHobby | src/components/simpleForm.tsx:54-61 | Offered only while more than one hobby is listed. The values become `WithoutHobby` of the old ones, and the list stays non-empty |
| SimpleFormComponent.SimpleForm.AddHobby | src/components/simpleForm.tsx:63-68 | The values become `WithNewHobby` of the old ones; errors and flag unchanged |
| SimpleFormComponent.SimpleForm.HandleSubscribeChange | src/components/simpleForm.tsx:245-252 | The values become `WithSubscribe` of the old ones; errors and flag unchanged |
| SimpleFormComponent.SimpleForm.HandleSubmit | src/components/simpleForm.tsx:70-112 | If validation fails, the record is the validation result and nothing is sent. Otherwise the current values are sent: a rejection leaves exactly `{root: message}` and success leaves the record empty. The values are untouched, and `isSubmitting` ends false on every path |
| Session.Step | src/components/simpleForm.tsx:29-68 | No offered action empties a non-empty hobby list |
| Session.HobbiesNeverEmpty | src/components/simpleForm.tsx:54-61 | Every session of offered actions keeps at least one hobby |
| Session.AddressUnreached | src/components/simpleForm.tsx:29-39 | With the flat handler no session changes `address` |
| Session.NeverSubmittable | src/components/simpleForm.tsx:97-101 | From the mounted values, every session ends with both address errors. So validation always fails and the API is never called |
| Session.DottedAddressClearsErrors | src/components/simpleForm.tsx:83-86 | With the corrected handler, filling city and state removes the address entry and leaves every other key as it was |
| Session.RunStep | src/components/simpleForm.tsx:29-68 | With either handler, a session whose first action is offered runs on from the state that action produces |
| Session.DottedSessionValues | src/components/simpleForm.tsx:9-52 | With the corrected handler, the session that types given values into both names, the email, age, gender, both address boxes and the first hobby ends holding exactly those values, the rest as mounted |
| Session.DottedSessionSubmittable | src/components/simpleForm.tsx:97-104 | With the corrected handler, that session passes validation for any typed values that meet every rule, so the submit goes on to call the API |


## Findings

| source | as written | input that shows it | evidently intended | confidence | as-written member | corrected member |
|---|---|---|---|---|---|---|
| src/components/simpleForm.tsx:35-38 | The change handler stores the value under the top-level key it is given. The address inputs give "address.city" and "address.state" (:181, :196), so `formData.address` keeps its mounted value `{city: "", state: ""}` | Mount, type "NYC" and "NY" into the address boxes, fill every other input, and submit: the record holds "City is requried" and "State is requried" and the API is not called | The dotted name should address the nested field, so that filling the address boxes clears their errors and a filled form can be submitted | high (not executed) | Session.NeverSubmittable | FormUpdates.WithPath |

`Session.AddressUnreached` and `SimpleFormComponent.AddressScenario` show the as-written behaviour. `Session.DottedAddressClearsErrors` and `Session.DottedSessionSubmittable` prove the intended property for `WithPath`. `Session.Run` takes the handler as a parameter. The component class keeps the handler as written, because that is what the component does.

## Left out

- The start date and its date picker are not modelled. Its default and fallback read the wall clock (simpleForm.tsx:17, 208-213).
- The rendering is not modelled, except for the Remove-button guard (:231). That guard appears as `RemoveHobby`'s precondition and in `Session.Offered`.
- The simulated API call (src/api/api.ts) is not modelled. It uses a timer and `Math.random`. `HandleSubmit` takes the call's outcome as a parameter, `Resolved` or `Rejected(message)`. A rejection without a `message` property (stored as `undefined`) is not modelled.
- Console logging on success and failure is not modelled.
- `HandleSubmit` treats the `await` as one step. The period during which `isSubmitting` is true and the Submit button is disabled is therefore not observable in the model. React's batching of state updates is modelled as direct assignment.
- Age is an integer. The number input actually delivers a string, which `< 18` coerces. Text that is not a number is not modelled.
- Hobby edits are modelled on values. In the code, `handleHobbyChange` copies the list shallowly and writes the name into the hobby object itself (simpleForm.tsx:46-47). The first hobby object is `initialFormData.hobbies[0]` (:16) for as long as it stays in the list, so every edit of it writes into the module-level defaults, and a later mount of the component starts with the last name typed there. `FormState.InitialFormData`'s "one empty hobby" therefore holds for the first mount only. This aliasing is not captured.
- src/components/ReactHookForm.tsx and src/components/ZodValidationReactHookForm.tsx are not part of this model. Their validation, field arrays and submitting state belong to form and schema libraries whose code is not available here.
- Validation.Validate: its own contract states only that `root` is never set. What it computes is stated by the lemmas about it and by `CollectErrors`.

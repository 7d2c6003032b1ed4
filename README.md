# Contact manager form, modelled in Dafny

This project models the one piece of logic in the Midterm_COMP304 contact
manager app: the contact form of `ContactManagerScreen` and the
append-only contact list of `ContactViewModel`.

The form has six remembered state variables: `name`, `phone`, `email`,
`selectedContactType`, `phoneError` and `emailError`. Its event handlers work
as follows:

- The name and email fields take any text.
- The phone field takes a new value only if it has at most ten characters and
  all of them are digits.
- The radio group sets the type to `Friend`, `Family` or `Work`.
- The Add Contact button recomputes both error flags. It accepts exactly
  when the name is not blank, the phone has ten characters and the email
  matches the platform's address pattern. On acceptance it appends a
  `Contact` built from the current fields and clears the four inputs. On
  rejection it leaves the inputs and the list alone.

Files:

- `contact_model.dfy` (module `ContactModel`): the `Contact` record.
  Its source file is not part of this model. Its fields follow the
  constructor call and the row text in `ParmarActivity.kt`. The field
  `type` is called `contactType`, because `type` is a Dafny keyword.
- `contact_store.dfy` (module `ContactStore`): the class `ContactViewModel`
  with a `seq<Contact>` field and `AddContact`. The function `AfterAdds`
  describes any run of adds, and lemmas about it cover prefixes, order and
  duplicates.
- `contact_form.dfy` (module `ContactForm`): the form as a pure state
  machine, used as the specification. It holds the field checks, the phone
  filter, `Submit`, `Step` and `Run` over events, the screen invariant
  `Inv` and its preservation, the row text, and the snackbar notice.
- `contact_screen.dfy` (module `ContactScreen`): the class
  `ContactManagerScreen`. Its fields are the six state variables, and it
  uses a `ContactViewModel`. Each handler is a method. Each method is proved
  to perform exactly the `ContactForm.Step` of its event and to keep `Inv`.

The email pattern (`android.util.Patterns.EMAIL_ADDRESS`) is foreign to the
core. It becomes a total function `isEmail: string -> bool`, a parameter of
the pure model and a constant of the screen class.

Two behaviours of the code are worth stating:

- The phone filter (`ParmarActivity.kt:63`) judges the whole proposed text
  of the field. A paste of ten digits is taken, and a paste of eleven is
  dropped whole.
- The success notice (`ParmarActivity.kt:111-119`) is built after the fields
  are reset, so it does not show the entered name; see Findings.

## Model

| member | source | states |
|---|---|---|
| ContactStore.ContactViewModel.constructor | app/src/main/java/com/rahul/parmar/viewmodel/ContactViewModel.kt:8 | a new view model holds the empty list |
| ContactStore.ContactViewModel.AddContact | app/src/main/java/com/rahul/parmar/viewmodel/ContactViewModel.kt:10-12 | the new list is the old list followed by the contact: length grows by one, the old list is a prefix, the contact is last |
| ContactStore.AfterAddsAppends | app/src/main/java/com/rahul/parmar/viewmodel/ContactViewModel.kt:10-12 | after any run of adds, the list is the starting list followed by exactly the added contacts in insertion order |
| ContactStore.AfterAddsGrows | app/src/main/java/com/rahul/parmar/viewmodel/ContactViewModel.kt:11 | the store only grows: one entry per add, earlier entries keep their positions, and each intermediate list is a prefix of the final one |
| ContactStore.AddedInOrder | app/src/main/java/com/rahul/parmar/viewmodel/ContactViewModel.kt:10-12 | adding A and then B leaves A immediately before B at the end |
| ContactStore.DuplicatesKept | app/src/main/java/com/rahul/parmar/viewmodel/ContactViewModel.kt:7-13 | there is no duplicate check, so adding a contact twice keeps both copies |
| ContactForm.FilterPhone | app/src/main/java/com/rahul/parmar/ParmarActivity.kt:63 | the buffer becomes the proposed text exactly when that text has at most ten characters, all digits; otherwise it stays the same; a valid buffer stays valid |
| ContactForm.Submit | app/src/main/java/com/rahul/parmar/ParmarActivity.kt:103-124 | the flags become "phone length is not 10" and "email does not match"; the list grows by one exactly when the name is not blank and neither flag is set (the type plays no part); on acceptance the one appended contact has the pre-reset field values and the four inputs are empty; on rejection the list and the four inputs are unchanged |
| ContactForm.StepPreservesInv | app/src/main/java/com/rahul/parmar/ParmarActivity.kt:50-125 | every event keeps the invariant: the phone buffer passes the filter, the type is empty or a label, and every stored contact is admissible |
| ContactForm.RunPreservesInv | app/src/main/java/com/rahul/parmar/ParmarActivity.kt:50-125 | any sequence of events keeps that invariant |
| ContactForm.ReachableScreens | app/src/main/java/com/rahul/parmar/ParmarActivity.kt:63-109 | from a fresh screen, for any events: the phone never holds more than ten characters or a non-digit, the type is "" or a label, and every stored contact has a non-blank name, a ten-digit phone, a matching email and a "" or label type |
| ContactForm.RunOnlyAppends | app/src/main/java/com/rahul/parmar/ParmarActivity.kt:102-124 | no event sequence removes or changes a stored contact: the earlier list is always a prefix |
| ContactForm.EntryAdds | app/src/main/java/com/rahul/parmar/ParmarActivity.kt:102-119 | entering valid details and pressing Add appends exactly that contact and leaves an empty form with both flags cleared |
| ContactForm.EntriesKeepOrder | app/src/main/java/com/rahul/parmar/ParmarActivity.kt:107-109 | entering contact A and then contact B stores A immediately before B |
| ContactForm.AdaIsAdded | app/src/main/java/com/rahul/parmar/ParmarActivity.kt:102-119 | "Ada", "1234567890", "ada@example.com", Friend yields a store of that one contact and a cleared form |
| ContactForm.RowText | app/src/main/java/com/rahul/parmar/ParmarActivity.kt:163 | a row is as long as the four fields plus three separators of three characters |
| ContactForm.RowFields | app/src/main/java/com/rahul/parmar/ParmarActivity.kt:163 | in a row, name, phone, email and type sit at their offsets, with " - " between them |
| ContactForm.AsWrittenNoticeLosesName | app/src/main/java/com/rahul/parmar/ParmarActivity.kt:111-119 | as written, every accepted submit shows "Contact Added: " with no name |
| ContactForm.SubmitNotice | app/src/main/java/com/rahul/parmar/ParmarActivity.kt:107-123 | corrected notice: on acceptance it is "Contact Added: " followed by the name of the contact just stored; on rejection it is "Please enter valid details." |
| ContactScreen.ContactManagerScreen.constructor | app/src/main/java/com/rahul/parmar/ParmarActivity.kt:34-41 | a new composition starts with empty texts, no type and both flags false, over the given view model |
| ContactScreen.ContactManagerScreen.OnNameChange | app/src/main/java/com/rahul/parmar/ParmarActivity.kt:52 | the name becomes the new text; nothing else changes; the invariant is kept |
| ContactScreen.ContactManagerScreen.OnPhoneChange | app/src/main/java/com/rahul/parmar/ParmarActivity.kt:63 | the phone becomes the new text if the filter allows it, else it is unchanged; nothing else changes; the invariant is kept |
| ContactScreen.ContactManagerScreen.OnEmailChange | app/src/main/java/com/rahul/parmar/ParmarActivity.kt:78 | the email becomes the new text; nothing else changes; the invariant is kept |
| ContactScreen.ContactManagerScreen.OnTypeSelected | app/src/main/java/com/rahul/parmar/ParmarActivity.kt:91-96 | the selection becomes the chosen label, one of Friend, Family and Work; nothing else changes |
| ContactScreen.ContactManagerScreen.OnAddClick | app/src/main/java/com/rahul/parmar/ParmarActivity.kt:102-125 | the new state is exactly `ContactForm.Submit` of the old one: both flags are set; the store grows by one iff the guard holds; on rejection the store and the four inputs are unchanged; the returned notice is the corrected one; the invariant is kept |

## Left out

- Compose layout, styling, the `isError` highlighting, keyboard options and the rendering of `RadioButtonWithLabel` are not modelled. They hold no logic beyond the callbacks.
- The snackbars: `OnAddClick` returns the corrected notice text (the name captured before the reset) instead of launching a coroutine. Their asynchrony and queueing are not modelled.
- `android.util.Patterns.EMAIL_ADDRESS` is foreign library code. Its internals are not modelled, and it is the uninterpreted parameter `isEmail`.
- ContactForm.IsDigit: accepts only the ASCII digits `0`-`9`. Kotlin's `Char.isDigit` also accepts other Unicode decimal digits, so the model's phone filter is stricter than the source's on non-ASCII input.
- ContactForm.IsWhitespace: lists the whitespace set of `Char.isWhitespace` for current Unicode. Characters whose category changed between Unicode versions are not tracked.
- Dafny strings are sequences of Unicode scalar values, while Kotlin's `length` counts UTF-16 units. The two agree on everything the phone buffer can hold in this model.
- Android lifecycle (`onCreate`, `ViewModel` scoping, configuration changes) is not modelled. Observer notification of `mutableStateListOf` is not modelled either. A ViewModel that outlives a composition is captured only by the screen constructor's precondition: contacts already in the store passed the same guard.
- Reading the list is a plain field read here, so two reads with no add between them are trivially equal. There is no separate member for it.
- `RahulActivity.kt` is not part of this model. It is a splash screen whose only action is navigating to the form.

## Findings

| source | as written | input that shows it | evidently intended | confidence | as-written member | corrected member |
|---|---|---|---|---|---|---|
| app/src/main/java/com/rahul/parmar/ParmarActivity.kt:111-119 | the success text `"Contact Added: $name"` is built inside `scope.launch`. The launched block runs after the click handler returns, and by then the handler has reset `name` to "" | name "Ada", phone "1234567890", a matching email, then Add Contact: the snackbar reads "Contact Added: " | "Contact Added: Ada", the name of the contact just stored | medium, not executed; it rests on the coroutine being dispatched after the handler returns, which is how the composition's UI dispatcher behaves | ContactForm.AsWrittenNoticeLosesName | ContactForm.SubmitNotice |

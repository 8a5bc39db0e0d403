# Login form controller: validation, persistence and toggle, in Dafny

This project models the logic of `script.js`, the script behind a login form.
The form takes a backend project URL and an API key. The script does four things:

- On page load it pre-fills the URL field from the durable browser store (`localStorage`).
- A button toggles the key field between masked (`password`) and plain (`text`). The button's eye glyph changes with it.
- On submit it trims both fields and refuses empty ones first. It then refuses a URL that does not start with `https://`.
- An accepted submission is saved to one of two browser stores, and a status line reports the outcome. An error also shakes the card.

Where the values are saved depends on the "save locally" checkbox:

- Checked: the URL and the key go to the durable store, under `family_app_url` and `family_app_key_enc`.
- Unchecked: they go to the session store (`sessionStorage`), under `family_app_url` and `family_app_key`. The two durable entries are then removed.

The model has four modules, one per concern of the script:

- `Text` (`text.dfy`): JavaScript's `trim` and `startsWith`. Trimming is proved against a reference definition (`IsTrimOf`): the trimmed string is the unique core that neither starts nor ends with whitespace, with only whitespace cut off before and after it.
- `Validation` (`validation.dfy`): the submit checks as the function `Validate`, returning `MissingFields`, `BadScheme` or `Accepted(url, key)`.
- `Storage` (`storage.dfy`): a browser store as a class whose `items` map its methods update, the fixed keys, and the save logic as an ordered list of storage calls (`SavePlan`) with its effect (`Apply`).
- `AuthForm` (`auth_form.dfy`): the controller as a class over the form state and the two stores. Its constructor is the load step. Its methods are the toggle, `showStatus`, the save logic and the submit handler.

A browser may refuse any storage call, for example when the quota is exceeded or storage is disabled. The script cannot tell in advance which call will fail. So in the model every `setItem`/`removeItem` may fail, and a failed call changes nothing. The save stops at the first failure, as the `try` block does. The stores are then left exactly as the calls made so far leave them. The ghost result `writes` counts those calls. No atomicity is claimed: a save can stop halfway.

Two behaviours of the code are kept as written:

- The code clears the durable entries on the session path only, never the session entries on the durable path. `Storage.SaveLocallyEffect` proves the session store is left exactly as it was.
- The toggle flips `password` to `text` and every other type to `password`, so two clicks restore the state only from `password` or `text` (`AuthForm.ToggleTwiceRestores`).

## Model

| member | source | states |
|---|---|---|
| `Text.TrimStart` | script.js:41-42 | the result is a suffix of the input, everything cut off is whitespace, and it does not start with whitespace |
| `Text.TrimEnd` | script.js:41-42 | the result is a prefix of the input, everything cut off is whitespace, and it does not end with whitespace |
| `Text.Trim` | script.js:41-42 | `trim` keeps a contiguous core with only whitespace before and after it, and that core neither starts nor ends with whitespace |
| `Text.TrimUnique` | script.js:41-42 | any split of a string into whitespace, a core without surrounding whitespace, and whitespace has `Trim` as its core |
| `Text.TrimIdempotent` | script.js:41-42 | trimming an already trimmed value changes nothing |
| `Text.TrimEmptyIffBlank` | script.js:45 | a trimmed field is empty exactly when the raw field is all whitespace |
| `Text.TrimSkipsLeadingWhitespace` | script.js:41 | a whitespace character before a value does not change its trimmed form |
| `Validation.Validate` | script.js:41-53 | missing fields exactly when either raw field is blank; bad scheme exactly when both are non-blank and the trimmed URL lacks `https://`; otherwise accepted with the trimmed values, a URL starting with `https://` and a non-empty key |
| `Validation.MissingFieldsBeforeScheme` | script.js:45-53 | the first failure wins: a blank field is reported as missing and never as a bad scheme, whatever the URL |
| `Validation.AcceptedIsStable` | script.js:41-53 | resubmitting the accepted values is accepted with the same values |
| `Validation.LeadingWhitespaceIgnored` | script.js:41-53 | whitespace typed before the URL does not change the verdict |
| `Validation.PlainHttpRefused` | script.js:50-53 | an `http://` URL with a non-blank key is refused for its scheme |
| `Storage.KeyValueStore.SetItem` | script.js:69-73 | `setItem` either stores the value under the key, leaving every other entry, or is refused and changes nothing |
| `Storage.KeyValueStore.RemoveItem` | script.js:75-76 | `removeItem` either drops the key, leaving every other entry, or is refused and changes nothing |
| `Storage.SaveLocallyEffect` | script.js:68-70 | a completed durable save sets `family_app_url` to the URL and `family_app_key_enc` to the key, keeps every other durable entry, and leaves the session store exactly as it was |
| `Storage.SaveForSessionEffect` | script.js:71-77 | a completed session save sets the session `family_app_url` and `family_app_key`, removes both durable entries, and keeps every other entry of either store |
| `Storage.PartialSaveFrame` | script.js:67-88 | wherever a save stops, only the form's own keys have changed, and a durable save has not touched the session store |
| `Storage.ApplySnoc` | script.js:67-77 | running the save's calls one more step is the same as running the longer list |
| `AuthForm.ToggledType` | script.js:24 | the new type is `text` exactly when the old one was `password`, and `password` otherwise |
| `AuthForm.ToggleTwiceRestores` | script.js:23-34 | from `password` or `text`, two clicks restore both the type and the glyph |
| `AuthForm.ReloadAfterSave` | script.js:67-77 | after a completed durable save the durable store holds the accepted, non-empty URL, which the next load puts in the field; after a session save it holds no URL |
| `AuthForm.AuthFormController.constructor` | script.js:11-18 | the URL field takes the durable `family_app_url` when that entry exists and is non-empty, and keeps the page's value otherwise; the key field is never filled from storage |
| `AuthForm.AuthFormController.ToggleKey` | script.js:23-35 | the key field's type becomes the toggled type and the glyph is the one chosen by the new type alone; nothing else changes |
| `AuthForm.AuthFormController.ShowStatus` | script.js:92-105 | the status text is the message, the class is `status-message ` followed by the kind, and the card shakes once exactly when the kind is `error` |
| `AuthForm.AuthFormController.SaveCredentials` | script.js:67-77 | the stores end as the first `writes` calls of the save plan leave them, and the save reports success exactly when every call took effect |
| `AuthForm.AuthFormController.Submit` | script.js:38-90 | a refused submission shows its message as an error, shakes once and leaves both stores unchanged; an accepted one saves the trimmed values and shows success, or the storage error with one shake if a call was refused; the form fields are not changed |

## Left out

- The `savedKey` lookup on page load (script.js:13) is not modelled. Its value is never used, so it has no observable effect.
- DOM lookup, event binding and `preventDefault` are not modelled. The form's elements are plain fields of the controller. The user's typing is an assignment to those fields.
- The 1500 ms delay, the button's label and disabled state around it, and the missing re-entrancy guard are not modelled. Validation and saving run as one sequential step. The values saved are the ones read at submit time, as in the script.
- The shake animation's keyframes and 400 ms duration are not modelled. The cue is a counter of shakes.
- The icon markup is not modelled. The two glyphs are the constants `OpenEye` and `SlashedEye`.
- `console.log` and `console.error` are not modelled.
- The commented-out redirect after a successful save is not part of the script's behaviour.
- Storage failures are refusals of single calls that change nothing. The exception itself is not modelled. A `getItem` or a property access that throws (for example when storage is blocked) is not modelled either.
- The page's initial HTML is not part of this model. The initial field values, key type, glyph, checkbox and status line are a `Page` value passed to the constructor.
- `getAttribute('type')` returning null is not distinguished from other non-`password` types. Both toggle to `password`.
- `Text.IsWhitespace` is ECMAScript's WhiteSpace and LineTerminator sets, with the space separators of current Unicode. A browser built on an older Unicode table may differ.

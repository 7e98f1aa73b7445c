# ToneHone conversation store, modelled in Dafny

ToneHone is an iOS assistant for dating-app conversations. Its only logic
is an in-memory, single-writer store, `AppState`. The store holds:

- the conversations, each with its messages and a five-dimension tone profile;
- the currently selected conversation;
- a free-text context note per conversation;
- the list of reply suggestions on screen.

Suggestions come from a canned template function. The pasted context and
the tone only change each suggestion's rationale. The tone screen adds a
preview line picked from four tone values, a short description of a
profile, presets, and an "apply" action that updates the store.

The project has these modules, one per concern of the source:

- `Wrappers`: `Option`, with Swift's `??` on optionals as `OrElse`.
- `Models`: the value types of `Models.swift` as datatypes, plus the raw
  values of the two `String` enums. Datatype values never alias, so a
  conversation owns its messages, tone and person by value. Tone
  dimensions (`Double` in the source), `matchScore`, `unreadCount` and
  `healthScore` (64-bit `Int` in the source) are mathematical `int`s: the
  types carry no range bound, and no operation of the core does arithmetic
  on them that could overflow.
- `Text`: the Foundation services the store uses. These are trimming with
  `whitespacesAndNewlines`, and the decimal rendering of an `Int` in string
  interpolation. The rendering comes with its parser, a round trip, and the
  fact that labelled fields such as `P7/F3` can be read back.
- `Suggestions`: `sampleSuggestions` with its four templates, the
  ` Based on: "<context>"` suffix and the ` Tone: P../F../Fw../E../Fl...` suffix.
- `StoreSpec`: the store's fields as a `Snapshot` value. Each operation is
  a function from the state before to the state after. Lemmas state each
  operation's effect, what it leaves unchanged, and that it keeps the store
  well formed. The one exception is the `selectedConversation` setter: it
  writes a caller-supplied conversation, so it keeps ids unique for any value
  but keeps the id supply ahead only when the written messages carry ids the
  supply already handed out. Well formed means unique conversation ids, unique suggestion
  ids, and an id supply ahead of every id in use.
- `Store`: class `AppState`. Its methods update the fields in place in the
  source's order. Each method ensures `State() == StoreSpec.<Op>(old(State()), ...)`.
- `ToneConfig`: the tone screen. It holds `sampleOutput`, `describe`, the
  preset button and `applyTone`. Class `ToneEditor` stands for the view's
  `workingTone` state and calls the store's methods.

The clock is a `now: Time` parameter in whole seconds. `UUID()` is an id
supply: the store's `nextId` counter hands out every fresh id. The
`Double` tone values are the integers that `Int(...)` makes of them.

Points of the code that are easy to misread:

- `sendMessage` takes no conversation id. It always targets the selection.
- The tone hint prints `Int(value)`, which truncates toward zero; it does not
  round.
- A whitespace-only context is not empty, so it still produces a
  `Based on:` suffix.
- The `selectedConversation` setter overwrites the conversation with the new
  value's id. It does not check that this id is the selected one.
- `useSuggestion` looks up the conversation before it trims the text, and
  `sendMessage` trims first. Both orders have the same effect
  (`StoreSpec.Deliver`).

## Model

| member | source | states |
|---|---|---|
| `Models.SenderFromRawValue` | ToneHone/Models.swift:3-7 | a sender decodes exactly from the raw values "user", "other", "ai", and the decoded sender encodes back to the same raw value |
| `Models.SenderRawValueRoundTrip` | ToneHone/Models.swift:3-7 | decoding the raw value of any sender gives that sender |
| `Models.VariantFromRawValue` | ToneHone/Models.swift:31-33 | a variant decodes exactly from "safe", "bold", "playful", "question", "statement", and encodes back to it |
| `Models.VariantRawValueRoundTrip` | ToneHone/Models.swift:31-33 | decoding the raw value of any variant gives that variant |
| `Models.AllVariants` | ToneHone/Models.swift:31-33 | `allCases` lists five variants with no repeats |
| `Models.AllVariantsComplete` | ToneHone/Models.swift:31-33 | every variant is in `allCases`, so a variant is exactly one of the five cases |
| `Text.Trim` | ToneHone/AppState.swift:81 | the trimmed text is empty iff the text is all whitespace; otherwise it starts and ends with a non-whitespace character and is the slice left after removing whitespace at both ends |
| `Text.TrimIdempotent` | ToneHone/AppState.swift:81 | trimming a trimmed text changes nothing |
| `Text.IntToString` | ToneHone/AppState.swift:135 | the interpolated rendering of an integer is non-empty and made only of digits and minus signs; `IntToStringRoundTrip` gives its inverse |
| `Text.IntToStringRoundTrip` | ToneHone/AppState.swift:135 | parsing the interpolated rendering of any integer, negative ones included, gives the integer back |
| `Text.SplitAfterNumber` | ToneHone/AppState.swift:135 | a rendered integer followed by text that cannot continue a number splits in only one way |
| `Text.FieldsInjective` | ToneHone/AppState.swift:135 | labelled integer fields with separating labels determine their values and the text after them |
| `Suggestions.ContextLine` | ToneHone/AppState.swift:132 | the context suffix is empty exactly when the context is empty, so whitespace-only context still gives a suffix |
| `Suggestions.ContextLineQuotes` | ToneHone/AppState.swift:132 | a non-empty context appears verbatim between ` Based on: "` and `"`, for example ` Based on: "I love dogs"` |
| `Suggestions.ToneHint` | ToneHone/AppState.swift:133-138 | the tone suffix is empty exactly when there is no tone |
| `Suggestions.ToneHintFields` | ToneHone/AppState.swift:135 | the tone suffix is " Tone: ", the five dimensions labelled P, /F, /Fw, /E, /Fl in that order, then "." |
| `Suggestions.ToneHintInjective` | ToneHone/AppState.swift:133-138 | different tones, or a tone and no tone, give different tone suffixes |
| `Suggestions.SeedToneHint` | ToneHone/AppState.swift:135 | the tone (7,3,6,7,7) renders as ` Tone: P7/F3/Fw6/E7/Fl7.` |
| `Suggestions.SampleSuggestions` | ToneHone/AppState.swift:131-145 | exactly four suggestions with pairwise distinct, freshly issued ids |
| `Suggestions.SampleSuggestionsFixed` | ToneHone/AppState.swift:139-144 | scores are 95, 84, 90, 92, variants are question, bold, safe, playful, and texts are the fixed template texts, for any context and tone |
| `Suggestions.TemplateDeterminism` | ToneHone/AppState.swift:139-144 | two calls with any inputs agree on text, score and variant at every position |
| `Suggestions.RationaleLayout` | ToneHone/AppState.swift:132-143 | each rationale is the template rationale, then the context suffix, then the tone suffix; with no context and no tone it is the bare template rationale |
| `Suggestions.ContextRecoverable` | ToneHone/AppState.swift:132-143 | for a fixed tone, a rationale determines the context it was built from |
| `Suggestions.ToneRecoverable` | ToneHone/AppState.swift:133-143 | for a fixed context, a rationale determines the tone it was built from |
| `StoreSpec.FirstIndex` | ToneHone/AppState.swift:83 | `firstIndex(where:)`: the result holds the id and no earlier position does; no result means no position holds it |
| `StoreSpec.FirstIndexIsFirst` | ToneHone/AppState.swift:83 | the first position holding an id is exactly what the lookup returns |
| `StoreSpec.InitialFacts` | ToneHone/AppState.swift:27-56 | the seed state has one conversation with two messages (other, then user), `needsResponse` true, tone (7,3,6,7,7), last activity ten minutes before now, unread 1 and health 4. The selection is that conversation, the context map is `{id: ""}`, the suggestions are `sampleSuggestions("", tone)`, and the state is well formed |
| `StoreSpec.InitialRationales` | ToneHone/AppState.swift:48-50 | every seed rationale is its template rationale followed by ` Tone: P7/F3/Fw6/E7/Fl7.` |
| `StoreSpec.Initial` | ToneHone/AppState.swift:27-56 | the seed state is well formed and its selection resolves to a conversation; `InitialFacts` gives its contents |
| `StoreSpec.PresetsFacts` | ToneHone/AppState.swift:19-25 | the constant `Presets` (a constant, so it has no row of its own) lists the five presets from "Playful & Flirty" to "Professional & Warm" in source order: there are five with distinct names, and every dimension of every preset lies in the slider range 1...10 |
| `StoreSpec.SelectedConversation` | ToneHone/AppState.swift:58-59 | the getter returns a conversation exactly when the selection resolves, and the returned conversation is in the list and carries the selected id |
| `StoreSpec.SetSelectedConversation` | ToneHone/AppState.swift:60-65 | the setter keeps every conversation id in its place and changes no other field |
| `StoreSpec.SetSelectedConversationPreservesWellFormed` | ToneHone/AppState.swift:60-65 | the setter keeps conversation ids and suggestion ids unique for any value written, and keeps the store well formed when every message of the written value has an id the supply already handed out |
| `StoreSpec.SelectConversation` | ToneHone/AppState.swift:68-70 | selecting sets the selection to the conversation's id, changes no other field, and keeps the store well formed |
| `StoreSpec.SelectedConversationRoundTrip` | ToneHone/AppState.swift:58-66 | setting the selected conversation and reading it back gives the value written, and the conversation ids are unchanged |
| `StoreSpec.Deliver` | ToneHone/AppState.swift:80-101 | the shared body of sending: conversation ids stay in place, suggestions, selection and contexts are unchanged, and at most one id is taken from the supply; `DeliverNoOp` and `DeliverEffect` give its effect |
| `StoreSpec.SendMessage` | ToneHone/AppState.swift:80-89 | sending to the selection keeps conversation ids in place and leaves suggestions, selection and contexts unchanged |
| `StoreSpec.UseSuggestion` | ToneHone/AppState.swift:91-101 | sending a suggestion to the given id, else to the selection, keeps conversation ids in place and leaves suggestions, selection and contexts unchanged |
| `StoreSpec.DeliverNoOp` | ToneHone/AppState.swift:80-83 | sending leaves the whole state unchanged iff the trimmed text is empty or the target id is missing or matches no conversation |
| `StoreSpec.DeliverEffect` | ToneHone/AppState.swift:85-88 | otherwise, the first conversation with the target id gains exactly one user message with the trimmed text at `now`. Its `lastActivity` becomes `now` and `needsResponse` becomes false. Its other fields, all other conversations, all ids, suggestions, selection and contexts are unchanged |
| `StoreSpec.DeliverFreshMessageId` | ToneHone/AppState.swift:85 | the appended message's id differs from every message id already in the store |
| `StoreSpec.DeliverPreservesWellFormed` | ToneHone/AppState.swift:80-101 | sending keeps conversation ids unique, suggestion ids unique, and the id supply ahead of all ids |
| `StoreSpec.UseSuggestionDefaultsToSelection` | ToneHone/AppState.swift:91-92 | `useSuggestion` without an id has the same effect as `sendMessage` |
| `StoreSpec.BlankTextSendsNothing` | ToneHone/AppState.swift:80-101 | whitespace-only text leaves the state unchanged under both `sendMessage` and `useSuggestion` |
| `StoreSpec.SetContext` | ToneHone/AppState.swift:107-109 | after setting, the note reads back verbatim, and conversations, suggestions, selection and id supply are unchanged |
| `StoreSpec.Context` | ToneHone/AppState.swift:111-113 | a non-empty result is the note stored for the id; `ContextDefault` gives the `""` default |
| `StoreSpec.ContextRoundTrip` | ToneHone/AppState.swift:107-113 | after `setContext(t, id)`, `context(for: id)` is `t` verbatim. Other ids' contexts and the rest of the state are unchanged |
| `StoreSpec.ContextDefault` | ToneHone/AppState.swift:111-113 | an id that was never set reads as `""` |
| `StoreSpec.UpdateTone` | ToneHone/AppState.swift:115-118 | updating a tone keeps conversation ids in place and leaves suggestions, selection, contexts and the id supply unchanged |
| `StoreSpec.UpdateToneEffect` | ToneHone/AppState.swift:115-118 | an unknown id changes nothing. Otherwise only the tone of the first matching conversation is replaced; its message count, all ids and the rest of the state are unchanged |
| `StoreSpec.UpdateTonePreservesWellFormed` | ToneHone/AppState.swift:115-118 | updating a tone keeps the store well formed |
| `StoreSpec.RegenerateSuggestions` | ToneHone/AppState.swift:120-129 | regeneration installs exactly four suggestions with distinct ids, all freshly taken from the supply, and leaves conversations, selection and contexts unchanged |
| `StoreSpec.RegenerateEffect` | ToneHone/AppState.swift:120-129 | an unresolvable target gives `sampleSuggestions("", nil)`; otherwise the suggestions are built from the target's context and tone. Conversations, selection and contexts are unchanged in both cases |
| `StoreSpec.RegeneratePreservesWellFormed` | ToneHone/AppState.swift:120-129 | regeneration keeps the store well formed: the new suggestion ids are distinct and fresh |
| `StoreSpec.RegenerateFallbackIsBare` | ToneHone/AppState.swift:122-125 | with no selection and no conversations, every rationale is the bare template rationale |
| `StoreSpec.UsePastedContext` | ToneHone/Views/ThreadView.swift:110-111 | after the "Use" button (set context, then regenerate), the context reads back and the conversations and selection are unchanged. The suggestions are built from the pasted text and the conversation's tone, or are the bare fallback for an unknown id |
| `StoreSpec.PastedContextRationale` | ToneHone/Views/ThreadView.swift:110-111 | after the "Use" button for an existing conversation, every rationale is its template rationale, then the pasted-note suffix, then that conversation's tone suffix |
| `StoreSpec.SeedScenario` | ToneHone/Views/ThreadView.swift:110-111 | on the seed state, pasting "Just got back from Runyon!" gives rationales that end in that note's suffix and then ` Tone: P7/F3/Fw6/E7/Fl7.`. Conversations and selection are unchanged |
| `Store.AppState.constructor` | ToneHone/AppState.swift:27-56 | `init` builds the seed state and the five presets, and the store is well formed |
| `Store.AppState.SelectedConversation` | ToneHone/AppState.swift:58-59 | the getter returns a conversation from the list carrying the selected id, and returns nothing exactly when there is no selection or no conversation has that id |
| `Store.AppState.SetSelectedConversation` | ToneHone/AppState.swift:60-65 | the setter overwrites the first conversation with the new value's id, and does nothing for `nil` or an unknown id. The store stays well formed when the written messages carry ids the supply already handed out |
| `Store.AppState.SelectConversation` | ToneHone/AppState.swift:68-70 | only the selection changes, with no existence check |
| `Store.AppState.Binding` | ToneHone/AppState.swift:72-78 | a binding exists iff some conversation has the id, and it addresses a conversation with that id |
| `Store.AppState.Context` | ToneHone/AppState.swift:111-113 | a non-empty note read for an id is the one stored for it |
| `Store.AppState.SendMessage` | ToneHone/AppState.swift:80-89 | the new state is the delivery of the text to the selection (see DeliverNoOp and DeliverEffect), and the store stays well formed |
| `Store.AppState.UseSuggestion` | ToneHone/AppState.swift:91-101 | the new state is the delivery of the text to the given id, or else to the selection, and the store stays well formed |
| `Store.AppState.SetContext` | ToneHone/AppState.swift:107-109 | only the context entry for the id changes, to the text verbatim |
| `Store.AppState.UpdateTone` | ToneHone/AppState.swift:115-118 | the new state is `StoreSpec.UpdateTone` of the old one, and the store stays well formed |
| `Store.AppState.RegenerateSuggestions` | ToneHone/AppState.swift:120-129 | the new state is `StoreSpec.RegenerateSuggestions` of the old one, and the store stays well formed |
| `ToneConfig.SampleOutput` | ToneHone/Views/ToneConfigView.swift:144-159 | every tone yields one of the four preview lines |
| `ToneConfig.CasesDisjoint` | ToneHone/Views/ToneConfigView.swift:149-158 | the three ranged cases never overlap, so their order does not matter |
| `ToneConfig.SampleOutputCases` | ToneHone/Views/ToneConfigView.swift:149-158 | each line is returned iff the tone lies in its range pattern (≥7, ≥7, ≥6, ≥6; 1-3, 1-3, 1-5, 1-4; 4-6, 4-6, 4-7, 4-7), and the default iff it lies in none |
| `ToneConfig.SampleOutputIgnoresFormality` | ToneHone/Views/ToneConfigView.swift:144-148 | formality has no influence on the preview |
| `ToneConfig.PresetPreviews` | ToneHone/Views/ToneConfigView.swift:149-158 | the five presets preview as: eager, default, moderate, default, reserved |
| `ToneConfig.Describe` | ToneHone/Views/ToneConfigView.swift:97-99 | no contract of its own; `DescribeFields` states its layout and `DescribeInjective` that it loses no information |
| `ToneConfig.DescribeFields` | ToneHone/Views/ToneConfigView.swift:97-99 | the description is `P<p> F<f> Fw<fw> E<e> Fl<fl>`, space-separated, in the fixed dimension order |
| `ToneConfig.DescribeInjective` | ToneHone/Views/ToneConfigView.swift:97-99 | different profiles get different descriptions |
| `ToneConfig.AfterApplyTone` | ToneHone/Views/ToneConfigView.swift:91-95 | applying a tone keeps conversation ids in place, leaves selection and contexts unchanged, and installs four new suggestions |
| `ToneConfig.ApplyToneEffect` | ToneHone/Views/ToneConfigView.swift:91-95 | after applying, the conversation's tone is the working tone and nothing else of it changes. The suggestions are `sampleSuggestions(context(id), workingTone)`, and selection and contexts are unchanged. For an unknown id only the bare fallback suggestions change |
| `ToneConfig.ToneEditor.constructor` | ToneHone/Views/ToneConfigView.swift:9-12 | the working tone starts as the conversation's tone |
| `ToneConfig.ToneEditor.ChoosePreset` | ToneHone/Views/ToneConfigView.swift:39-40 | choosing a preset replaces the working tone wholesale with the preset's profile |
| `ToneConfig.ToneEditor.ApplyTone` | ToneHone/Views/ToneConfigView.swift:91-95 | the store's new state is `updateTone` then `regenerateSuggestions` for the edited conversation, and the store stays well formed |

## Left out

- `copySuggestion` (ToneHone/AppState.swift:103-105) writes to the system pasteboard and changes no store state. It is not modelled.
- `@Published`, Combine and `@MainActor` change notification are reactive plumbing. The model is single-threaded and each method is one atomic step.
- Store.AppState.Binding: returns only the index the binding addresses. The `get`/`set` closures are not modelled, and neither are writes through them (the thread view's tone strip, for instance).
- ToneConfig.ToneEditor.ApplyTone: does not model the write `conversation.toneProfile = workingTone` through the binding that precedes `updateTone`. Ids never change, so that write stores the same tone in the same conversation that `updateTone` then updates.
- `Date()` is a `now` parameter. `sendMessage` and `useSuggestion` call `Date()` twice, for the timestamp and for `lastActivity`; the model uses one instant for both.
- `UUID()` is a counter. So id uniqueness holds by construction, where the source relies on random UUIDs.
- `Double` tone values and the `Int(...)` truncation are not modelled: each dimension is the integer after truncation. The sliders' 1...10 range with step 1 (ToneHone/Views/ToneConfigView.swift:86) makes the two agree. The sliders themselves are UI controls and are not modelled.
- The `id` of `AppState.TonePreset` is a fresh `UUID` used only as a list identity, and is not modelled.
- All SwiftUI layout, navigation, focus handling, meters and date formatting are presentation only.

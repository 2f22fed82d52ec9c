# Booking bot dialogue, modelled in Dafny

The system is a Telegram bot for a beauty salon. It asks each chat for a language,
then (after the "Book Appointment" button) for a name, a surname and a phone number.
It then fetches up to three free slots from Calendly and offers them as inline
buttons. Pressing a button books that slot, and the bot answers with a confirmation
or a failure text. All state is one in-memory dictionary `sessions` from chat id to
a record `{lang, step, data}`, updated in place by the text webhook. The callback
webhook only reads it.

The model has six modules:

- `Wrappers` (`wrappers.dfy`): the `Option` type.
- `Texts` (`texts.dfy`): the `TEXTS` table, `str.format` for the one-placeholder
  `booked` template, the language labels and their parsing, and the menu labels
  and the guards that recognize them.
- `Telegram` (`telegram.dfy`): what one `tg_send` call sends, as a value: chat,
  text, and no markup, a reply keyboard (`tg_keyboard`) or an inline keyboard
  (`tg_inline`).
- `Payload` (`payload.dfy`): the `BOOK|event|name|phone|slot` callback data, Python's
  `str.split` on one character, and both round trips between them.
- `Dialogue` (`dialogue.dfy`): the dialogue as pure functions. `Transition` gives the
  effect of one text on its chat's record, `Callback` the effect of one button press,
  and `Run` the effect of a sequence of texts. Lemmas state each guard of the handler
  and the invariant of stored records.
- `Webhook` (`webhook.dfy`): class `Bot`, holding the `sessions` map and the outbox of
  sent messages. `HandleText` and `HandleCallback` are written as imperative guard
  chains with early returns, like the handlers. Each is proved equal to its pure
  counterpart in `Dialogue`, and both handlers keep the invariant `Valid()`.

The invariant of a stored record (`Dialogue.SessionValid`): it has a language, its
step is in 0..4, step ≥ 2 implies `name` is in `data`, step ≥ 3 implies `surname`,
and step 4 implies `phone`. No turn removes a key from `data`.

The model follows the code, not an idealised flow:

- `/start` neither resets nor touches the session.
- Choosing a language sets step 0 and keeps the answers.
- There is no "done" stage.
- The callback never changes a session and checks nothing against an earlier offer.

One aliasing fact is modelled explicitly. On the phone step the record is always the
one held in the map, because a fresh default record has step 0. Writing the phone
into it therefore changes the map even when there are no slots and the handler
returns without storing (`Dialogue.Transition` and `Webhook.Bot.HandleText` assert
this).

## Model

| member | source | states |
|---|---|---|
| `Texts.Text` | app.py:74-108 | The `TEXTS` table, entry by entry, with exact strings. Its one template, `booked`, is described by `Texts.BookedTextShowsSlot`. |
| `Texts.FormatOne` | app.py:201 | A template without `{` comes back unchanged. Filling the `{}` of a template is stated by `Texts.FormatOneFills`. |
| `Texts.BookedText` | app.py:201 | `TEXTS[lang]["booked"].format(slot)`. That the reply is the template's text around the slot is stated by `Texts.BookedTextShowsSlot`. |
| `Texts.LanguageLabel` | app.py:126-131 | The keyboard label of each language. That each label is recognized as exactly its language is stated by `Texts.ParseLanguage` and `Texts.LanguageRows`. |
| `Texts.ParseLanguage` | app.py:130-131 | The language guard accepts exactly the three labels; the result is `Some(lang)` iff the text is that language's label (`English`/`Русский`/`Oʻzbekcha` to en/ru/uz). |
| `Texts.LanguageRows` | app.py:126-131 | The `/start` keyboard has three one-button rows, and its buttons parse, in order, as en, ru and uz. |
| `Texts.AboutLabel` | app.py:136 | The About label of the menu in each language. That the About guard accepts exactly these labels is stated by `Texts.IsAboutLabel` and `Texts.MenuRowsRecognized`. |
| `Texts.BookLabel` | app.py:137 | The Book label of the menu in each language. That the Book guard accepts exactly these labels is stated by `Texts.IsBookLabel` and `Texts.MenuRowsRecognized`. |
| `Texts.IsAboutLabel` | app.py:136-145 | The About guard accepts a text iff it is the About label the menu shows in some language. |
| `Texts.IsBookLabel` | app.py:136-150 | The Book guard accepts a text iff it is the Book label the menu shows in some language. |
| `Texts.MenuRows` | app.py:136-137 | The menu keyboard for a language: the About label above the Book label. Its properties are stated by `Texts.MenuRowsRecognized`. |
| `Texts.MenuRowsRecognized` | app.py:136-150 | The menu has two one-button rows. The first button is recognized only by the About guard, the second only by the Book guard. |
| `Texts.LabelsDisjoint` | app.py:124-150 | `/start`, the language labels, the About labels and the Book labels are pairwise distinct, so each button reaches its own branch of the guard chain. |
| `Texts.FormatOneFills` | app.py:201 | Formatting `before + "{}" + after` with a value, when `before` has no `{`, gives `before + value + after`. |
| `Texts.BookedTextShowsSlot` | app.py:201 | In each language the `booked` template is some `before + "{}" + after`, and the confirmation is `before + slot + after`. |
| `Payload.Split` | app.py:198 | `str.split` gives at least one piece, and no piece contains the separator. |
| `Payload.SplitJoin` | app.py:180-198 | Splitting the join of separator-free pieces gives back exactly those pieces. |
| `Payload.JoinSplit` | app.py:198 | Joining the pieces of a split gives back the original string. |
| `Payload.SplitLength` | app.py:198 | A split has exactly one more piece than the string has separators. |
| `Payload.Encode` | app.py:180-197 | The payload of a slot button is its five fields joined by `|`, so it passes the callback's `startswith("BOOK|")` test. |
| `Payload.Decode` | app.py:197-198 | Data without the `BOOK|` prefix is not a booking. Any data decoded as a booking is the payload built from the decoded request, and no field of that request contains `|`. |
| `Payload.DecodeEncode` | app.py:180-198 | Decoding a button's payload gives exactly `(event_type, name, phone, slot)` when no field contains `|`; otherwise the five-way unpack fails (`Malformed`). |
| `Dialogue.NewSession` | app.py:121 | The default record of a chat without a session has no language (so it is never a valid stored record), step 0 and no answers. |
| `Dialogue.Current` | app.py:121 | A turn starts from the stored record when there is one. A record with a language, a step other than 0 or any answer is always the stored one. |
| `Dialogue.FirstSlots` | app.py:55-57 | The offered slots are a prefix of the service's start times, of length min(3, number of start times). |
| `Dialogue.SlotButtons` | app.py:180 | One row per slot, in slot order. Row i is one button with caption slot i and callback data `BOOK|event|name|phone|slot i`. |
| `Dialogue.Transition` | app.py:116-186 | A text turn leaves every record it saves valid and removes no answer key. A chat without a session can only gain a record with empty answers. At most one message is sent. |
| `Dialogue.StartIsTestedFirst` | app.py:124-127 | `/start`, in any state, sends the English welcome with the rows `["English"], ["Русский"], ["Oʻzbekcha"]` and leaves the session map unchanged. |
| `Dialogue.LanguageChoice` | app.py:130-138 | A language label, in any state, stores the record with that language, step 0 and the same `data`, and sends that language's menu with its About and Book labels. |
| `Dialogue.NoLanguageIgnored` | app.py:121-142 | A chat without a session that sends anything other than `/start` or a language label gets no reply, and the map is unchanged. |
| `Dialogue.AboutAnyStep` | app.py:145-147 | An About label in any language, at any step, sends only the `about` text in the session's language and changes no state. |
| `Dialogue.BookAnyStep` | app.py:150-154 | A Book label in any language, at any step, sets step 1, leaves `data` untouched and sends `ask_name`. |
| `Dialogue.NameStep` | app.py:157-162 | At step 1 a free text becomes `data["name"]`, the step becomes 2 and `ask_surname` is sent. |
| `Dialogue.SurnameStep` | app.py:165-170 | At step 2 a free text becomes `data["surname"]`, the step becomes 3 and `ask_phone` is sent. |
| `Dialogue.PhoneStep` | app.py:173-184 | At step 3 the text is stored as `data["phone"]` in every case. With no slots the step stays 3 and `fail` is sent. Otherwise the step becomes 4 and `choose_slot` is sent with at most three one-button rows, in slot order, each with payload `BOOK|event|name|phone|slot`. |
| `Dialogue.IdleSteps` | app.py:156-186 | A free text at step 0 or step 4 sends nothing and changes nothing. |
| `Dialogue.CallbackOnSlotButton` | app.py:194-203 | Pressing a slot button whose fields contain no `|` books exactly that request. The reply is the `booked` text with the slot, or `fail`, in the chat's language, which is English when the chat has no session. If a field contains `|`, nothing is booked or sent. |
| `Dialogue.CallbackLang` | app.py:194-195 | The reply language is the stored record's language, or English for a chat without a session. |
| `Dialogue.Callback` | app.py:189-204 | A callback books something iff its data decodes as a booking. The booked request re-encodes to the data and has no `|` in any field. Exactly one reply is sent, in the chat's language: the `booked` text with the slot or `fail`. Otherwise nothing is sent. |
| `Dialogue.OfferedButtonBooksItsSlot` | app.py:180-198 | Each offered button decodes to a booking of its own slot, with the offer's event type, name and phone, unless a field contains `|`. |
| `Dialogue.Run` | app.py:116-186 | Over any sequence of texts from one chat, the record stays valid, an existing record stays stored, and answer keys are never removed. At most one message is sent per text. |
| `Dialogue.AnsweringQuestions` | app.py:157-184 | From step 1, three free-text answers lead to step 4 with name, surname and phone added, and three messages, the last being the slot offer. |
| `Dialogue.BookingFromMenu` | app.py:150-184 | From the menu with no answers, Book and three free-text answers end at step 4 holding exactly those answers, after four messages, the last offering the slots. |
| `Dialogue.BookingConversation` | app.py:124-184 | A new chat that sends `/start`, a language label, Book, a name, a surname and a phone (with slots available) ends at step 4 with exactly those three answers. It receives six messages, the last offering the slots with its name and phone. |
| `Webhook.Lookup` | app.py:121 | `sessions.get`: the chat's record iff the chat has one. |
| `Webhook.Bot.constructor` | app.py:21 | The bot starts with an empty session map and nothing sent. |
| `Webhook.Bot.Send` | app.py:24-29 | Sending appends exactly one message to the outbox. |
| `Webhook.Bot.HandleText` | app.py:116-186 | The map and outbox after a text are those `Dialogue.Transition` gives. Only the sender's entry changes, an existing entry loses no answer key, and `Valid()` holds again. |
| `Webhook.Bot.HandleCallback` | app.py:189-204 | The session map is unchanged, so `Valid()` still holds. The booking request made and the outbox are those `Dialogue.Callback` gives. |

## Left out

- Flask routing, the health route and JSON parsing (app.py:111-119, 190-193) are not modelled. The chat id and the text or callback data are inputs. A missing chat id (`None` in the source) is not modelled; chat ids are integers.
- The Telegram and Calendly HTTP calls (app.py:24-29, 40-71) are left out. `tg_send` is an append to the outbox. The Calendly answers are inputs: `eventType` is the event-type string that goes into the payload, `startTimes` are the listed start times, and `booked` is the booking result. When Calendly lists no event type, the source formats `None` into the payload as the string `"None"`; a caller of the model passes that string. The booking call itself is the request `HandleCallback` returns.
- `get_calendly_slots` (app.py:49-57) builds a `params` dict that it never passes to the request. Only its `[:3]` cap is modelled (`Dialogue.FirstSlots`).
- The fake `phone@fake.com` e-mail (app.py:67) belongs to the Calendly call, which is not modelled.
- Environment loading, logging and `app.run` (app.py:8-18, 207-208) are configuration only.
- Storage durability, locking and concurrency are not modelled. The source has one in-memory dictionary and no concurrency control. Each handler call here is one atomic step.
- Keyboard flags (`resize_keyboard`, `one_time_keyboard`) and `parse_mode: HTML` are presentation only. A keyboard is modelled as its rows of labels.
- Telegram's limit on the length of callback data is a platform rule, not part of the source, and is not modelled.
- Texts.FormatOne: models `str.format` only for templates whose one replacement field is `{}`. Escaped braces and other fields are not modelled, because no template in the table has them.
- Dialogue.Transition: requires every stored record to be valid. Otherwise `session['data']['name']` at app.py:180 can raise `KeyError`, and the callback's `TEXTS[lang]` can fail for a record without a language. No sequence of handler calls produces such a record (`Webhook.Bot.HandleText` keeps `Valid()`), so these exception paths are not modelled.
- A `BOOK|` payload that does not split into exactly five fields makes the unpack at app.py:198 raise `ValueError`, and the request fails with a server error. It is modelled as a callback that books nothing and sends nothing.
- `/start` does not clear the answers, no stage follows step 4, and the callback does not check the slot against an earlier offer. The model keeps all three as the source has them; there is no reset, done stage or offer check to model.

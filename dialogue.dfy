/** The booking dialogue of one chat as values: what one inbound text or one button
    callback does to that chat's stored session and which messages it sends. */
module Dialogue {
  import opened Wrappers
  import opened Texts
  import opened Telegram
  import opened Payload

  /** A session record `{"lang": ..., "step": ..., "data": {...}}`. */
  datatype Session = Session(lang: Option<Lang>, step: int, data: map<string, string>)

  /** The record `sessions.get` falls back to for a chat without a session: it has no
      language, so it is never a valid stored record, and no answers. */
  function NewSession(): (s: Session)
    ensures !SessionValid(s)
    ensures s.step == 0 && s.data == map[]
  {
    Session(None, 0, map[])
  }

  /** The record a turn starts from: the stored one, or a fresh default. A record
      with a language or past step 0 is therefore always the stored one. */
  function Current(stored: Option<Session>): (s: Session)
    ensures stored.Some? ==> s == stored.value
    ensures s.lang.Some? || s.step != 0 || s.data != map[] ==> stored.Some?
  {
    if stored.Some? then stored.value else NewSession()
  }

  /** What every stored record satisfies: a language is chosen, the step is one of
      0..4, and each answer the step has moved past is present. */
  predicate SessionValid(s: Session)
  {
    && s.lang.Some?
    && 0 <= s.step <= 4
    && (s.step >= 2 ==> "name" in s.data)
    && (s.step >= 3 ==> "surname" in s.data)
    && (s.step == 4 ==> "phone" in s.data)
  }

  /** A text that is neither the start command nor a label of any keyboard. */
  predicate IsFreeText(text: string)
  {
    text != StartCommand && ParseLanguage(text).None? && !IsAboutLabel(text) && !IsBookLabel(text)
  }

  /** The effect of one inbound text on its chat: the record that chat's entry of the
      session map holds afterwards (None when the entry is left as it was) and the
      messages sent, in order. */
  datatype Turn = Turn(saved: Option<Session>, sent: seq<Message>)

  /** The entry of the session map after a turn. */
  function After(stored: Option<Session>, turn: Turn): Option<Session>
  {
    if turn.saved.Some? then turn.saved else stored
  }

  /** The slots the scheduling service's start times give: `collection[:3]`. */
  function FirstSlots(startTimes: seq<string>): (slots: seq<string>)
    ensures slots <= startTimes
    ensures |slots| == if |startTimes| < 3 then |startTimes| else 3
  {
    if |startTimes| <= 3 then startTimes else startTimes[..3]
  }

  /** The inline keyboard of the offer: one row per slot, in slot order, each a single
      button labelled with the slot whose callback data books that slot. */
  function SlotButtons(eventType: string, name: string, phone: string, slots: seq<string>): (rows: seq<seq<Button>>)
    ensures |rows| == |slots|
    ensures forall i :: 0 <= i < |slots| ==>
      rows[i] == [Button(slots[i], Encode(BookingRequest(eventType, name, phone, slots[i])))]
    decreases |slots|
  {
    if slots == [] then []
    else [[Button(slots[0], Encode(BookingRequest(eventType, name, phone, slots[0])))]]
         + SlotButtons(eventType, name, phone, slots[1..])
  }

  /** The dialogue's answer to the text `text` from chat `chat`, whose stored record is
      `stored`. `eventType` and `startTimes` are what the scheduling service would
      return: they are used only on the phone step. The guards are tried in the order
      of the handler: start command, language label, unset language, About label,
      Book label, then the step. */
  function Transition(stored: Option<Session>, chat: ChatId, text: string,
                      eventType: string, startTimes: seq<string>): (r: Turn)
    requires stored.Some? ==> SessionValid(stored.value)
    ensures r.saved.Some? ==> SessionValid(r.saved.value)
    ensures stored.Some? && r.saved.Some? ==> stored.value.data.Keys <= r.saved.value.data.Keys
    ensures stored.None? && r.saved.Some? ==> r.saved.value.data == map[]
    ensures |r.sent| <= 1
  {
    var session := Current(stored);
    if text == StartCommand then
      Turn(None, [Message(chat, Text(En, Welcome), Keyboard(LanguageRows()))])
    else if ParseLanguage(text).Some? then
      var lang := ParseLanguage(text).value;
      Turn(Some(session.(lang := Some(lang), step := 0)),
           [Message(chat, Text(lang, Menu), Keyboard(MenuRows(lang)))])
    else if session.lang.None? then
      Turn(None, [])
    else
      var lang := session.lang.value;
      if IsAboutLabel(text) then
        Turn(None, [Message(chat, Text(lang, About), NoMarkup)])
      else if IsBookLabel(text) then
        Turn(Some(session.(step := 1)), [Message(chat, Text(lang, AskName), NoMarkup)])
      else if session.step == 1 then
        Turn(Some(session.(data := session.data["name" := text], step := 2)),
             [Message(chat, Text(lang, AskSurname), NoMarkup)])
      else if session.step == 2 then
        Turn(Some(session.(data := session.data["surname" := text], step := 3)),
             [Message(chat, Text(lang, AskPhone), NoMarkup)])
      else if session.step == 3 then
        // A fresh default has step 0, so a step-3 record is the one held in the map:
        // writing the phone into it changes the map even when no slot is offered.
        assert stored.Some?;
        var answered := session.(data := session.data["phone" := text]);
        var slots := FirstSlots(startTimes);
        if slots == [] then
          Turn(Some(answered), [Message(chat, Text(lang, Fail), NoMarkup)])
        else
          var buttons := SlotButtons(eventType, answered.data["name"], answered.data["phone"], slots);
          Turn(Some(answered.(step := 4)), [Message(chat, Text(lang, ChooseSlot), Inline(buttons))])
      else
        Turn(None, [])
  }

  // ---------- Properties of one turn ----------

  /** `/start` is tested first: whatever the session, it sends the welcome text in
      English with the three language buttons and leaves the session map alone. */
  lemma StartIsTestedFirst(stored: Option<Session>, chat: ChatId, eventType: string, startTimes: seq<string>)
    requires stored.Some? ==> SessionValid(stored.value)
    ensures Transition(stored, chat, StartCommand, eventType, startTimes)
         == Turn(None, [Message(chat, Text(En, Welcome), Keyboard([["English"], ["Русский"], ["Oʻzbekcha"]]))])
  {
  }

  /** A language label sets that language and step 0, keeps the answers, stores the
      record and sends that language's menu, whatever the step. */
  lemma LanguageChoice(stored: Option<Session>, chat: ChatId, lang: Lang, eventType: string, startTimes: seq<string>)
    requires stored.Some? ==> SessionValid(stored.value)
    ensures Transition(stored, chat, LanguageLabel(lang), eventType, startTimes)
         == Turn(Some(Session(Some(lang), 0, Current(stored).data)),
                 [Message(chat, Text(lang, Menu), Keyboard([[AboutLabel(lang)], [BookLabel(lang)]]))])
  {
  }

  /** Without a chosen language every text but `/start` and a language label is ignored. */
  lemma NoLanguageIgnored(chat: ChatId, text: string, eventType: string, startTimes: seq<string>)
    requires text != StartCommand && ParseLanguage(text).None?
    ensures Transition(None, chat, text, eventType, startTimes) == Turn(None, [])
  {
  }

  /** An About label in any language, at any step, sends the about text in the
      session's language and changes nothing. */
  lemma AboutAnyStep(stored: Option<Session>, chat: ChatId, shown: Lang, eventType: string, startTimes: seq<string>)
    requires stored.Some? && SessionValid(stored.value)
    ensures Transition(stored, chat, AboutLabel(shown), eventType, startTimes)
         == Turn(None, [Message(chat, Text(stored.value.lang.value, About), NoMarkup)])
  {
  }

  /** A Book label in any language, at any step, restarts the questions: step 1, the
      answers untouched, and the name is asked for. */
  lemma BookAnyStep(stored: Option<Session>, chat: ChatId, shown: Lang, eventType: string, startTimes: seq<string>)
    requires stored.Some? && SessionValid(stored.value)
    ensures Transition(stored, chat, BookLabel(shown), eventType, startTimes)
         == Turn(Some(stored.value.(step := 1)),
                 [Message(chat, Text(stored.value.lang.value, AskName), NoMarkup)])
  {
  }

  /** At step 1 a free text becomes the name and the surname is asked for. */
  lemma NameStep(s: Session, chat: ChatId, text: string, eventType: string, startTimes: seq<string>)
    requires SessionValid(s) && s.step == 1 && IsFreeText(text)
    ensures Transition(Some(s), chat, text, eventType, startTimes)
         == Turn(Some(Session(s.lang, 2, s.data["name" := text])),
                 [Message(chat, Text(s.lang.value, AskSurname), NoMarkup)])
  {
  }

  /** At step 2 a free text becomes the surname and the phone is asked for. */
  lemma SurnameStep(s: Session, chat: ChatId, text: string, eventType: string, startTimes: seq<string>)
    requires SessionValid(s) && s.step == 2 && IsFreeText(text)
    ensures Transition(Some(s), chat, text, eventType, startTimes)
         == Turn(Some(Session(s.lang, 3, s.data["surname" := text])),
                 [Message(chat, Text(s.lang.value, AskPhone), NoMarkup)])
  {
  }

  /** At step 3 a free text becomes the phone. With no slot the step stays 3 (the
      phone is kept all the same) and the failure text is sent; otherwise the step
      becomes 4 and up to three slot buttons, in slot order, carry the event type,
      the name, the phone and their slot. */
  lemma PhoneStep(s: Session, chat: ChatId, text: string, eventType: string, startTimes: seq<string>)
    requires SessionValid(s) && s.step == 3 && IsFreeText(text)
    ensures var r := Transition(Some(s), chat, text, eventType, startTimes);
      var slots := FirstSlots(startTimes);
      && r.saved == Some(Session(s.lang, if slots == [] then 3 else 4, s.data["phone" := text]))
      && |r.sent| == 1 && r.sent[0].chat == chat
      && (slots == [] ==> r.sent[0] == Message(chat, Text(s.lang.value, Fail), NoMarkup))
      && (slots != [] ==>
            && r.sent[0].text == Text(s.lang.value, ChooseSlot)
            && r.sent[0].markup.Inline?
            && var rows := r.sent[0].markup.buttons;
            && |rows| == |slots| <= 3
            && forall i :: 0 <= i < |rows| ==>
                 rows[i] == [Button(startTimes[i], "BOOK|" + eventType + "|" + s.data["name"] + "|" + text + "|" + startTimes[i])])
  {
  }

  /** At step 0 or step 4 a free text changes nothing and sends nothing. */
  lemma IdleSteps(s: Session, chat: ChatId, text: string, eventType: string, startTimes: seq<string>)
    requires SessionValid(s) && (s.step == 0 || s.step == 4) && IsFreeText(text)
    ensures Transition(Some(s), chat, text, eventType, startTimes) == Turn(None, [])
  {
  }

  // ---------- The button callback ----------

  /** The effect of one button callback: the booking request made to the scheduling
      service, if any, and the messages sent. The session map is never changed. */
  datatype CallbackTurn = CallbackTurn(request: Option<BookingRequest>, sent: seq<Message>)

  /** The language of the callback reply: the stored one, or English without a session. */
  function CallbackLang(stored: Option<Session>): (lang: Lang)
    requires stored.Some? ==> stored.value.lang.Some?
    ensures stored.Some? ==> stored.value.lang == Some(lang)
    ensures stored.None? ==> lang == En
  {
    if stored.Some? then stored.value.lang.value else En
  }

  /** The reply to callback data `data` from chat `chat`; `booked` is what the
      scheduling service would answer to the booking request. A callback books
      something iff its data decodes as a booking; the request booked re-encodes to
      the data, has `|`-free fields, and gets exactly one reply in the chat's
      language, the confirmation with its slot or the failure text. Otherwise
      nothing is sent. */
  function Callback(stored: Option<Session>, chat: ChatId, data: string, booked: bool): (c: CallbackTurn)
    requires stored.Some? ==> stored.value.lang.Some?
    ensures c.request.Some? <==> Decode(data).Booking?
    ensures c.request.Some? ==>
      && Encode(c.request.value) == data && Separable(c.request.value)
      && var lang := CallbackLang(stored);
         c.sent == [Message(chat, if booked then BookedText(lang, c.request.value.slot) else Text(lang, Fail), NoMarkup)]
    ensures c.request.None? ==> c.sent == []
  {
    var lang := CallbackLang(stored);
    match Decode(data)
    case NotBooking => CallbackTurn(None, [])
    case Malformed => CallbackTurn(None, [])
    case Booking(request) =>
      var reply := if booked then BookedText(lang, request.slot) else Text(lang, Fail);
      CallbackTurn(Some(request), [Message(chat, reply, NoMarkup)])
  }

  /** Pressing a slot button books exactly what the button was built from, and the
      reply is the confirmation with that slot or the failure text, in the chat's
      language (English for a chat without a session). When a field contains `|`
      nothing is booked and nothing is sent. */
  lemma CallbackOnSlotButton(stored: Option<Session>, chat: ChatId, r: BookingRequest, booked: bool)
    requires stored.Some? ==> stored.value.lang.Some?
    ensures var lang := if stored.Some? then stored.value.lang.value else En;
      Callback(stored, chat, Encode(r), booked)
      == if Separable(r) then
           CallbackTurn(Some(r), [Message(chat, if booked then BookedText(lang, r.slot) else Text(lang, Fail), NoMarkup)])
         else CallbackTurn(None, [])
  {
    DecodeEncode(r);
  }

  /** Each button of an offer, when pressed, books its own slot with the event type,
      name and phone of the offer, provided no field contains `|`. */
  lemma OfferedButtonBooksItsSlot(eventType: string, name: string, phone: string, slots: seq<string>, i: nat)
    requires i < |slots|
    ensures var r := BookingRequest(eventType, name, phone, slots[i]);
      Decode(SlotButtons(eventType, name, phone, slots)[i][0].callbackData)
      == if Separable(r) then Booking(r) else Malformed
  {
    DecodeEncode(BookingRequest(eventType, name, phone, slots[i]));
  }

  // ---------- Conversations ----------

  /** The effect of a sequence of texts from one chat: the entry of the session map at
      the end and every message sent, in order. */
  function Run(stored: Option<Session>, chat: ChatId, texts: seq<string>,
               eventType: string, startTimes: seq<string>): (r: (Option<Session>, seq<Message>))
    requires stored.Some? ==> SessionValid(stored.value)
    ensures r.0.Some? ==> SessionValid(r.0.value)
    ensures stored.Some? ==> r.0.Some? && stored.value.data.Keys <= r.0.value.data.Keys
    ensures |r.1| <= |texts|
    decreases |texts|
  {
    if texts == [] then (stored, [])
    else
      var turn := Transition(stored, chat, texts[0], eventType, startTimes);
      var rest := Run(After(stored, turn), chat, texts[1..], eventType, startTimes);
      (rest.0, turn.sent + rest.1)
  }

  /** One more text in front of a conversation: its turn, then the rest. */
  lemma RunCons(stored: Option<Session>, chat: ChatId, text: string, texts: seq<string>,
                eventType: string, startTimes: seq<string>)
    requires stored.Some? ==> SessionValid(stored.value)
    ensures var turn := Transition(stored, chat, text, eventType, startTimes);
      var rest := Run(After(stored, turn), chat, texts, eventType, startTimes);
      Run(stored, chat, [text] + texts, eventType, startTimes) == (rest.0, turn.sent + rest.1)
  {
  }

  /** A chat at step 1 that answers the three questions ends at step 4 with the three
      answers added, after three messages of which the last offers the first slots. */
  lemma AnsweringQuestions(s: Session, chat: ChatId, name: string, surname: string, phone: string,
                           eventType: string, startTimes: seq<string>)
    requires SessionValid(s) && s.step == 1
    requires IsFreeText(name) && IsFreeText(surname) && IsFreeText(phone)
    requires startTimes != []
    ensures var r := Run(Some(s), chat, [name, surname, phone], eventType, startTimes);
      && r.0 == Some(Session(s.lang, 4, s.data["name" := name]["surname" := surname]["phone" := phone]))
      && |r.1| == 3
      && r.1[2] == Message(chat, Text(s.lang.value, ChooseSlot), Inline(SlotButtons(eventType, name, phone, FirstSlots(startTimes))))
  {
    var s3 := Session(s.lang, 2, s.data["name" := name]);
    var s4 := Session(s.lang, 3, s3.data["surname" := surname]);
    var s5 := Session(s.lang, 4, s4.data["phone" := phone]);
    var msg := Message(chat, Text(s.lang.value, ChooseSlot), Inline(SlotButtons(eventType, name, phone, FirstSlots(startTimes))));

    PhoneStep(s4, chat, phone, eventType, startTimes);
    RunCons(Some(s4), chat, phone, [], eventType, startTimes);
    var r3 := Run(Some(s4), chat, [phone], eventType, startTimes);
    assert [phone] + [] == [phone];
    assert r3.0 == Some(s5) && r3.1 == [msg];

    SurnameStep(s3, chat, surname, eventType, startTimes);
    RunCons(Some(s3), chat, surname, [phone], eventType, startTimes);
    var r2 := Run(Some(s3), chat, [surname, phone], eventType, startTimes);
    assert [surname] + [phone] == [surname, phone];
    assert r2.0 == Some(s5) && |r2.1| == 2 && r2.1[1] == msg;

    NameStep(s, chat, name, eventType, startTimes);
    RunCons(Some(s), chat, name, [surname, phone], eventType, startTimes);
    assert [name] + [surname, phone] == [name, surname, phone];
  }

  /** From the menu, pressing Book and answering the three questions ends at step 4
      holding exactly the three answers, after four messages. */
  lemma BookingFromMenu(chat: ChatId, lang: Lang, name: string, surname: string, phone: string,
                        eventType: string, startTimes: seq<string>)
    requires IsFreeText(name) && IsFreeText(surname) && IsFreeText(phone)
    requires startTimes != []
    ensures var r := Run(Some(Session(Some(lang), 0, map[])), chat, [BookLabel(lang), name, surname, phone],
                         eventType, startTimes);
      && r.0 == Some(Session(Some(lang), 4, map["name" := name, "surname" := surname, "phone" := phone]))
      && |r.1| == 4
      && r.1[3] == Message(chat, Text(lang, ChooseSlot), Inline(SlotButtons(eventType, name, phone, FirstSlots(startTimes))))
  {
    var s1 := Session(Some(lang), 0, map[]);
    var s2 := Session(Some(lang), 1, map[]);
    var answers := [name, surname, phone];
    AnsweringQuestions(s2, chat, name, surname, phone, eventType, startTimes);
    BookAnyStep(Some(s1), chat, lang, eventType, startTimes);
    RunCons(Some(s1), chat, BookLabel(lang), answers, eventType, startTimes);
    assert [BookLabel(lang)] + answers == [BookLabel(lang), name, surname, phone];
  }

  /** A new chat that sends `/start`, picks a language, presses Book and answers the
      three questions ends at step 4 holding exactly its three answers, after six
      messages of which the last offers the first slots with its name and phone. */
  lemma BookingConversation(chat: ChatId, lang: Lang, name: string, surname: string, phone: string,
                            eventType: string, startTimes: seq<string>)
    requires IsFreeText(name) && IsFreeText(surname) && IsFreeText(phone)
    requires startTimes != []
    ensures var r := Run(None, chat, [StartCommand, LanguageLabel(lang), BookLabel(lang), name, surname, phone],
                         eventType, startTimes);
      && r.0 == Some(Session(Some(lang), 4, map["name" := name, "surname" := surname, "phone" := phone]))
      && |r.1| == 6
      && r.1[5] == Message(chat, Text(lang, ChooseSlot), Inline(SlotButtons(eventType, name, phone, FirstSlots(startTimes))))
  {
    var booking := [BookLabel(lang), name, surname, phone];
    BookingFromMenu(chat, lang, name, surname, phone, eventType, startTimes);

    LanguageChoice(None, chat, lang, eventType, startTimes);
    RunCons(None, chat, LanguageLabel(lang), booking, eventType, startTimes);
    var choosing := [LanguageLabel(lang)] + booking;

    StartIsTestedFirst(None, chat, eventType, startTimes);
    RunCons(None, chat, StartCommand, choosing, eventType, startTimes);
    assert [StartCommand] + choosing == [StartCommand, LanguageLabel(lang), BookLabel(lang), name, surname, phone];
  }
}

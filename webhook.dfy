/** The two webhook handlers over the bot's in-memory state: the `sessions` dictionary,
    updated in place, and the messages sent so far. */
module Webhook {
  import opened Wrappers
  import opened Texts
  import opened Telegram
  import opened Payload
  import opened Dialogue

  /** `sessions.get(chat_id)`: the chat's record when it has one, None otherwise. */
  function Lookup(sessions: map<ChatId, Session>, chat: ChatId): (r: Option<Session>)
    ensures r.Some? <==> chat in sessions
    ensures r.Some? ==> r.value == sessions[chat]
  {
    if chat in sessions then Some(sessions[chat]) else None
  }

  class Bot {
    /** The `sessions` dictionary, keyed by chat id. */
    var sessions: map<ChatId, Session>
    /** Every `tg_send` so far, in order. */
    var outbox: seq<Message>

    /** Every stored record is valid. */
    ghost predicate Valid()
      reads this
    {
      forall c :: c in sessions ==> SessionValid(sessions[c])
    }

    /** The process starts with no session and nothing sent. */
    constructor ()
      ensures Valid()
      ensures sessions == map[] && outbox == []
    {
      sessions := map[];
      outbox := [];
    }

    /** `tg_send(chat_id, text, reply_markup)`. */
    method Send(chat: ChatId, text: string, markup: Markup)
      modifies this`outbox
      ensures outbox == old(outbox) + [Message(chat, text, markup)]
    {
      outbox := outbox + [Message(chat, text, markup)];
    }

    /** The text webhook: one inbound text `text` from chat `chat`. `eventType` and
        `startTimes` stand for the scheduling service's answers, asked for on the
        phone step only. Only `chat`'s entry of the map can change. */
    method HandleText(chat: ChatId, text: string, eventType: string, startTimes: seq<string>)
      requires Valid()
      modifies this
      ensures Valid()
      ensures var turn := Transition(Lookup(old(sessions), chat), chat, text, eventType, startTimes);
        && sessions == (if turn.saved.Some? then old(sessions)[chat := turn.saved.value] else old(sessions))
        && outbox == old(outbox) + turn.sent
      ensures forall c :: c != chat ==> Lookup(sessions, c) == Lookup(old(sessions), c)
      ensures chat in old(sessions) ==> chat in sessions && old(sessions)[chat].data.Keys <= sessions[chat].data.Keys
    {
      var stored := chat in sessions;
      var session := if stored then sessions[chat] else NewSession();

      if text == StartCommand {
        Send(chat, Text(En, Welcome), Keyboard(LanguageRows()));
        return;
      }

      var choice := ParseLanguage(text);
      if choice.Some? {
        var lang := choice.value;
        session := session.(lang := Some(lang), step := 0);
        sessions := sessions[chat := session];
        Send(chat, Text(lang, Menu), Keyboard(MenuRows(lang)));
        return;
      }

      if session.lang.None? {
        return;
      }
      var lang := session.lang.value;

      if IsAboutLabel(text) {
        Send(chat, Text(lang, About), NoMarkup);
        return;
      }

      if IsBookLabel(text) {
        session := session.(step := 1);
        Send(chat, Text(lang, AskName), NoMarkup);
        sessions := sessions[chat := session];
        return;
      }

      if session.step == 1 {
        session := session.(data := session.data["name" := text], step := 2);
        Send(chat, Text(lang, AskSurname), NoMarkup);
        sessions := sessions[chat := session];
        return;
      }

      if session.step == 2 {
        session := session.(data := session.data["surname" := text], step := 3);
        Send(chat, Text(lang, AskPhone), NoMarkup);
        sessions := sessions[chat := session];
        return;
      }

      if session.step == 3 {
        // The record is the one held in the map (a fresh default has step 0), so the
        // phone written into it is in the map at once, whatever follows.
        assert stored;
        session := session.(data := session.data["phone" := text]);
        sessions := sessions[chat := session];
        var slots := FirstSlots(startTimes);
        if slots == [] {
          Send(chat, Text(lang, Fail), NoMarkup);
          return;
        }
        var buttons := SlotButtons(eventType, session.data["name"], session.data["phone"], slots);
        Send(chat, Text(lang, ChooseSlot), Inline(buttons));
        session := session.(step := 4);
        sessions := sessions[chat := session];
        return;
      }
    }

    /** The callback webhook: chat `chat` pressed a button carrying `data`. `booked` is
        the scheduling service's answer to the booking request; `request` is that
        request, None when no booking is asked for. The sessions are never changed. */
    method HandleCallback(chat: ChatId, data: string, booked: bool) returns (request: Option<BookingRequest>)
      requires Valid()
      modifies this`outbox
      ensures Valid()
      ensures sessions == old(sessions)
      ensures var answer := Callback(Lookup(sessions, chat), chat, data, booked);
        request == answer.request && outbox == old(outbox) + answer.sent
    {
      var lang := if chat in sessions then sessions[chat].lang.value else En;
      request := None;
      if "BOOK|" <= data {
        var parts := Split(data, Separator);
        if |parts| == 5 {
          request := Some(BookingRequest(parts[1], parts[2], parts[3], parts[4]));
          if booked {
            Send(chat, BookedText(lang, parts[4]), NoMarkup);
          } else {
            Send(chat, Text(lang, Fail), NoMarkup);
          }
        }
        // Any other number of fields makes the five-way unpack raise: nothing is booked
        // and nothing is sent.
      }
    }
  }
}

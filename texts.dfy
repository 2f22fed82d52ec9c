/** The localized texts of the bot and the button labels it shows and recognizes. */
module Texts {
  import opened Wrappers

  /** The three interface languages ("en", "ru", "uz"). */
  datatype Lang = En | Ru | Uz

  /** The keys of the TEXTS table. */
  datatype Key = Welcome | Menu | About | AskName | AskSurname | AskPhone | ChooseSlot | Booked | Fail

  /** TEXTS[lang][key]. */
  function Text(lang: Lang, key: Key): string
  {
    match lang
    case En =>
      (match key
      case Welcome => "👋 Welcome! Choose your language:"
      case Menu => "Please choose:"
      case About => "ℹ️ We are Silk & Shine Beauty — making you glow ✨"
      case AskName => "What is your <b>Name</b>?"
      case AskSurname => "What is your <b>Surname</b>?"
      case AskPhone => "Please provide your <b>Phone Number</b>:"
      case ChooseSlot => "Choose a time:"
      case Booked => "✅ Your appointment is booked for {}"
      case Fail => "❌ Failed to book appointment.")
    case Ru =>
      (match key
      case Welcome => "👋 Добро пожаловать! Выберите язык:"
      case Menu => "Пожалуйста, выберите:"
      case About => "ℹ️ Мы Silk & Shine Beauty — делаем вас сияющими ✨"
      case AskName => "Введите ваше <b>Имя</b>:"
      case AskSurname => "Введите вашу <b>Фамилию</b>:"
      case AskPhone => "Введите ваш <b>Номер телефона</b>:"
      case ChooseSlot => "Выберите время:"
      case Booked => "✅ Ваша запись подтверждена на {}"
      case Fail => "❌ Не удалось забронировать запись.")
    case Uz =>
      (match key
      case Welcome => "👋 Xush kelibsiz! Tilni tanlang:"
      case Menu => "Iltimos, tanlang:"
      case About => "ℹ️ Biz Silk & Shine Beauty — sizni yanada goʻzal qilamiz ✨"
      case AskName => "Ismingizni kiriting:"
      case AskSurname => "Familiyangizni kiriting:"
      case AskPhone => "Telefon raqamingizni kiriting:"
      case ChooseSlot => "Vaqtni tanlang:"
      case Booked => "✅ Sizning uchrashuvingiz {} ga belgilandi"
      case Fail => "❌ Uchrashuvni bron qilishda xatolik yuz berdi.")
  }

  /** `template.format(value)` for a template whose only braces are one `{}`:
      the first `{}` is replaced by `value`. */
  function FormatOne(template: string, value: string): (r: string)
    ensures '{' !in template ==> r == template
  {
    FormatFrom(template, 0, value)
  }

  /** Scans `template` from index `i` for the placeholder `{}`. */
  function FormatFrom(template: string, i: nat, value: string): (r: string)
    ensures (forall j :: i <= j < |template| ==> template[j] != '{') ==> r == template
    decreases |template| - i
  {
    if i + 1 >= |template| then template
    else if template[i] == '{' && template[i + 1] == '}' then template[..i] + value + template[i + 2..]
    else FormatFrom(template, i + 1, value)
  }

  /** When the first `{` at or after `i` opens a placeholder at `k`, the scan fills that placeholder. */
  lemma {:induction false} FormatFromFills(template: string, i: nat, k: nat, value: string)
    requires i <= k && k + 1 < |template| && template[k] == '{' && template[k + 1] == '}'
    requires forall j :: i <= j < k ==> template[j] != '{'
    ensures FormatFrom(template, i, value) == template[..k] + value + template[k + 2..]
    decreases k - i
  {
    if i < k {
      FormatFromFills(template, i + 1, k, value);
    }
  }

  /** Formatting a template `before + "{}" + after` puts the value in place of the placeholder. */
  lemma FormatOneFills(before: string, after: string, value: string)
    requires '{' !in before
    ensures FormatOne(before + "{}" + after, value) == before + value + after
  {
    var t := before + "{}" + after;
    var k := |before|;
    assert t[..k] == before && t[k + 2..] == after;
    FormatFromFills(t, 0, k, value);
  }

  /** The text of the booking confirmation: the `booked` template with the slot in place of `{}`. */
  function BookedText(lang: Lang, slot: string): string
  {
    FormatOne(Text(lang, Booked), slot)
  }

  /** In every language the confirmation is the template's text around the chosen slot,
      so the slot appears verbatim in the reply. */
  lemma BookedTextShowsSlot(lang: Lang, slot: string)
    ensures exists before, after ::
      Text(lang, Booked) == before + "{}" + after && '{' !in before &&
      BookedText(lang, slot) == before + slot + after
  {
    var before, after := BookedTextSplit(lang);
    BookedTextAround(lang, before, after, slot);
  }

  /** The text around the placeholder of the `booked` template. */
  lemma BookedTextSplit(lang: Lang) returns (before: string, after: string)
    ensures Text(lang, Booked) == before + "{}" + after && '{' !in before
  {
    match lang {
      case En => before, after := "✅ Your appointment is booked for ", "";
      case Ru => before, after := "✅ Ваша запись подтверждена на ", "";
      case Uz => before, after := "✅ Sizning uchrashuvingiz ", " ga belgilandi";
    }
  }

  lemma BookedTextAround(lang: Lang, before: string, after: string, slot: string)
    requires Text(lang, Booked) == before + "{}" + after && '{' !in before
    ensures BookedText(lang, slot) == before + slot + after
  {
    FormatOneFills(before, after, slot);
  }

  // ---------- Language choice ----------

  /** The three labels of the language keyboard, in keyboard order. */
  function LanguageLabel(lang: Lang): string
  {
    match lang
    case En => "English"
    case Ru => "Русский"
    case Uz => "Oʻzbekcha"
  }

  /** The guard `text in ["English", "Русский", "Oʻzbekcha"]` together with the
      conditional that maps the label to its language. */
  function ParseLanguage(text: string): (r: Option<Lang>)
    ensures forall lang :: r == Some(lang) <==> text == LanguageLabel(lang)
  {
    if text == "English" then Some(En)
    else if text == "Русский" then Some(Ru)
    else if text == "Oʻzbekcha" then Some(Uz)
    else None
  }

  /** The rows of the language keyboard sent on `/start`: three one-button rows whose
      buttons are recognized, in order, as en, ru and uz. */
  function LanguageRows(): (rows: seq<seq<string>>)
    ensures |rows| == 3
    ensures forall i :: 0 <= i < |rows| ==> |rows[i]| == 1
    ensures ParseLanguage(rows[0][0]) == Some(En)
    ensures ParseLanguage(rows[1][0]) == Some(Ru)
    ensures ParseLanguage(rows[2][0]) == Some(Uz)
  {
    [["English"], ["Русский"], ["Oʻzbekcha"]]
  }

  // ---------- Main menu ----------

  /** The "About Us" label of the menu in the given language. */
  function AboutLabel(lang: Lang): string
  {
    match lang
    case En => "📖 About Us"
    case Ru => "📖 О нас"
    case Uz => "📖 Biz haqimizda"
  }

  /** The "Book Appointment" label of the menu in the given language. */
  function BookLabel(lang: Lang): string
  {
    match lang
    case En => "📅 Book Appointment"
    case Ru => "📅 Записаться"
    case Uz => "📅 Uchrashuvni bron qilish"
  }

  /** The guard `text in ["📖 About Us", "📖 О нас", "📖 Biz haqimizda"]`: it accepts
      exactly the About labels the menus show. */
  predicate IsAboutLabel(text: string)
    ensures IsAboutLabel(text) <==> exists lang :: text == AboutLabel(lang)
  {
    var accepted := ["📖 About Us", "📖 О нас", "📖 Biz haqimizda"];
    assert accepted == [AboutLabel(En), AboutLabel(Ru), AboutLabel(Uz)];
    text in accepted
  }

  /** The guard `text in ["📅 Book Appointment", "📅 Записаться", "📅 Uchrashuvni bron qilish"]`:
      it accepts exactly the Book labels the menus show. */
  predicate IsBookLabel(text: string)
    ensures IsBookLabel(text) <==> exists lang :: text == BookLabel(lang)
  {
    var accepted := ["📅 Book Appointment", "📅 Записаться", "📅 Uchrashuvni bron qilish"];
    assert accepted == [BookLabel(En), BookLabel(Ru), BookLabel(Uz)];
    text in accepted
  }

  /** The rows of the main menu for a language: the About label above the Book label. */
  function MenuRows(lang: Lang): seq<seq<string>>
  {
    [[AboutLabel(lang)], [BookLabel(lang)]]
  }

  /** The menu has two one-button rows; the first button is recognized only by the
      About guard and the second only by the Book guard. */
  lemma MenuRowsRecognized(lang: Lang)
    ensures var rows := MenuRows(lang);
      && |rows| == 2 && |rows[0]| == 1 && |rows[1]| == 1
      && IsAboutLabel(rows[0][0]) && !IsBookLabel(rows[0][0])
      && IsBookLabel(rows[1][0]) && !IsAboutLabel(rows[1][0])
  {
  }

  /** The command that opens the language keyboard. */
  const StartCommand: string := "/start"

  /** The four kinds of command text are pairwise distinct, so each button of the bot
      reaches the branch meant for it whatever the order of the guards. */
  lemma LabelsDisjoint(text: string)
    ensures text == StartCommand ==> ParseLanguage(text).None? && !IsAboutLabel(text) && !IsBookLabel(text)
    ensures ParseLanguage(text).Some? ==> !IsAboutLabel(text) && !IsBookLabel(text)
    ensures IsAboutLabel(text) ==> !IsBookLabel(text)
  {
  }
}

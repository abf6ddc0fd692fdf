/** The vocabulary of the sales funnel in index.js: chat ids, the inline
    keyboards the bot attaches to its messages, the funnel steps (the
    `etapa_*` functions) and the three remarketing nudges. Captions and
    button labels are free text in the bot and are kept opaque here: only
    which caption a message carries, and which callback or link each button
    carries, matter to the behaviour being modelled. */
module Funnel {

  /** A Telegram chat id: the key of every per-conversation record. */
  type ChatId = int

  /** A payment link taken from the environment (M20, M45, M80). */
  type Link = string

  // The `callback_data` strings carried by the bot's inline buttons.
  const AgeOk: string := "idade_ok"
  const OpenDesire: string := "abrir_desejo"
  const ShowPrices: string := "mostrar_valores"
  const Pack20: string := "pack20"
  const Pack45: string := "pack45"
  const Pack80: string := "pack80"
  const Verify: string := "verificar"

  /** The configured payment links of the three packs. */
  datatype Links = Links(m20: Link, m45: Link, m80: Link)

  /** The remarketing nudges, named after their idle threshold in minutes. */
  datatype Stage = Stage5 | Stage15 | Stage60

  /** Position of a stage in the order the sweep tests them. */
  function Rank(s: Stage): nat
  {
    match s
    case Stage5 => 0
    case Stage15 => 1
    case Stage60 => 2
  }

  /** The funnel steps: welcome/age gate, story, desire, price menu,
      payment link and payment check. */
  datatype Step = Welcome | Story | Desire | Prices | Payment(link: Link) | Verification

  /** Which (opaque) caption text a message carries. */
  datatype Caption =
    | WelcomeText | StoryText | DesireText | PricesText | PaymentText | VerificationText
    | NudgeText(stage: Stage)

  /** An inline button either posts a callback back to the bot or opens a link. */
  datatype Button = CallbackButton(data: string) | UrlButton(url: Link)

  /** An inline keyboard, as rows of buttons. */
  type Keyboard = seq<seq<Button>>

  /** One `sendMedia` call: chat, caption and inline keyboard. */
  datatype Message = Media(chat: ChatId, caption: Caption, keyboard: Keyboard)

  function StepCaption(s: Step): Caption
  {
    match s
    case Welcome => WelcomeText
    case Story => StoryText
    case Desire => DesireText
    case Prices => PricesText
    case Payment(_) => PaymentText
    case Verification => VerificationText
  }

  /** The keyboard each step attaches; the payment check sends none. */
  function StepKeyboard(s: Step): Keyboard
  {
    match s
    case Welcome => [[CallbackButton(AgeOk)]]
    case Story => [[CallbackButton(OpenDesire)]]
    case Desire => [[CallbackButton(ShowPrices)]]
    case Prices => [[CallbackButton(Pack20)], [CallbackButton(Pack45)], [CallbackButton(Pack80)]]
    case Payment(link) => [[UrlButton(link)], [CallbackButton(Verify)]]
    case Verification => []
  }

  /** Every nudge offers the price menu again. */
  function NudgeKeyboard(): Keyboard
  {
    [[CallbackButton(ShowPrices)]]
  }

  function StepMessage(chat: ChatId, s: Step): Message
  {
    Media(chat, StepCaption(s), StepKeyboard(s))
  }

  function NudgeMessage(chat: ChatId, s: Stage): Message
  {
    Media(chat, NudgeText(s), NudgeKeyboard())
  }

  /** The messages of `out` addressed to `chat`, in order. */
  function ToChat(out: seq<Message>, chat: ChatId): seq<Message>
  {
    if out == [] then []
    else (if out[0].chat == chat then [out[0]] else []) + ToChat(out[1..], chat)
  }

  /** Filtering by chat distributes over concatenation. */
  lemma {:induction false} ToChatConcat(a: seq<Message>, b: seq<Message>, chat: ChatId)
    ensures ToChat(a + b, chat) == ToChat(a, chat) + ToChat(b, chat)
    decreases |a|
  {
    if a != [] {
      assert (a + b)[0] == a[0];
      assert (a + b)[1..] == a[1..] + b;
      ToChatConcat(a[1..], b, chat);
      var head := if a[0].chat == chat then [a[0]] else [];
      assert ToChat(a + b, chat) == head + (ToChat(a[1..], chat) + ToChat(b, chat));
      assert head + (ToChat(a[1..], chat) + ToChat(b, chat)) == (head + ToChat(a[1..], chat)) + ToChat(b, chat);
    } else {
      assert a + b == b;
    }
  }

  /** Filtering by chat keeps every copy of a message addressed to that chat. */
  lemma {:induction false} ToChatKeepsCount(out: seq<Message>, m: Message)
    ensures multiset(ToChat(out, m.chat))[m] == multiset(out)[m]
    decreases |out|
  {
    if out != [] {
      assert out == [out[0]] + out[1..];
      ToChatKeepsCount(out[1..], m);
    }
  }
}

/** The Telegram webhook handler of index.js: an inbound update is mapped to
    the funnel step to send next, and the price menu (re)starts the chat's
    remarketing record. The HTTP acknowledgement is sent before any of this
    and does not depend on it. */
module Webhook {
  import opened Wrappers
  import opened Funnel
  import opened Remarketing

  /** A button press: the chat of the message the button was attached to
      (absent for inline-mode messages) and its `callback_data`. */
  datatype CallbackQuery = CallbackQuery(origin: Option<ChatId>, data: string)

  /** The parts of a Telegram update the handler reads: the chat of a
      `message`, and a `callback_query`. */
  datatype Update = Update(message: Option<ChatId>, callback: Option<CallbackQuery>)

  /** The step sent in reply, and to whom. */
  datatype Reply = Reply(chat: ChatId, step: Step)

  datatype Handled = Handled(reply: Option<Reply>, leads: Leads)

  /** The callback identifiers the handler answers. */
  predicate Recognized(data: string)
  {
    data in {AgeOk, OpenDesire, ShowPrices, Pack20, Pack45, Pack80, Verify}
  }

  /** The chain of `callback_data` comparisons. */
  function Route(data: string, links: Links): (r: Option<Step>)
    // a step is chosen exactly for the recognised identifiers
    ensures r.Some? <==> Recognized(data)
    // the welcome step is never reached by a button
    ensures r != Some(Welcome)
    // only `mostrar_valores` opens the price menu
    ensures r == Some(Prices) <==> data == ShowPrices
    // a payment step always carries one of the configured links
    ensures r.Some? && r.value.Payment? ==> r.value.link in {links.m20, links.m45, links.m80}
  {
    if data == AgeOk then Some(Story)
    else if data == OpenDesire then Some(Desire)
    else if data == ShowPrices then Some(Prices)
    else if data == Pack20 then Some(Payment(links.m20))
    else if data == Pack45 then Some(Payment(links.m45))
    else if data == Pack80 then Some(Payment(links.m80))
    else if data == Verify then Some(Verification)
    else None
  }

  /** One webhook call. A callback without an originating message makes the
      source's `callback.message.chat.id` throw; the handler then stops with
      no reply and nothing changed. */
  function Dispatch(u: Update, now: int, links: Links, leads: Leads): (h: Handled)
    // any message, with or without a callback, is answered with the welcome step
    ensures u.message.Some? ==> h == Handled(Some(Reply(u.message.value, Welcome)), leads)
    // otherwise a reply goes out exactly for a recognised button of a known chat
    ensures u.message.None? ==>
              (h.reply.Some? <==> u.callback.Some? && u.callback.value.origin.Some? && Recognized(u.callback.value.data))
    // ... to that chat, with the step the button names
    ensures u.message.None? && h.reply.Some? ==>
              && h.reply.value.chat == u.callback.value.origin.value
              && Some(h.reply.value.step) == Route(u.callback.value.data, links)
    // the price menu restarts the chat's lead record from scratch
    ensures h.reply.Some? && h.reply.value.step == Prices ==>
              h.leads == leads[h.reply.value.chat := Fresh(now)]
    // no other update touches the remarketing map
    ensures !(h.reply.Some? && h.reply.value.step == Prices) ==> h.leads == leads
  {
    if u.message.Some? then Handled(Some(Reply(u.message.value, Welcome)), leads)
    else if u.callback.None? then Handled(None, leads)
    else
      var cb := u.callback.value;
      if cb.origin.None? then Handled(None, leads)
      else
        var chat := cb.origin.value;
        match Route(cb.data, links)
        case None => Handled(None, leads)
        case Some(step) =>
          var leads' := if step == Prices then leads[chat := Fresh(now)] else leads;
          Handled(Some(Reply(chat, step)), leads')
  }

  /** The message a handled update sends, if any. */
  function ReplyMessage(h: Handled): seq<Message>
  {
    if h.reply.Some? then [StepMessage(h.reply.value.chat, h.reply.value.step)] else []
  }

  /** Every button the bot puts on screen that posts a callback names a
      recognised identifier. */
  ghost predicate Closed(k: Keyboard)
  {
    forall i, j :: 0 <= i < |k| && 0 <= j < |k[i]| && k[i][j].CallbackButton? ==> Recognized(k[i][j].data)
  }

  /** Funnel closure: no button of any step or nudge leads nowhere. */
  lemma FunnelClosed(s: Step)
    ensures Closed(StepKeyboard(s))
    ensures Closed(NudgeKeyboard())
  {
  }

  /** Each step's callback button leads to the next step of the funnel, the
      three packs to the payment step with their own link, and every nudge
      back to the price menu. */
  lemma FunnelAdvances(links: Links, link: Link)
    ensures Route(StepKeyboard(Welcome)[0][0].data, links) == Some(Story)
    ensures Route(StepKeyboard(Story)[0][0].data, links) == Some(Desire)
    ensures Route(StepKeyboard(Desire)[0][0].data, links) == Some(Prices)
    ensures Route(StepKeyboard(Prices)[0][0].data, links) == Some(Payment(links.m20))
    ensures Route(StepKeyboard(Prices)[1][0].data, links) == Some(Payment(links.m45))
    ensures Route(StepKeyboard(Prices)[2][0].data, links) == Some(Payment(links.m80))
    ensures StepKeyboard(Payment(link))[0][0] == UrlButton(link)
    ensures Route(StepKeyboard(Payment(link))[1][0].data, links) == Some(Verification)
    ensures Route(NudgeKeyboard()[0][0].data, links) == Some(Prices)
  {
  }
}

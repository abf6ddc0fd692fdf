/** The bot as a whole: ticks of the `setInterval` sweep and webhook calls
    arrive one at a time (each handler runs to completion on the event loop
    before the next starts), over one shared remarketing map and one outbox
    of sent messages. */
module Session {
  import opened Wrappers
  import opened Funnel
  import opened Remarketing
  import opened Webhook

  /** `a` is `b` with some elements left out, the rest in their order. */
  predicate Subsequence(a: seq<ChatId>, b: seq<ChatId>)
    decreases |b|
  {
    if a == [] then true
    else if b == [] then false
    else (a[0] == b[0] && Subsequence(a[1..], b[1..])) || Subsequence(a, b[1..])
  }

  /** The keys of `order` still present in `leads`, in the same order. */
  function Keep(order: seq<ChatId>, leads: Leads): (kept: seq<ChatId>)
    ensures forall c :: c in kept <==> c in order && c in leads
    ensures Subsequence(kept, order)
    ensures Distinct(order) ==> Distinct(kept)
    decreases |order|
  {
    if order == [] then []
    else
      var head := if order[0] in leads then [order[0]] else [];
      var tail := order[1..];
      assert forall c :: c in order <==> c == order[0] || c in tail;
      assert Distinct(order) ==> order[0] !in tail && Distinct(tail) by {
        if Distinct(order) {
          forall i, j | 0 <= i < j < |tail| ensures tail[i] != tail[j] {
            assert tail[i] == order[i + 1] && tail[j] == order[j + 1];
          }
        }
      }
      var rest := Keep(tail, leads);
      assert head == [] ==> head + rest == rest;
      assert head != [] ==> (head + rest)[0] == order[0] && (head + rest)[1..] == rest;
      head + rest
  }

  datatype Event = Tick(now: int) | Inbound(now: int, update: Update)

  /** The remarketing map with its key order (the order `Object.keys` reports
      for keys that are not array indices: insertion order, an overwrite
      keeping its place), and every message sent so far. */
  datatype State = State(leads: Leads, order: seq<ChatId>, outbox: seq<Message>)

  predicate Tracked(st: State)
  {
    Enumerates(st.order, st.leads)
  }

  const Initial: State := State(map[], [], [])

  /** One event, run to completion. Messages are only ever appended and the
      key order keeps listing exactly the tracked chats. */
  function Apply(links: Links, st: State, e: Event): (st': State)
    requires Tracked(st)
    ensures Tracked(st')
    ensures st.outbox <= st'.outbox
  {
    match e
    case Tick(now) =>
      var r := Sweep(now, st.leads, st.order);
      State(r.leads, Keep(st.order, r.leads), st.outbox + r.outbox)
    case Inbound(now, u) =>
      var h := Dispatch(u, now, links, st.leads);
      var order :=
        if h.reply.Some? && h.reply.value.step == Prices && h.reply.value.chat !in st.leads
        then st.order + [h.reply.value.chat] else st.order;
      assert forall c :: c in order <==> c in st.order || (order != st.order && c == h.reply.value.chat);
      State(h.leads, order, st.outbox + ReplyMessage(h))
  }

  /** A sequence of events, in arrival order. */
  function Run(links: Links, st: State, events: seq<Event>): (st': State)
    requires Tracked(st)
    ensures Tracked(st')
    ensures st.outbox <= st'.outbox
    decreases |events|
  {
    if events == [] then st else Run(links, Apply(links, st, events[0]), events[1..])
  }

  lemma ApplyKeepsWf(links: Links, st: State, e: Event)
    requires Tracked(st)
    requires Wf(st.leads)
    ensures Wf(Apply(links, st, e).leads)
  {
    if e.Tick? {
      SweepKeepsWf(e.now, st.leads, st.order);
    }
  }

  /** Starting from a well-formed map (the empty one included), every
      reachable map has `sent60` unset and stage 5 marked whenever stage 15 is. */
  lemma {:induction false} RunKeepsWf(links: Links, st: State, events: seq<Event>)
    requires Tracked(st)
    requires Wf(st.leads)
    ensures Wf(Run(links, st, events).leads)
    decreases |events|
  {
    if events != [] {
      ApplyKeepsWf(links, st, events[0]);
      RunKeepsWf(links, Apply(links, st, events[0]), events[1..]);
    }
  }

  /** A button press from chat `c`. */
  function Press(c: ChatId, data: string): Update
  {
    Update(None, Some(CallbackQuery(Some(c), data)))
  }

  /** Whether an event restarts chat `c`'s remarketing cycle. */
  predicate Reenters(e: Event, c: ChatId)
  {
    e.Inbound? && e.update.message.None? && e.update.callback.Some?
    && e.update.callback.value.origin == Some(c) && e.update.callback.value.data == ShowPrices
  }

  /** How many times the stage-`s` nudge for chat `c` appears in an outbox. */
  function Sends(out: seq<Message>, c: ChatId, s: Stage): nat
  {
    multiset(out)[NudgeMessage(c, s)]
  }

  /** How many more stage-`s` nudges chat `c`'s current record can still yield. */
  function Budget(leads: Leads, c: ChatId, s: Stage): nat
  {
    if c in leads && !Sent(leads[c], s) then 1 else 0
  }

  /** An event that does not restart `c`'s cycle spends `c`'s budget: every
      nudge it sends to `c` is paid for by a flag set or a record deleted. */
  lemma ApplySpendsBudget(links: Links, st: State, e: Event, c: ChatId, s: Stage)
    requires Tracked(st)
    requires !Reenters(e, c)
    ensures Sends(Apply(links, st, e).outbox, c, s) + Budget(Apply(links, st, e).leads, c, s)
            <= Sends(st.outbox, c, s) + Budget(st.leads, c, s)
  {
    match e
    case Tick(now) =>
      var keys := st.order;
      var r := Sweep(now, st.leads, keys);
      assert multiset(st.outbox + r.outbox) == multiset(st.outbox) + multiset(r.outbox);
      SweepSendsOnce(now, st.leads, keys, c, s);
      if c in st.leads {
        SweepLeadSpec(now, st.leads[c]);
      }
    case Inbound(now, u) =>
      var h := Dispatch(u, now, links, st.leads);
      assert multiset(st.outbox + ReplyMessage(h)) == multiset(st.outbox) + multiset(ReplyMessage(h));
      if h.reply.Some? {
        assert ReplyMessage(h)[0] != NudgeMessage(c, s);
      }
  }

  /** At most once per stage: over any run in which chat `c` does not press
      "show prices" again, `c` receives each nudge at most as often as its
      current record still allows, that is at most once, and never one whose
      flag is already set. */
  lemma {:induction false} NudgeAtMostOnce(links: Links, st: State, events: seq<Event>, c: ChatId, s: Stage)
    requires Tracked(st)
    requires forall i :: 0 <= i < |events| ==> !Reenters(events[i], c)
    ensures Sends(Run(links, st, events).outbox, c, s) + Budget(Run(links, st, events).leads, c, s)
            <= Sends(st.outbox, c, s) + Budget(st.leads, c, s)
    decreases |events|
  {
    if events != [] {
      ApplySpendsBudget(links, st, events[0], c, s);
      NudgeAtMostOnce(links, Apply(links, st, events[0]), events[1..], c, s);
    }
  }

  /** How many events of a run restart chat `c`'s remarketing cycle. */
  function Entries(events: seq<Event>, c: ChatId): nat
  {
    if events == [] then 0 else (if Reenters(events[0], c) then 1 else 0) + Entries(events[1..], c)
  }

  /** Restarting the cycle answers with the price menu only, sends no nudge,
      and refills the budget to one. */
  lemma ReentryRefillsBudget(links: Links, st: State, e: Event, c: ChatId, s: Stage)
    requires Tracked(st)
    requires Reenters(e, c)
    ensures Apply(links, st, e).outbox == st.outbox + [StepMessage(c, Prices)]
    ensures Apply(links, st, e).leads == st.leads[c := Fresh(e.now)]
    ensures Budget(Apply(links, st, e).leads, c, s) == 1
    ensures Sends(Apply(links, st, e).outbox, c, s) + Budget(Apply(links, st, e).leads, c, s)
            <= Sends(st.outbox, c, s) + 1
  {
  }

  /** Over any run, chat `c` receives each nudge at most once per time it
      (re)opened the price menu, on top of what its starting record allowed. */
  lemma {:induction false} NudgesPerEntry(links: Links, st: State, events: seq<Event>, c: ChatId, s: Stage)
    requires Tracked(st)
    ensures Sends(Run(links, st, events).outbox, c, s) + Budget(Run(links, st, events).leads, c, s)
            <= Sends(st.outbox, c, s) + Budget(st.leads, c, s) + Entries(events, c)
    decreases |events|
  {
    if events != [] {
      if Reenters(events[0], c) {
        ReentryRefillsBudget(links, st, events[0], c, s);
      } else {
        ApplySpendsBudget(links, st, events[0], c, s);
      }
      NudgesPerEntry(links, Apply(links, st, events[0]), events[1..], c, s);
    }
  }

  /** From a freshly started bot, no chat receives a stage's nudge more often
      than it opened the price menu. */
  lemma FromStartNudgesPerEntry(links: Links, events: seq<Event>, c: ChatId, s: Stage)
    ensures Sends(Run(links, Initial, events).outbox, c, s) <= Entries(events, c)
  {
    NudgesPerEntry(links, Initial, events, c, s);
  }

  /** A forgotten lead (after its final nudge, or never tracked) gets no
      further nudge of any stage until it presses "show prices" again. */
  lemma ForgottenLeadStaysSilent(links: Links, st: State, events: seq<Event>, c: ChatId, s: Stage)
    requires Tracked(st)
    requires c !in st.leads
    requires forall i :: 0 <= i < |events| ==> !Reenters(events[i], c)
    ensures Sends(Run(links, st, events).outbox, c, s) == Sends(st.outbox, c, s)
  {
    NudgeAtMostOnce(links, st, events, c, s);
    var out := Run(links, st, events).outbox;
    assert out == st.outbox + out[|st.outbox|..];
  }

  /** Pressing "show prices" restarts the record with a fresh timestamp and
      no flags; a sweep less than five minutes later sends that chat nothing,
      even if nudges had been sent before. */
  lemma ReentryRestartsClock(links: Links, st: State, c: ChatId, t: int, now: int)
    requires Tracked(st)
    requires now - t < Threshold(Stage5)
    ensures Apply(links, st, Inbound(t, Press(c, ShowPrices))).leads
            == st.leads[c := Fresh(t)]
    ensures var st1 := Apply(links, st, Inbound(t, Press(c, ShowPrices)));
            var st2 := Apply(links, st1, Tick(now));
            ToChat(st2.outbox[|st1.outbox|..], c) == []
  {
    var st1 := Apply(links, st, Inbound(t, Press(c, ShowPrices)));
    assert st1.leads == st.leads[c := Fresh(t)];
    QuietLeadSilent(links, now, st1, c);
  }

  /** A tick sends nothing to a chat whose lead was active within the last
      five minutes. */
  lemma QuietLeadSilent(links: Links, now: int, st: State, c: ChatId)
    requires Tracked(st)
    requires c in st.leads
    requires now - st.leads[c].lastInteraction < Threshold(Stage5)
    ensures ToChat(Apply(links, st, Tick(now)).outbox[|st.outbox|..], c) == []
  {
    var keys := st.order;
    var r := Sweep(now, st.leads, keys);
    assert Apply(links, st, Tick(now)).outbox[|st.outbox|..] == r.outbox;
    SweepKeysToChat(now, st.leads, keys, c);
  }

  /** A text message is answered with the welcome step and changes nothing. */
  lemma Greets(links: Links, st: State, now: int, c: ChatId)
    requires Tracked(st)
    ensures Apply(links, st, Inbound(now, Update(Some(c), None)))
            == State(st.leads, st.order, st.outbox + [StepMessage(c, Welcome)])
  {
  }

  /** A recognised press other than "show prices" is answered with its step
      and changes nothing. */
  lemma Advances(links: Links, st: State, now: int, c: ChatId, data: string)
    requires Tracked(st)
    requires Recognized(data) && data != ShowPrices
    ensures Apply(links, st, Inbound(now, Press(c, data)))
            == State(st.leads, st.order, st.outbox + [StepMessage(c, Route(data, links).value)])
  {
  }

  /** "Show prices" from an untracked chat starts its record at the end of the
      key order. */
  lemma StartsTracking(links: Links, st: State, now: int, c: ChatId)
    requires Tracked(st)
    requires c !in st.leads
    ensures Apply(links, st, Inbound(now, Press(c, ShowPrices)))
            == State(st.leads[c := Fresh(now)], st.order + [c], st.outbox + [StepMessage(c, Prices)])
  {
  }

  /** A tick over a map that tracks one chat only. */
  lemma TickOne(links: Links, now: int, c: ChatId, lead: Lead, out: seq<Message>)
    ensures var r := SweepLead(now, lead);
            Apply(links, State(map[c := lead], [c], out), Tick(now))
            == if r.next.Some? then State(map[c := r.next.value], [c], out + Nudges(c, r.sent))
               else State(map[], [], out + Nudges(c, r.sent))
  {
    var r := SweepLead(now, lead);
    var leads := map[c := lead];
    var swept := Sweep(now, leads, [c]);
    var after := Settle(leads, c, r.next);
    assert [c][1..] == [];
    assert SweepKeys(now, after, []) == Swept(after, []);
    assert swept == Swept(after, Nudges(c, r.sent) + []);
    assert Keep([c], swept.leads) == (if c in swept.leads then [c] else []) + Keep([], swept.leads);
    if r.next.Some? {
      assert swept.leads == map[c := r.next.value];
    } else {
      assert swept.leads == map[];
    }
  }
}

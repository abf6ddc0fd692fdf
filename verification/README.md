# Telegram sales-funnel bot: remarketing sweep and webhook dispatch

A Dafny model of the single-file Telegram bot in `index.js`. The bot walks a
chat through a fixed funnel of media messages with inline buttons (welcome and
age gate, story, desire, price menu, payment link, payment check). Once a chat
has opened the price menu it keeps a lead record in the in-memory
`remarketing` map. A timer sweeps that map every four seconds and nudges idle
leads three times, after 5, 15 and 60 minutes; after the third nudge it forgets
the lead.

Modules:

- `Funnel` (`funnel.dfy`): chat ids, the `callback_data` strings, the steps,
  their inline keyboards, and messages. Captions and button labels are opaque.
- `Media` (`media.dfy`): how `sendMedia` picks `sendVideo`/`video` or
  `sendPhoto`/`photo` from the configured media name, and the request it builds.
- `Remarketing` (`remarketing.dfy`): the lead record, one sweep of one lead,
  the sweep over the whole map, and an invariant of reachable maps.
- `Webhook` (`webhook.dfy`): the routing of an inbound update to a step. It
  covers the record reset done by the price menu, and funnel closure: every
  button the bot shows is answered.
- `Session` (`session.dfy`): the bot as a sequence of atomic events (sweep
  ticks and webhook calls) over one map and one outbox. It proves that each
  nudge is sent at most once per record.

Modelling decisions:

- Time is integer milliseconds. The source compares
  `(now - lastInteraction) / 1000` with 300, 900 and 3600. For integer
  `Date.now()` values this is exactly `now - lastInteraction >= 300000`, and
  likewise for the other two thresholds.
- The record keeps the `sent60` flag. The source reads it but never writes it,
  because the final stage deletes the record instead. `Remarketing.Wf` records
  that the flag stays unset in every reachable map.
- `Object.keys` order is a parameter of `Remarketing.Sweep` (any enumeration of
  the keys). The map that results, and the messages each chat receives, are
  proved not to depend on it. `Session` fixes one order: insertion order, where
  an overwrite keeps its place and a deleted key re-added goes last. The
  JavaScript runtime lists array-index-like keys in ascending order instead.
  That changes only how different chats' nudges interleave in the outbox.
- Sending a message is appending it to an outbox. Whether the Bot API call
  succeeds is not modelled, and neither the map nor any flag depends on it.
- A callback whose `message` is missing makes line 135 throw a `TypeError`.
  The model treats that as no reply and no change to the map, because the throw
  happens before anything is touched.

## Model

| member | source | states |
|---|---|---|
| `Remarketing.SweepLead` | index.js:98-120 | one sweep deletes a lead's record exactly when it sends the final nudge; a lead idle under five minutes gets no message and keeps its record unchanged |
| `Remarketing.SweepLeadSpec` | index.js:99-120 | a stage's nudge is sent exactly when its idle threshold is reached and its flag is unset; the nudges go out in the order 5, 15, 60, each at most once; a surviving record keeps its timestamp and gains exactly the flags of the stages sent |
| `Remarketing.Fresh` | index.js:62 | the record the price menu stores carries the current time and has no stage flagged |
| `Remarketing.Settle` | index.js:101-117 | after a lead's turn in the loop its key holds the updated record (flags set in place), or is gone when the final nudge deleted it; every other key is untouched |
| `Remarketing.SweepKeys` | index.js:97-121 | the `forEach` over the key snapshot only ever removes keys; chats it does not visit are untouched; each visited chat ends with exactly its own per-lead outcome |
| `Remarketing.Sweep` | index.js:94-123 | for any visiting order, the map after a sweep equals the lead-by-lead reference map `Pointwise` |
| `Remarketing.SweepKeysToChat` | index.js:97-121 | the messages a sweep sends to one chat are that chat's own due nudges, in stage order, whatever the order of the other chats; an untracked chat gets nothing |
| `Remarketing.SweepSendsOnce` | index.js:101-120 | in one sweep, a chat receives a stage's nudge once if the stage is due and unflagged for its record, and otherwise not at all |
| `Remarketing.SweepKeepsWf` | index.js:101-120 | a sweep keeps the invariant that `sent60` is unset and stage 15 is never flagged without stage 5 |
| `Remarketing.FinalStageIffExpired` | index.js:115-116 | with `sent60` unset, the final nudge goes out and the record is deleted exactly when the lead has been idle for an hour |
| `Remarketing.LongIdleGetsAllThree` | index.js:101-120 | a fresh lead first swept after an hour or more of idleness gets all three nudges in ascending order and is forgotten |
| `Remarketing.StagesInOrder` | index.js:101-120 | a later stage is sent only if each earlier stage was already flagged or is sent before it in the same sweep |
| `Remarketing.IdleTimeline` | index.js:99-120 | a record started at t gets stage 5 from a sweep at t+310 s; a sweep at t+3700 s then sends stages 15 and 60 and deletes it |
| `Remarketing.NoResend` | index.js:101-113 | a nudge sent by one sweep is never sent again by any later sweep of the record it leaves |
| `Webhook.Route` | index.js:138-146 | a step is chosen exactly for the seven recognised callback strings; no button leads to the welcome step; only `mostrar_valores` opens the price menu; a payment step carries one of the configured links |
| `Webhook.Dispatch` | index.js:129-147 | any message gets the welcome step, even when a callback is also present; otherwise a recognised button from a known chat gets its routed step and anything else gets no reply; the price menu resets the chat's record to a fresh one stamped now; no other update changes the map |
| `Webhook.FunnelClosed` | index.js:37-146 | every callback button on every step's keyboard (`Funnel.StepKeyboard`, the lists at lines 41, 49, 57, 68-70 and 80-81) and on the nudge keyboard (`Funnel.NudgeKeyboard`, lines 104, 111 and 118) is recognised by the dispatcher |
| `Webhook.FunnelAdvances` | index.js:37-146 | over the keyboards of `Funnel.StepKeyboard` and `Funnel.NudgeKeyboard`, each step's button routes to the next step; the three packs route to the payment step with links M20, M45 and M80; the payment step shows its link; the nudge button leads back to the price menu |
| `Media.Includes` | index.js:24 | the search reports true exactly when the pattern occurs somewhere in the string, as `String.prototype.includes` does |
| `Media.ChooseEndpoint` | index.js:24-29 | the endpoint is `sendVideo` with field `video` exactly when the media name ends in ".mp4" (`Media.EndsWith`, the `endsWith` test) or contains "video" (`Media.Includes`), and `sendPhoto` with field `photo` otherwise |
| `Media.SendMediaCall` | index.js:23-33 | the request uses the chosen endpoint and media field, carries the configured media, and passes the message's chat, caption and keyboard through unchanged in Markdown mode |
| `Media.SampleFiles` | index.js:24 | ".mp4" names and names containing "video" are videos; ".jpg" names and upper-case ".MP4" names are photos, because the test is case-sensitive |
| `Session.Keep` | index.js:116 | after deletions the key order lists exactly the keys still in the map, as a subsequence of the old order (their relative order unchanged), without duplicates |
| `Session.Apply` | index.js:94-148 | an event never removes a sent message, and afterwards the key order still lists each tracked chat exactly once |
| `Session.Run` | index.js:94-148 | a run of events only appends to the outbox and keeps the key order consistent with the map |
| `Session.ApplyKeepsWf` | index.js:62-120 | every event keeps the reachable-map invariant |
| `Session.RunKeepsWf` | index.js:62-120 | every map reachable from a well-formed one, the empty map included, has `sent60` unset and stage 5 flagged whenever stage 15 is |
| `Session.ApplySpendsBudget` | index.js:101-120 | an event that does not restart a chat's cycle pays for every nudge it sends that chat by setting a flag or deleting the record |
| `Session.NudgeAtMostOnce` | index.js:101-120 | over any run in which a chat does not press "show prices" again, it receives each stage's nudge at most once, and never one already flagged on its record |
| `Session.ReentryRefillsBudget` | index.js:61-73 | pressing "show prices" appends exactly the price menu to the outbox and no nudge, replaces the chat's record with a fresh one stamped now, and so leaves exactly one unspent nudge per stage; nudges sent plus nudges allowed grow by at most one |
| `Session.NudgesPerEntry` | index.js:61-141 | over any run, the nudges a chat receives plus those its record still allows grow by at most one per press of "show prices" |
| `Session.FromStartNudgesPerEntry` | index.js:61-141 | from a freshly started bot, no chat receives a stage's nudge more often than it pressed "show prices" |
| `Session.ForgottenLeadStaysSilent` | index.js:115-120 | a chat without a record, after its final nudge or never tracked, receives no further nudge until it presses "show prices" again |
| `Session.ReentryRestartsClock` | index.js:62 | pressing "show prices" replaces the record with a fresh one and clears any flags already set; a sweep within five minutes then sends that chat nothing |
| `Session.QuietLeadSilent` | index.js:99-120 | a tick sends nothing to a chat whose record was touched less than five minutes ago |
| `Session.Greets` | index.js:132 | a text message is answered with the welcome step and leaves the map and key order unchanged |
| `Session.Advances` | index.js:138-146 | a recognised press other than `mostrar_valores` is answered with its step and leaves the map unchanged |
| `Session.StartsTracking` | index.js:61-62 | `mostrar_valores` from an untracked chat adds a fresh record at the end of the key order and sends the price menu |
| `Session.TickOne` | index.js:94-123 | a tick over a single tracked chat either keeps its updated record or forgets it, and appends exactly its nudges |

## Left out

- HTTP plumbing is I/O and is not modelled: the Express app, the immediate
  `200` acknowledgement, the health route and `app.listen`.
- Outbound calls go to the network and are not modelled: the axios call to the
  Bot API, its 8-second timeout, the error logging, and the `setWebhook`
  registration at start-up. A send is an append to the outbox.
- Timing and concurrency are not modelled: the four-second `setInterval`
  cadence and the event-loop interleaving. Each handler runs to completion, so
  events are atomic steps in `Session.Run`.
- Environment variables are opaque parameters: the bot token, base URL, media
  name and payment links (`Funnel.Links`). If `MEDIA_FILE` is unset,
  `sendMedia` throws, and that case is not modelled.
- Caption texts, button labels and the Markdown parse mode's rendering are
  opaque.
- An absent `callback_query.data` is not modelled separately. It compares
  unequal to every literal, so it behaves like any unrecognised string.
- The order ledger, the payment reconciliation and the funnel-state enum do not
  exist in `index.js`. The pack buttons only show a static payment link, and
  "verificar" only sends a fixed message.
- Session.Apply: sweeps the keys in insertion order only. The runtime lists
  array-index-like chat ids in ascending order instead. Per-chat results are
  proved order-independent by `Remarketing.Sweep` and
  `Remarketing.SweepKeysToChat`.

/** The remarketing lead tracker of index.js: one record per chat that has
    seen the price menu, and the periodic sweep that nudges idle leads at
    5, 15 and 60 minutes and then forgets them. Time is integer
    milliseconds (`Date.now()`); the source's test
    `(now - lastInteraction) / 1000 >= 300` is exactly
    `now - lastInteraction >= 300000` on integers. */
module Remarketing {
  import opened Wrappers
  import opened Funnel

  /** A lead record. The source reads `sent60` but never writes it: the final
      stage deletes the record instead. */
  datatype Lead = Lead(lastInteraction: int, sent5: bool, sent15: bool, sent60: bool)

  type Leads = map<ChatId, Lead>

  /** The record `etapa_valores` stores: only a timestamp, every flag unset. */
  function Fresh(now: int): (r: Lead)
    ensures r.lastInteraction == now
    ensures forall s :: !Sent(r, s)
  {
    Lead(now, false, false, false)
  }

  /** Idle time, in milliseconds, after which a stage is due. */
  function Threshold(s: Stage): int
  {
    match s
    case Stage5 => 300_000
    case Stage15 => 900_000
    case Stage60 => 3_600_000
  }

  /** Whether the record's flag for a stage is set. */
  predicate Sent(lead: Lead, s: Stage)
  {
    match s
    case Stage5 => lead.sent5
    case Stage15 => lead.sent15
    case Stage60 => lead.sent60
  }

  predicate Due(now: int, lead: Lead, s: Stage)
  {
    now - lead.lastInteraction >= Threshold(s)
  }

  /** Stages listed in strictly ascending order, hence each at most once. */
  predicate Ascending(ss: seq<Stage>)
  {
    forall i, j :: 0 <= i < j < |ss| ==> Rank(ss[i]) < Rank(ss[j])
  }

  /** What one sweep does to one lead: the record that remains (None once it
      is deleted) and the stages whose nudge is sent, in sending order. */
  datatype LeadOutcome = LeadOutcome(next: Option<Lead>, sent: seq<Stage>)

  /** The body of the per-lead loop of the sweep. */
  function SweepLead(now: int, lead: Lead): (r: LeadOutcome)
    // the record disappears exactly when the final nudge goes out
    ensures r.next.None? <==> Stage60 in r.sent
    // a lead idle for less than five minutes is left alone
    ensures now - lead.lastInteraction < Threshold(Stage5) ==> r == LeadOutcome(Some(lead), [])
  {
    var idle := now - lead.lastInteraction;
    var fire5 := !lead.sent5 && idle >= Threshold(Stage5);
    var l1 := if fire5 then lead.(sent5 := true) else lead;
    var fire15 := !l1.sent15 && idle >= Threshold(Stage15);
    var l2 := if fire15 then l1.(sent15 := true) else l1;
    var fire60 := !l2.sent60 && idle >= Threshold(Stage60);
    var sent := (if fire5 then [Stage5] else [])
              + (if fire15 then [Stage15] else [])
              + (if fire60 then [Stage60] else []);
    LeadOutcome(if fire60 then None else Some(l2), sent)
  }

  /** What one sweep does to one lead, stated stage by stage. */
  lemma SweepLeadSpec(now: int, lead: Lead)
    // a stage is sent exactly when it is due and its flag is unset
    ensures forall s :: s in SweepLead(now, lead).sent <==> !Sent(lead, s) && Due(now, lead, s)
    // in the order 5, 15, 60, each at most once
    ensures Ascending(SweepLead(now, lead).sent)
    // a surviving record keeps its timestamp and gains the flags of the stages sent
    ensures SweepLead(now, lead).next.Some? ==>
              && SweepLead(now, lead).next.value.lastInteraction == lead.lastInteraction
              && forall s :: Sent(SweepLead(now, lead).next.value, s) <==> Sent(lead, s) || s in SweepLead(now, lead).sent
  {
  }

  /** The nudge messages for a list of stages, in the same order. */
  function Nudges(chat: ChatId, ss: seq<Stage>): seq<Message>
  {
    seq(|ss|, i requires 0 <= i < |ss| => NudgeMessage(chat, ss[i]))
  }

  /** The whole map and outbox after a sweep. */
  datatype Swept = Swept(leads: Leads, outbox: seq<Message>)

  predicate Distinct(keys: seq<ChatId>)
  {
    forall i, j :: 0 <= i < j < |keys| ==> keys[i] != keys[j]
  }

  /** `keys` lists every key of `leads` exactly once: what `Object.keys`
      hands to the sweep's `forEach`, in whatever order the runtime chose. */
  predicate Enumerates(keys: seq<ChatId>, leads: Leads)
  {
    && (forall i :: 0 <= i < |keys| ==> keys[i] in leads)
    && (forall c :: c in leads ==> c in keys)
    && Distinct(keys)
  }

  /** The per-lead outcome of one sweep has been applied at chat `c`. */
  predicate AppliedAt(now: int, before: Leads, after: Leads, c: ChatId)
    requires c in before
  {
    var r := SweepLead(now, before[c]);
    && (c in after <==> r.next.Some?)
    && (c in after ==> after[c] == r.next.value)
  }

  /** Stores the remaining record of chat `c`, or deletes it. */
  function Settle(leads: Leads, c: ChatId, next: Option<Lead>): (m: Leads)
    ensures forall d :: d != c ==> (d in m <==> d in leads) && (d in m ==> m[d] == leads[d])
    ensures c in m <==> next.Some?
    ensures c in m ==> m[c] == next.value
  {
    if next.Some? then leads[c := next.value] else leads - {c}
  }

  /** The `forEach` loop over `keys`, mutating the map as it goes. */
  function SweepKeys(now: int, leads: Leads, keys: seq<ChatId>): (r: Swept)
    requires forall i :: 0 <= i < |keys| ==> keys[i] in leads
    requires Distinct(keys)
    // keys are only ever removed
    ensures r.leads.Keys <= leads.Keys
    // leads not visited are untouched
    ensures forall c :: c in leads && c !in keys ==> c in r.leads && r.leads[c] == leads[c]
    // each visited lead gets exactly its own outcome
    ensures forall c :: c in keys ==> AppliedAt(now, leads, r.leads, c)
    decreases |keys|
  {
    if keys == [] then Swept(leads, [])
    else
      var c := keys[0];
      var step := SweepLead(now, leads[c]);
      var after := Settle(leads, c, step.next);
      var tail := keys[1..];
      assert forall i :: 0 <= i < |tail| ==> tail[i] == keys[i + 1];
      var rest := SweepKeys(now, after, tail);
      assert forall d :: d in keys <==> d == c || d in tail;
      Swept(rest.leads, Nudges(c, step.sent) + rest.outbox)
  }

  /** Reference definition of a sweep's effect on the map, lead by lead. */
  function Pointwise(now: int, leads: Leads): Leads
  {
    map c | c in leads && SweepLead(now, leads[c]).next.Some? :: SweepLead(now, leads[c]).next.value
  }

  /** One tick of the `setInterval` sweep. Whatever order the keys are
      visited in, the map that results is the pointwise one. */
  function Sweep(now: int, leads: Leads, keys: seq<ChatId>): (r: Swept)
    requires Enumerates(keys, leads)
    ensures r.leads == Pointwise(now, leads)
  {
    SweepIsPointwise(now, leads, keys);
    SweepKeys(now, leads, keys)
  }

  lemma SweepIsPointwise(now: int, leads: Leads, keys: seq<ChatId>)
    requires Enumerates(keys, leads)
    ensures SweepKeys(now, leads, keys).leads == Pointwise(now, leads)
  {
    var after := SweepKeys(now, leads, keys).leads;
    var want := Pointwise(now, leads);
    forall c | c in leads
      ensures (c in after <==> c in want) && (c in after ==> after[c] == want[c])
    {
      assert AppliedAt(now, leads, after, c);
    }
    assert after.Keys == want.Keys;
  }

  /** Only the addressed chat sees a lead's nudges. */
  lemma {:induction false} ToChatNudges(chat: ChatId, ss: seq<Stage>, c: ChatId)
    ensures ToChat(Nudges(chat, ss), c) == if chat == c then Nudges(chat, ss) else []
    decreases |ss|
  {
    if ss != [] {
      assert Nudges(chat, ss)[1..] == Nudges(chat, ss[1..]);
      ToChatNudges(chat, ss[1..], c);
    }
  }

  /** A stage listed once in an ascending list yields exactly one nudge. */
  lemma {:induction false} NudgesCount(chat: ChatId, ss: seq<Stage>, s: Stage)
    requires Ascending(ss)
    ensures multiset(Nudges(chat, ss))[NudgeMessage(chat, s)] == if s in ss then 1 else 0
    decreases |ss|
  {
    if ss != [] {
      assert Nudges(chat, ss) == [NudgeMessage(chat, ss[0])] + Nudges(chat, ss[1..]);
      assert ss == [ss[0]] + ss[1..];
      assert Ascending(ss[1..]);
      assert ss[0] !in ss[1..];
      NudgesCount(chat, ss[1..], s);
    }
  }

  /** Whatever the visiting order, the messages a sweep sends to one chat are
      that lead's own nudges, in stage order, and nothing for any other chat. */
  lemma {:induction false} SweepKeysToChat(now: int, leads: Leads, keys: seq<ChatId>, c: ChatId)
    requires forall i :: 0 <= i < |keys| ==> keys[i] in leads
    requires Distinct(keys)
    ensures ToChat(SweepKeys(now, leads, keys).outbox, c)
            == if c in keys then Nudges(c, SweepLead(now, leads[c]).sent) else []
    decreases |keys|
  {
    if keys != [] {
      var k := keys[0];
      var step := SweepLead(now, leads[k]);
      var after := Settle(leads, k, step.next);
      var tail := keys[1..];
      assert forall i :: 0 <= i < |tail| ==> tail[i] == keys[i + 1];
      var rest := SweepKeys(now, after, tail);
      assert SweepKeys(now, leads, keys).outbox == Nudges(k, step.sent) + rest.outbox;
      ToChatConcat(Nudges(k, step.sent), rest.outbox, c);
      ToChatNudges(k, step.sent, c);
      SweepKeysToChat(now, after, tail, c);
      assert c in keys <==> c == k || c in tail;
      if c == k {
        assert c !in tail;
      } else {
        assert c in tail ==> after[c] == leads[c];
      }
    }
  }

  /** One sweep sends a stage's nudge to a chat once if that stage is due and
      unsent for the chat's lead, and otherwise not at all. */
  lemma SweepSendsOnce(now: int, leads: Leads, keys: seq<ChatId>, c: ChatId, s: Stage)
    requires Enumerates(keys, leads)
    ensures multiset(Sweep(now, leads, keys).outbox)[NudgeMessage(c, s)]
            == if c in leads && !Sent(leads[c], s) && Due(now, leads[c], s) then 1 else 0
  {
    var out := Sweep(now, leads, keys).outbox;
    ToChatKeepsCount(out, NudgeMessage(c, s));
    SweepKeysToChat(now, leads, keys, c);
    if c in leads {
      SweepLeadSpec(now, leads[c]);
      NudgesCount(c, SweepLead(now, leads[c]).sent, s);
    }
  }

  /** Invariant of every reachable map: `sent60` is never set, and stage 15 is
      never marked before stage 5. */
  ghost predicate Wf(leads: Leads)
  {
    forall c :: c in leads ==> !leads[c].sent60 && (leads[c].sent15 ==> leads[c].sent5)
  }

  lemma SweepKeepsWf(now: int, leads: Leads, keys: seq<ChatId>)
    requires Enumerates(keys, leads)
    requires Wf(leads)
    ensures Wf(Sweep(now, leads, keys).leads)
  {
  }

  /** Because `sent60` is never set, the final-stage test amounts to "the
      record still exists and has been idle for an hour". */
  lemma FinalStageIffExpired(now: int, lead: Lead)
    requires !lead.sent60
    ensures Stage60 in SweepLead(now, lead).sent <==> now - lead.lastInteraction >= 3_600_000
    ensures SweepLead(now, lead).next.None? <==> now - lead.lastInteraction >= 3_600_000
  {
  }

  /** A lead first seen an hour or more after its last interaction gets all
      three nudges in one sweep, in ascending order, and is then forgotten. */
  lemma LongIdleGetsAllThree(now: int, lead: Lead)
    requires !lead.sent5 && !lead.sent15 && !lead.sent60
    requires now - lead.lastInteraction >= 3_600_000
    ensures SweepLead(now, lead) == LeadOutcome(None, [Stage5, Stage15, Stage60])
  {
  }

  /** Stage gating: a later stage goes out only together with, and after,
      every earlier stage whose flag was still unset. */
  lemma StagesInOrder(now: int, lead: Lead, s: Stage, t: Stage)
    requires Rank(s) < Rank(t)
    requires t in SweepLead(now, lead).sent
    ensures Sent(lead, s) || s in SweepLead(now, lead).sent
    ensures s in SweepLead(now, lead).sent ==>
              exists i, j :: 0 <= i < j < |SweepLead(now, lead).sent|
                             && SweepLead(now, lead).sent[i] == s && SweepLead(now, lead).sent[j] == t
  {
  }

  /** An idle lead's timeline: a record started at time `t` gets the first
      nudge from a sweep just after five minutes, then the other two from a
      sweep after an hour, which also forgets it. */
  lemma IdleTimeline(t: int)
    ensures SweepLead(t + 310_000, Fresh(t)) == LeadOutcome(Some(Lead(t, true, false, false)), [Stage5])
    ensures SweepLead(t + 3_700_000, Lead(t, true, false, false)) == LeadOutcome(None, [Stage15, Stage60])
  {
  }

  /** A nudge sent by one sweep is never sent again by a later sweep of the
      record it leaves behind, whatever the later time. */
  lemma NoResend(now: int, later: int, lead: Lead, s: Stage)
    requires s in SweepLead(now, lead).sent
    requires SweepLead(now, lead).next.Some?
    ensures s !in SweepLead(later, SweepLead(now, lead).next.value).sent
  {
  }
}

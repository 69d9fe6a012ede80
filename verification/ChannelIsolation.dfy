/** The legacy and the intel channel do not disturb each other, although they share `seen` and
    `dead_letters` (native/discord-monitor.py:476-489, 599-653, 713-761). */
module ChannelIsolation {
  import opened DeliveryQueue
  import opened DeliveryLedger
  import G = DiscordGovernor

  predicate Concerns(op: Op, ch: Channel) {
    match op
    case Absorb(_) => false
    case Alert(_, _) => ch == Legacy
    case Summary(_, _, _, _, _) => ch == Intel
    case Send(to, _, _) => to == ch
    case Restarted => true
  }

  /** One channel's own operations. */
  function Only(ops: seq<Op>, ch: Channel): seq<Op> {
    if ops == [] then [] else
      Only(ops[..|ops| - 1], ch) + (if Concerns(ops[|ops| - 1], ch) then [ops[|ops| - 1]] else [])
  }

  /** What the channel would do if it never looked at a list it shares. */
  function AloneStep(s: Side, op: Op, c: G.Config): Side {
    match op
    case Absorb(_) => s
    case Send(_, _, _) => Sent(s, op, c)
    case Restarted => Reset(s)
    case _ => Pushed(s, ItemOf(op))
  }

  function Alone(ops: seq<Op>, ch: Channel, c: G.Config): Side {
    if ops == [] then NewSide else
      var before := Alone(ops[..|ops| - 1], ch, c);
      if Concerns(ops[|ops| - 1], ch) then AloneStep(before, ops[|ops| - 1], c) else before
  }

  /** No item id is used twice. */
  predicate FreshItems(ops: seq<Op>) {
    forall i, j :: 0 <= i < j < |ops| && IsItem(ops[i]) && IsItem(ops[j]) ==> ItemOf(ops[i]).id != ItemOf(ops[j]).id
  }

  predicate Mentions(ops: seq<Op>, id: Id) {
    exists i :: 0 <= i < |ops| && IsItem(ops[i]) && ItemOf(ops[i]).id == id
  }

  predicate AllMentioned(ops: seq<Op>, items: seq<Item>) {
    forall i :: 0 <= i < |items| ==> Mentions(ops, items[i].id)
  }

  /** Only ids of earlier items, or of lines, were ever recorded or are pending. */
  predicate Sourced(ops: seq<Op>, l: Ledger) {
    && AllMentioned(ops, l.sides.legacy.pending) && AllMentioned(ops, l.sides.intel.pending)
    && forall id :: id in l.q.seen ==> id.LineDigest? || Mentions(ops, id)
  }

  lemma MentionsLater(ops: seq<Op>, op: Op)
    ensures forall id :: Mentions(ops, id) ==> Mentions(ops + [op], id)
    ensures IsItem(op) ==> Mentions(ops + [op], ItemOf(op).id)
  {
    forall id | Mentions(ops, id)
      ensures Mentions(ops + [op], id)
    {
      var i :| 0 <= i < |ops| && IsItem(ops[i]) && ItemOf(ops[i]).id == id;
      assert (ops + [op])[i] == ops[i];
    }
    assert (ops + [op])[|ops|] == op;
  }

  predicate SettledMentioned(ops: seq<Op>, ss: seq<Settled>) {
    forall i :: 0 <= i < |ss| ==> Mentions(ops, ss[i].item.id)
  }

  lemma SettledSourced(ops: seq<Op>, q: Queues, ss: seq<Settled>)
    requires forall id :: id in q.seen ==> id.LineDigest? || Mentions(ops, id)
    requires SettledMentioned(ops, ss)
    ensures forall id :: id in SettleAll(q, ss).seen ==> id.LineDigest? || Mentions(ops, id)
  {
    hide Mentions, SettleAll;
    forall id | id in SettleAll(q, ss).seen
      ensures id.LineDigest? || Mentions(ops, id)
    {
      SeenGrowsBy(q, ss, id);
    }
  }

  /** A prefix of a queue whose items are all mentioned. */
  lemma PrefixMentioned(ops: seq<Op>, pending: seq<Item>, gone: seq<Settled>, rest: seq<Item>)
    requires AllMentioned(ops, pending) && ItemsOf(gone) + rest == pending
    ensures SettledMentioned(ops, gone) && AllMentioned(ops, rest)
  {
    hide Mentions;
    assert forall i :: 0 <= i < |gone| ==> ItemsOf(gone)[i] == pending[i];
    assert forall i :: 0 <= i < |rest| ==> rest[i] == pending[|gone| + i];
  }

  lemma SendSourced(ops: seq<Op>, l: Ledger, op: Op, c: G.Config)
    requires InOrder(l) && Sourced(ops, l) && op.Send?
    ensures Sourced(ops, Step(l, op, c, false))
  {
    hide Mentions, SettleAll, Drain, ItemsOf, SideInOrder, ListsRecent, Unseen, Kinds;
    var s := l.sides.Of(op.ch);
    var d := Drain(s.pending, s.governor, c, op.credential, op.env, 0);
    DrainKeepsOrder(s.pending, s.governor, c, op.credential, op.env, 0);
    PrefixMentioned(ops, s.pending, d.settled, d.pending);
    SettledSourced(ops, l.q, d.settled);
  }

  lemma PushSourced(ops: seq<Op>, l: Ledger, op: Op, c: G.Config)
    requires InOrder(l) && Sourced(ops, l) && IsItem(op) && Mentions(ops, ItemOf(op).id)
    ensures Sourced(ops, Step(l, op, c, false))
  {
    hide Mentions, SettleAll, ItemsOf, SideInOrder, ListsRecent, Unseen, Kinds, Dropped;
    var s := l.sides.Of(ChannelOf(op));
    DroppedPrefix(s.pending);
    PrefixMentioned(ops, s.pending, Dropped(s.pending), s.pending[|Dropped(s.pending)|..]);
    SettledSourced(ops, l.q, Dropped(s.pending));
  }

  lemma RestartSourced(ops: seq<Op>, l: Ledger, c: G.Config)
    requires InOrder(l) && Sourced(ops, l)
    ensures Sourced(ops, Step(l, Restarted, c, false))
  {
    hide Mentions, SettleAll, ItemsOf, SideInOrder, ListsRecent, Unseen, Kinds;
    var a, b := AllSettled(l.sides.legacy.pending, RestartSuppressed), AllSettled(l.sides.intel.pending,
        RestartSuppressed);
    AllSettledItems(l.sides.legacy.pending, RestartSuppressed);
    AllSettledItems(l.sides.intel.pending, RestartSuppressed);
    PrefixMentioned(ops, l.sides.legacy.pending, a, []);
    PrefixMentioned(ops, l.sides.intel.pending, b, []);
    SettledSourced(ops, l.q, a);
    SettledSourced(ops, SettleAll(l.q, a), b);
  }

  lemma {:induction false} HistoriesSourced(ops: seq<Op>, c: G.Config)
    ensures Sourced(ops, Run(ops, c, false))
  {
    if ops != [] {
      hide InOrder, Mentions, Record;
      var before, op := ops[..|ops| - 1], ops[|ops| - 1];
      var l := Run(before, c, false);
      assert ops == before + [op];
      HistoriesSourced(before, c);
      HistoriesInOrder(before, c, false);
      MentionsLater(before, op);
      assert Sourced(ops, l);
      match op
      case Absorb(raw) => RecordSees(l.q, LineDigest(raw));
      case Send(ch, credential, env) => SendSourced(ops, l, op, c);
      case Restarted => RestartSourced(ops, l, c);
      case _ => PushSourced(ops, l, op, c);
    }
  }

  lemma RecordSees(q: Queues, id: Id)
    ensures Record(q, id).pending == q.pending
    ensures forall x :: x in Record(q, id).seen ==> x in q.seen || x == id
  {
  }

  lemma NotMentioned(ops: seq<Op>, op: Op)
    requires FreshItems(ops + [op]) && IsItem(op)
    ensures !Mentions(ops, ItemOf(op).id)
  {
    assert (ops + [op])[|ops|] == op;
    assert forall i :: 0 <= i < |ops| ==> (ops + [op])[i] == ops[i];
  }

  lemma FreshPrefix(ops: seq<Op>)
    requires ops != [] && FreshItems(ops)
    ensures FreshItems(ops[..|ops| - 1])
  {
  }

  /** With fresh ids the shared lists never decide anything for a channel. */
  lemma {:induction false} RunsAlone(ops: seq<Op>, ch: Channel, c: G.Config)
    requires FreshItems(ops)
    ensures Run(ops, c, false).sides.Of(ch) == Alone(ops, ch, c)
  {
    if ops != [] {
      hide InOrder, Mentions, FreshItems, Sent, Pushed, Reset, Drain, Push, Restart;
      var before, op := ops[..|ops| - 1], ops[|ops| - 1];
      assert ops == before + [op];
      FreshPrefix(ops);
      RunsAlone(before, ch, c);
      HistoriesSourced(before, c);
      if IsItem(op) {
        NotMentioned(before, op);
        NotHeldAlready(before, Run(before, c, false), op);
      }
    }
  }

  lemma NotHeldAlready(ops: seq<Op>, l: Ledger, op: Op)
    requires Sourced(ops, l) && IsItem(op) && !Mentions(ops, ItemOf(op).id)
    ensures ItemOf(op).id !in l.q.seen && !Holds(l.sides.Of(ChannelOf(op)).pending, ItemOf(op).id)
  {
    hide Mentions;
  }

  lemma {:induction false} AloneIgnoresOthers(ops: seq<Op>, ch: Channel, c: G.Config)
    ensures Alone(Only(ops, ch), ch, c) == Alone(ops, ch, c)
  {
    if ops != [] {
      hide AloneStep;
      var before, op := ops[..|ops| - 1], ops[|ops| - 1];
      AloneIgnoresOthers(before, ch, c);
      if Concerns(op, ch) {
        assert Only(ops, ch)[..|Only(before, ch)|] == Only(before, ch);
      } else {
        assert Only(ops, ch) == Only(before, ch);
      }
    }
  }

  lemma {:induction false} OnlyMentions(ops: seq<Op>, ch: Channel, id: Id)
    ensures Mentions(Only(ops, ch), id) ==> Mentions(ops, id)
  {
    if ops != [] {
      var before, op := ops[..|ops| - 1], ops[|ops| - 1];
      assert ops == before + [op];
      OnlyMentions(before, ch, id);
      MentionsLater(before, op);
      var mine := Only(ops, ch);
      if i :| 0 <= i < |mine| && IsItem(mine[i]) && ItemOf(mine[i]).id == id {
        if i < |Only(before, ch)| {
          assert Only(before, ch)[i] == mine[i];
          assert Mentions(Only(before, ch), id);
        } else {
          assert ops[|ops| - 1] == mine[i];
        }
      }
    }
  }

  lemma {:induction false} OnlyFresh(ops: seq<Op>, ch: Channel)
    requires FreshItems(ops)
    ensures FreshItems(Only(ops, ch))
  {
    if ops != [] {
      var before, op := ops[..|ops| - 1], ops[|ops| - 1];
      assert ops == before + [op];
      FreshPrefix(ops);
      OnlyFresh(before, ch);
      if IsItem(op) {
        NotMentioned(before, op);
        OnlyMentions(before, ch, ItemOf(op).id);
        UnmentionedFresh(Only(before, ch), op);
      }
      FreshOther(Only(before, ch), op);
    }
  }

  lemma UnmentionedFresh(ops: seq<Op>, op: Op)
    requires FreshItems(ops) && IsItem(op) && !Mentions(ops, ItemOf(op).id)
    ensures FreshItems(ops + [op])
  {
    forall i, j | 0 <= i < j < |ops + [op]| && IsItem((ops + [op])[i]) && IsItem((ops + [op])[j])
      ensures ItemOf((ops + [op])[i]).id != ItemOf((ops + [op])[j]).id
    {
      assert (ops + [op])[i] == ops[i];
      if j == |ops| {
        assert !Mentions(ops, ItemOf(op).id);
      }
    }
  }

  lemma FreshOther(ops: seq<Op>, op: Op)
    requires FreshItems(ops)
    ensures !IsItem(op) ==> FreshItems(ops + [op])
  {
  }

  /** For every interleaving of legacy and intel operations, outages, 429s, saturation, missing
      credentials and restarts included: each channel's queue, governor, accepted items, fates and
      POSTs are those of running its own operations alone. */
  lemma ChannelsDoNotInterfere(ops: seq<Op>, ch: Channel, c: G.Config)
    requires FreshItems(ops)
    ensures Run(ops, c, false).sides.Of(ch) == Run(Only(ops, ch), c, false).sides.Of(ch)
  {
    hide Run, Alone;
    RunsAlone(ops, ch, c);
    OnlyFresh(ops, ch);
    RunsAlone(Only(ops, ch), ch, c);
    AloneIgnoresOthers(ops, ch, c);
  }
}

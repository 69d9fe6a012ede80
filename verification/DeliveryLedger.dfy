/** Whole histories of the two delivery channels: where every accepted item is, in which order
    items leave, and what the bounded lists remember (native/discord-monitor.py:470-489, 599-653). */
module DeliveryLedger {
  import opened Options
  import opened Records
  import opened DeliveryQueue
  import G = DiscordGovernor

  /** What happens to the delivery state: a line absorbed, an immediate alert or a summary
      enqueued, one channel drained, the process restarted. */
  datatype Op = Absorb(raw: Bytes)
              | Alert(raw: Bytes, payload: string)
              | Summary(key: string, createdAt: real, lastActivityAt: real, events: nat, payload: string)
              | Send(ch: Channel, credential: bool, env: nat -> Turn)
              | Restarted

  predicate IsItem(op: Op) {
    op.Alert? || op.Summary?
  }

  function ItemOf(op: Op): Item
    requires IsItem(op)
  {
    match op
    case Alert(raw, payload) => Item(AlertId(raw), payload)
    case Summary(key, createdAt, last, events, payload) => Item(FlushId(key, createdAt, last, events), payload)
  }

  function ChannelOf(op: Op): Channel
    requires IsItem(op)
  {
    if op.Alert? then Legacy else Intel
  }

  /** One channel: its queue and governor, and the history of what it accepted, settled and sent. */
  datatype Side = Side(pending: seq<Item>, governor: G.Governor, accepted: seq<Item>, settled: seq<Settled>,
      log: seq<Entry>)

  datatype Ledger = Ledger(q: Queues, recorded: seq<Id>, buried: seq<DeadLetter>, sides: Both<Side>)

  const Start := Ledger(Empty, [], [], Both(NewSide, NewSide))
  const NewSide := Side([], G.Fresh, [], [], [])

  function IdsOf(ss: seq<Settled>): seq<Id> {
    if ss == [] then [] else IdsOf(ss[..|ss| - 1]) + [ss[|ss| - 1].item.id]
  }

  function LettersOf(ss: seq<Settled>): seq<DeadLetter> {
    if ss == [] then [] else
      var s := ss[|ss| - 1];
      LettersOf(ss[..|ss| - 1]) + (if s.fate.Delivered? then [] else [DeadLetter(s.item.id, s.fate.reason)])
  }

  function Booked(l: Ledger, ss: seq<Settled>, q: Queues, sides: Both<Side>): Ledger {
    Ledger(q, l.recorded + IdsOf(ss), l.buried + LettersOf(ss), sides)
  }

  /** A side after one item was pushed, one drain, or one restart. */
  function Pushed(s: Side, item: Item): Side {
    var gone := Dropped(s.pending);
    s.(pending := s.pending[|gone|..] + [item], accepted := s.accepted + [item], settled := s.settled + gone)
  }

  function Sent(s: Side, op: Op, c: G.Config): Side
    requires op.Send?
  {
    var d := Drain(s.pending, s.governor, c, op.credential, op.env, 0);
    s.(pending := d.pending, governor := d.governor, settled := s.settled + d.settled, log := s.log + d.log)
  }

  function Reset(s: Side): Side {
    s.(pending := [], governor := G.Fresh, settled := s.settled + AllSettled(s.pending, RestartSuppressed))
  }

  /** `exact` asks the whole recorded history instead of the bounded `seen` list. */
  predicate Known(l: Ledger, id: Id, exact: bool) {
    if exact then id in l.recorded else id in l.q.seen
  }

  function Step(l: Ledger, op: Op, c: G.Config, exact: bool): Ledger {
    match op
    case Absorb(raw) =>
      var id := LineDigest(raw);
      if Known(l, id, exact) then l else l.(q := Record(l.q, id), recorded := l.recorded + [id])
    case Send(ch, credential, env) =>
      var s := l.sides.Of(ch);
      var d := Drain(s.pending, s.governor, c, credential, env, 0);
      Booked(l, d.settled, AfterDrain(l.q, ch, d), l.sides.With(ch, Sent(s, op, c)))
    case Restarted =>
      var gone := AllSettled(l.sides.legacy.pending, RestartSuppressed) + AllSettled(l.sides.intel.pending,
          RestartSuppressed);
      Booked(l, gone, Restart(l.q), Both(Reset(l.sides.legacy), Reset(l.sides.intel)))
    case _ =>
      var item, ch := ItemOf(op), ChannelOf(op);
      var s := l.sides.Of(ch);
      if Known(l, item.id, exact) || Holds(s.pending, item.id) then l
      else Booked(l, Dropped(s.pending), Push(l.q, ch, item), l.sides.With(ch, Pushed(s, item)))
  }

  function Run(ops: seq<Op>, c: G.Config, exact: bool): Ledger {
    if ops == [] then Start else Step(Run(ops[..|ops| - 1], c, exact), ops[|ops| - 1], c, exact)
  }

  function Recent<T>(s: seq<T>, n: nat): seq<T> {
    if |s| > n then s[|s| - n..] else s
  }

  lemma RecentAppend<T>(s: seq<T>, x: T, n: nat)
    ensures AppendBounded(Recent(s, n), x, n) == Recent(s + [x], n)
  {
    var longer := Recent(s, n) + [x];
    if |s| > n {
      assert longer == (s + [x])[|s| - n..];
    }
  }

  /** The two shared lists hold the latest entries of everything ever filed. */
  predicate ListsRecent(l: Ledger) {
    l.q.seen == Recent(l.recorded, MAX_SEEN) && l.q.dead == Recent(l.buried, MAX_DEAD)
  }

  lemma {:induction false} SettleAllRecent(q: Queues, ss: seq<Settled>, recorded: seq<Id>, buried: seq<DeadLetter>)
    requires q.seen == Recent(recorded, MAX_SEEN) && q.dead == Recent(buried, MAX_DEAD)
    ensures var r := SettleAll(q, ss);
      r.seen == Recent(recorded + IdsOf(ss), MAX_SEEN) && r.dead == Recent(buried + LettersOf(ss), MAX_DEAD)
  {
    hide Recent, AppendBounded;
    if ss == [] {
      assert recorded + [] == recorded && buried + [] == buried;
    } else {
      var init, s := ss[..|ss| - 1], ss[|ss| - 1];
      SettleAllRecent(q, init, recorded, buried);
      RecentAppend(recorded + IdsOf(init), s.item.id, MAX_SEEN);
      assert recorded + IdsOf(ss) == recorded + IdsOf(init) + [s.item.id];
      if s.fate.DeadLettered? {
        var letter := DeadLetter(s.item.id, s.fate.reason);
        RecentAppend(buried + LettersOf(init), letter, MAX_DEAD);
        assert buried + LettersOf(ss) == buried + LettersOf(init) + [letter];
      } else {
        assert buried + LettersOf(ss) == buried + LettersOf(init);
      }
    }
  }

  predicate UniqueIds(items: seq<Item>) {
    forall i, j :: 0 <= i < j < |items| ==> items[i].id != items[j].id
  }

  /** One channel in order: whatever it accepted has been settled or is still pending, oldest
      first; at most MAX_PENDING are pending, under different ids. */
  predicate SideInOrder(s: Side) {
    && s.accepted == ItemsOf(s.settled) + s.pending
    && |s.pending| <= MAX_PENDING && UniqueIds(s.pending)
  }

  predicate Kinds(l: Ledger) {
    && (forall i :: 0 <= i < |l.sides.legacy.pending| ==> l.sides.legacy.pending[i].id.AlertId?)
    && (forall i :: 0 <= i < |l.sides.intel.pending| ==> l.sides.intel.pending[i].id.FlushId?)
  }

  predicate Unseen(items: seq<Item>, seen: seq<Id>) {
    forall i :: 0 <= i < |items| ==> items[i].id !in seen
  }

  predicate InOrder(l: Ledger) {
    && l.q.pending == Both(l.sides.legacy.pending, l.sides.intel.pending)
    && SideInOrder(l.sides.legacy) && SideInOrder(l.sides.intel)
    && Kinds(l) && ListsRecent(l)
    && Unseen(l.sides.legacy.pending, l.q.seen) && Unseen(l.sides.intel.pending, l.q.seen)
  }

  lemma {:induction false} SeenGrowsBy(q: Queues, ss: seq<Settled>, id: Id)
    requires id in SettleAll(q, ss).seen
    ensures id in q.seen || exists i :: 0 <= i < |ss| && ss[i].item.id == id
  {
    if ss != [] {
      var init, s := ss[..|ss| - 1], ss[|ss| - 1];
      var r := SettleAll(q, init);
      assert id in r.seen || id == s.item.id;
      if id in r.seen {
        SeenGrowsBy(q, init, id);
        if i :| 0 <= i < |init| && init[i].item.id == id {
          assert ss[i].item.id == id;
        }
      } else {
        assert ss[|ss| - 1].item.id == id;
      }
    }
  }

  /** Items under ids different from everything settled stay out of `seen`. */
  lemma StillUnseen(q: Queues, ss: seq<Settled>, items: seq<Item>)
    requires Unseen(items, q.seen)
    requires forall i, j :: 0 <= i < |items| && 0 <= j < |ss| ==> items[i].id != ss[j].item.id
    ensures Unseen(items, SettleAll(q, ss).seen)
  {
    forall i | 0 <= i < |items|
      ensures items[i].id !in SettleAll(q, ss).seen
    {
      if items[i].id in SettleAll(q, ss).seen {
        SeenGrowsBy(q, ss, items[i].id);
      }
    }
  }

  lemma SettlePrefix(s: Side, gone: seq<Settled>, rest: seq<Item>)
    requires SideInOrder(s) && ItemsOf(gone) + rest == s.pending
    ensures s.accepted == ItemsOf(s.settled + gone) + rest
    ensures UniqueIds(rest)
    ensures forall i, j :: 0 <= i < |rest| && 0 <= j < |gone| ==> rest[i].id != gone[j].item.id
    ensures forall i :: 0 <= i < |rest| ==> rest[i] == s.pending[|gone| + i]
    ensures forall j :: 0 <= j < |gone| ==> gone[j].item == s.pending[j]
  {
    assert ItemsOf(s.settled + gone) == ItemsOf(s.settled) + ItemsOf(gone);
    assert forall j :: 0 <= j < |gone| ==> ItemsOf(gone)[j] == s.pending[j];
    assert forall i :: 0 <= i < |rest| ==> rest[i] == s.pending[|gone| + i];
  }

  /** What happens when channel `ch` settles a prefix of its queue. */
  lemma PrefixSettled(l: Ledger, ch: Channel, gone: seq<Settled>, rest: seq<Item>)
    requires InOrder(l) && ItemsOf(gone) + rest == l.sides.Of(ch).pending
    ensures var s := l.sides.Of(ch);
      SideInOrder(s.(pending := rest, settled := s.settled + gone))
    ensures Unseen(rest, SettleAll(l.q, gone).seen)
    ensures var other := if ch == Legacy then l.sides.intel.pending else l.sides.legacy.pending;
      Unseen(other, SettleAll(l.q, gone).seen)
  {
    hide SettleAll, ItemsOf, ListsRecent;
    var s := l.sides.Of(ch);
    SettlePrefix(s, gone, rest);
    StillUnseen(l.q, gone, rest);
    var other := if ch == Legacy then l.sides.intel.pending else l.sides.legacy.pending;
    StillUnseen(l.q, gone, other);
  }

  lemma AbsorbInOrder(l: Ledger, raw: Bytes)
    requires InOrder(l)
    ensures InOrder(l.(q := Record(l.q, LineDigest(raw)), recorded := l.recorded + [LineDigest(raw)]))
  {
    hide Recent, SideInOrder;
    RecentAppend(l.recorded, LineDigest(raw), MAX_SEEN);
  }

  lemma BookedRecent(l: Ledger, ss: seq<Settled>, pending: Both<seq<Item>>, sides: Both<Side>)
    requires ListsRecent(l)
    ensures ListsRecent(Booked(l, ss, SettleAll(l.q, ss).(pending := pending), sides))
  {
    hide Recent, SettleAll;
    SettleAllRecent(l.q, ss, l.recorded, l.buried);
  }

  /** A side's queue kinds, whichever channel it is. */
  predicate Fits(ch: Channel, items: seq<Item>) {
    forall i :: 0 <= i < |items| ==> if ch == Legacy then items[i].id.AlertId? else items[i].id.FlushId?
  }

  lemma SideReplaced(l: Ledger, ch: Channel, ss: seq<Settled>, side: Side)
    requires InOrder(l) && SideInOrder(side) && Fits(ch, side.pending) && ListsRecent(l)
    requires Unseen(side.pending, SettleAll(l.q, ss).seen)
    requires Unseen(if ch == Legacy then l.sides.intel.pending else l.sides.legacy.pending, SettleAll(l.q, ss).seen)
    ensures InOrder(Booked(l, ss, SettleAll(l.q, ss).(pending := l.q.pending.With(ch, side.pending)),
        l.sides.With(ch, side)))
  {
    hide SettleAll, ListsRecent, SideInOrder, Unseen;
    BookedRecent(l, ss, l.q.pending.With(ch, side.pending), l.sides.With(ch, side));
  }

  lemma SendInOrder(l: Ledger, op: Op, c: G.Config)
    requires InOrder(l) && op.Send?
    ensures InOrder(Step(l, op, c, false)) && InOrder(Step(l, op, c, true))
  {
    hide SettleAll, ListsRecent, Drain, ItemsOf;
    var s := l.sides.Of(op.ch);
    var d := Drain(s.pending, s.governor, c, op.credential, op.env, 0);
    DrainKeepsOrder(s.pending, s.governor, c, op.credential, op.env, 0);
    PrefixSettled(l, op.ch, d.settled, d.pending);
    SettlePrefix(s, d.settled, d.pending);
    SideReplaced(l, op.ch, d.settled, Sent(s, op, c));
  }

  lemma DroppedPrefix(pending: seq<Item>)
    ensures var gone := Dropped(pending);
      |gone| <= |pending| && ItemsOf(gone) + pending[|gone|..] == pending
      && (|pending| <= MAX_PENDING ==> |pending| - |gone| < MAX_PENDING)
  {
  }

  lemma PushInOrder(l: Ledger, op: Op)
    requires InOrder(l) && IsItem(op)
    requires ItemOf(op).id !in l.q.seen && !Holds(l.sides.Of(ChannelOf(op)).pending, ItemOf(op).id)
    ensures var item, ch := ItemOf(op), ChannelOf(op);
      InOrder(Booked(l, Dropped(l.sides.Of(ch).pending), Push(l.q, ch, item), l.sides.With(ch,
          Pushed(l.sides.Of(ch), item))))
  {
    hide SettleAll, ListsRecent, Dropped, ItemsOf;
    var item, ch := ItemOf(op), ChannelOf(op);
    var s := l.sides.Of(ch);
    var gone := Dropped(s.pending);
    DroppedPrefix(s.pending);
    var rest := s.pending[|gone|..];
    PrefixSettled(l, ch, gone, rest);
    SettlePrefix(s, gone, rest);
    NotHeld(s.pending, item.id);
    StillUnseen(l.q, gone, [item]);
    SideReplaced(l, ch, gone, Pushed(s, item));
  }

  lemma NotHeld(items: seq<Item>, id: Id)
    requires !Holds(items, id)
    ensures forall i :: 0 <= i < |items| ==> items[i].id != id
  {
  }

  lemma RestartInOrder(l: Ledger, c: G.Config, exact: bool)
    requires InOrder(l)
    ensures InOrder(Step(l, Restarted, c, exact))
  {
    hide SettleAll, ListsRecent, ItemsOf;
    var a, b := AllSettled(l.sides.legacy.pending, RestartSuppressed), AllSettled(l.sides.intel.pending,
        RestartSuppressed);
    SettleAppend(l.q, a, b);
    AllSettledItems(l.sides.legacy.pending, RestartSuppressed);
    AllSettledItems(l.sides.intel.pending, RestartSuppressed);
    SettlePrefix(l.sides.legacy, a, []);
    SettlePrefix(l.sides.intel, b, []);
    BookedRecent(l, a + b, Both([], []), Both(Reset(l.sides.legacy), Reset(l.sides.intel)));
  }

  lemma AllSettledItems(items: seq<Item>, reason: Reason)
    ensures ItemsOf(AllSettled(items, reason)) + [] == items
  {
  }

  lemma SeenIsRecorded(l: Ledger, id: Id)
    requires ListsRecent(l) && id in l.q.seen
    ensures id in l.recorded
  {
  }

  lemma StepInOrder(l: Ledger, op: Op, c: G.Config, exact: bool)
    requires InOrder(l)
    ensures InOrder(Step(l, op, c, exact))
  {
    hide InOrder;
    match op
    case Absorb(raw) => AbsorbInOrder(l, raw);
    case Send(ch, credential, env) => SendInOrder(l, op, c);
    case Restarted => RestartInOrder(l, c, exact);
    case _ =>
      var item, ch := ItemOf(op), ChannelOf(op);
      if !Known(l, item.id, exact) && !Holds(l.sides.Of(ch).pending, item.id) {
        InOrderLists(l);
        if item.id in l.q.seen { SeenIsRecorded(l, item.id); }
        PushInOrder(l, op);
      }
  }

  /** The delivery state inside a history moves by the very operations of the monitor. */
  lemma StepIsTheOperation(l: Ledger, op: Op, c: G.Config)
    requires InOrder(l)
    ensures Step(l, op, c, false).q ==
      match op
      case Absorb(raw) => if LineDigest(raw) in l.q.seen then l.q else Record(l.q, LineDigest(raw))
      case Send(ch, credential, env) =>
        AfterDrain(l.q, ch, Drain(l.q.pending.Of(ch), l.sides.Of(ch).governor, c, credential, env, 0))
      case Restarted => Restart(l.q)
      case _ => Enqueue(l.q, ChannelOf(op), ItemOf(op))
  {
    hide SettleAll, Drain, SideInOrder, ListsRecent, Unseen;
  }

  lemma InOrderLists(l: Ledger)
    requires InOrder(l)
    ensures ListsRecent(l)
  {
  }

  /** Queue accounting, over every history: each channel's accepted items are, in the order they
      were accepted, the settled ones followed by the pending ones, so each is in exactly one of
      pending, delivered or dead-lettered; at most MAX_PENDING are pending, under distinct ids
      none of which is in `seen`; `seen` and `dead_letters` are the latest entries filed. */
  lemma {:induction false} HistoriesInOrder(ops: seq<Op>, c: G.Config, exact: bool)
    ensures InOrder(Run(ops, c, exact))
  {
    hide Step;
    if ops == [] {
      assert SideInOrder(NewSide);
    } else {
      hide InOrder;
      HistoriesInOrder(ops[..|ops| - 1], c, exact);
      StepInOrder(Run(ops[..|ops| - 1], c, exact), ops[|ops| - 1], c, exact);
    }
  }

  function IdOf(op: Op): Option<Id> {
    if op.Absorb? then Some(LineDigest(op.raw)) else if IsItem(op) then Some(ItemOf(op).id) else None
  }

  /** A recorded id comes back only while it is among the latest MAX_SEEN recorded ones. */
  predicate RepeatsClose(ops: seq<Op>, c: G.Config) {
    forall n :: 0 <= n < |ops| ==> RepeatClose(ops, c, n)
  }

  predicate RepeatClose(ops: seq<Op>, c: G.Config, n: nat)
    requires n < |ops|
  {
    var l, id := Run(ops[..n], c, true), IdOf(ops[n]);
    id.Some? && id.value in l.recorded ==> id.value in Recent(l.recorded, MAX_SEEN)
  }

  /** When repeats are at most MAX_SEEN recorded ids apart, the bounded list decides every
      question exactly as an unbounded set would, and the histories are the same. */
  lemma {:induction false} SeenWindowSuffices(ops: seq<Op>, c: G.Config)
    requires RepeatsClose(ops, c)
    ensures Run(ops, c, false) == Run(ops, c, true)
  {
    hide InOrder;
    if ops != [] {
      var n := |ops| - 1;
      forall i | 0 <= i < n
        ensures RepeatClose(ops[..n], c, i)
      {
        assert RepeatClose(ops, c, i);
        assert ops[..n][..i] == ops[..i];
      }
      SeenWindowSuffices(ops[..n], c);
      HistoriesInOrder(ops[..n], c, true);
      InOrderLists(Run(ops[..n], c, true));
      assert RepeatClose(ops, c, n);
      SameAnswer(Run(ops[..n], c, true), ops[n], c);
    }
  }

  lemma SameAnswer(l: Ledger, op: Op, c: G.Config)
    requires ListsRecent(l)
    requires IdOf(op).Some? && IdOf(op).value in l.recorded ==> IdOf(op).value in l.q.seen
    ensures Step(l, op, c, false) == Step(l, op, c, true)
  {
    hide Recent;
    if IdOf(op).Some? && IdOf(op).value in l.q.seen {
      SeenIsRecorded(l, IdOf(op).value);
    }
  }

  /** And not otherwise: on a line, the bounded and the unbounded list differ exactly when the
      line's digest has fallen out of the window. */
  lemma ForgottenLineReturns(l: Ledger, raw: Bytes, c: G.Config)
    requires ListsRecent(l)
    ensures Step(l, Absorb(raw), c, false) != Step(l, Absorb(raw), c, true) <==>
      LineDigest(raw) in l.recorded && LineDigest(raw) !in Recent(l.recorded, MAX_SEEN)
  {
    hide Recent;
    if LineDigest(raw) in l.q.seen {
      SeenIsRecorded(l, LineDigest(raw));
    }
    assert |l.recorded + [LineDigest(raw)]| > |l.recorded|;
  }
}

/** The two delivery channels' queues and the lists they share
    (native/discord-monitor.py:218-229, 470-489, 599-653). */
module DeliveryQueue {
  import opened Options
  import opened Sequences
  import opened Records
  import G = DiscordGovernor

  const MAX_SEEN := 2048
  const MAX_PENDING := 256
  const MAX_DEAD := 128

  /** What an id is the SHA-256 of, read off its preimage: a whole log line, the same with the
      suffix of an immediate alert, or a flushed cluster. */
  datatype Id = LineDigest(raw: Bytes) | AlertId(raw: Bytes)
              | FlushId(key: string, createdAt: real, lastActivityAt: real, events: nat)

  datatype Channel = Legacy | Intel

  datatype Both<T> = Both(legacy: T, intel: T) {
    function Of(ch: Channel): T {
      if ch == Legacy then legacy else intel
    }

    function With(ch: Channel, x: T): Both<T> {
      if ch == Legacy then Both(x, intel) else Both(legacy, x)
    }
  }

  datatype Item = Item(id: Id, payload: string)

  datatype Reason = QueueLimit | CredentialUnavailable | DeliveryUncertain | RestartSuppressed

  datatype Fate = Delivered | DeadLettered(reason: Reason)

  datatype Settled = Settled(item: Item, fate: Fate)

  datatype DeadLetter = DeadLetter(id: Id, reason: Reason)

  /** The part of the state dict that concerns delivery. */
  datatype Queues = Queues(seen: seq<Id>, dead: seq<DeadLetter>, pending: Both<seq<Item>>)

  const Empty := Queues([], [], Both([], []))

  function AppendBounded<T>(items: seq<T>, x: T, limit: nat): seq<T> {
    var longer := items + [x];
    if |longer| > limit then longer[|longer| - limit..] else longer
  }

  function Record(q: Queues, id: Id): Queues {
    q.(seen := AppendBounded(q.seen, id, MAX_SEEN))
  }

  /** The bookkeeping for one item that left its queue. */
  function Settle(q: Queues, s: Settled): Queues {
    var filed := if s.fate.Delivered? then q
      else q.(dead := AppendBounded(q.dead, DeadLetter(s.item.id, s.fate.reason), MAX_DEAD));
    Record(filed, s.item.id)
  }

  function SettleAll(q: Queues, ss: seq<Settled>): (r: Queues)
    ensures r.pending == q.pending
  {
    if ss == [] then q else Settle(SettleAll(q, ss[..|ss| - 1]), ss[|ss| - 1])
  }

  predicate Holds(items: seq<Item>, id: Id) {
    exists i :: 0 <= i < |items| && items[i].id == id
  }

  predicate Accepts(q: Queues, ch: Channel, id: Id) {
    id !in q.seen && !Holds(q.pending.Of(ch), id)
  }

  function Dropped(pending: seq<Item>): seq<Settled> {
    if |pending| >= MAX_PENDING then [Settled(pending[0], DeadLettered(QueueLimit))] else []
  }

  /** Make room by dropping the oldest, then append. */
  function Push(q: Queues, ch: Channel, item: Item): Queues {
    var pending := q.pending.Of(ch);
    var gone := Dropped(pending);
    SettleAll(q, gone).(pending := q.pending.With(ch, pending[|gone|..] + [item]))
  }

  /** enqueue_pending: an id already seen or already pending is refused. */
  function Enqueue(q: Queues, ch: Channel, item: Item): Queues {
    if Accepts(q, ch, item.id) then Push(q, ch, item) else q
  }

  function AllSettled(items: seq<Item>, reason: Reason): (r: seq<Settled>)
    ensures |r| == |items| && forall i :: 0 <= i < |r| ==> r[i] == Settled(items[i], DeadLettered(reason))
  {
    seq(|items|, i requires 0 <= i < |items| => Settled(items[i], DeadLettered(reason)))
  }

  /** load_state: whatever was pending when the process stopped is never sent. */
  function Restart(q: Queues): Queues {
    var after := SettleAll(q, AllSettled(q.pending.legacy, RestartSuppressed));
    SettleAll(after, AllSettled(q.pending.intel, RestartSuppressed)).(pending := Both([], []))
  }

  /** What became of one POST: a 2xx, a 429, any other status or no response at all, or an exception
      that post_payload does not catch. */
  datatype Answer = Accepted | TooMany(retryAfter: Option<real>) | Other | Uncaught

  /** Where else an exception may end a turn: in the save before the POST, in posting the digest, in
      the save after the item was settled. */
  datatype Cut = Whole | FirstSave | DigestPost | LastSave

  /** The clock readings and the outcome of one turn of the drain loop. */
  datatype Turn = Turn(checkedAt: real, attemptAt: real, answer: Answer, answeredAt: real, digestAt: real, cut: Cut)

  /** `saved` is the channel's queue in the state file when the POST was sent. */
  datatype Entry = Post(item: Item, at: real, answer: Answer, answeredAt: real, saved: seq<Item>)
                 | Blocked(depth: nat)
                 | Digest(suppressed: nat, at: real)

  /** `saved` tells how many of the settled items the state file knows of, if it was written at all;
      `raised` whether an exception ended it. */
  datatype Drained = Drained(pending: seq<Item>, settled: seq<Settled>, governor: G.Governor, log: seq<Entry>,
                             stopped: bool, turns: nat, saved: Option<nat>, raised: bool)

  function Digests(g: G.Governor, t: Turn): seq<Entry> {
    if g.degraded && g.suppressed > 0 then [Digest(g.suppressed, t.digestAt)] else []
  }

  /** The item is settled, and unless the last save raises the file knows. */
  function Settling(pending: seq<Item>, fate: Fate, g: G.Governor, log: seq<Entry>, cut: Cut): Drained
    requires pending != []
  {
    var lost := cut == LastSave;
    Drained(pending[1..], [Settled(pending[0], fate)], g, log, lost, 1, Some(if lost then 0 else 1), lost)
  }

  /** One turn of the send loop: held back, or one POST and what its answer means. */
  function SendOnce(pending: seq<Item>, g: G.Governor, c: G.Config, t: Turn): (d: Drained)
    requires pending != []
    ensures d.turns == 1
  {
    if !G.CanSend(g, t.checkedAt) then
      Drained(pending, [], G.NoteBlocked(g, |pending|), [Blocked(|pending|)], true, 1, None, false)
    else
      var sent := G.NoteAttempt(g, c, t.attemptAt);
      var post := Post(pending[0], t.attemptAt, t.answer, t.answeredAt, pending);
      if t.cut == FirstSave then Drained(pending, [], sent, [], true, 1, None, true) else
      match t.answer
      case Uncaught => Drained(pending, [], sent, [post], true, 1, Some(0), true)
      case TooMany(s) =>
        Drained(pending, [], G.NoteRateLimited(sent, c, s, t.answeredAt), [post], true, 1, Some(0), false)
      case Accepted =>
        var digests := Digests(sent, t);
        if digests != [] && t.cut == DigestPost then
          Drained(pending, [], G.NoteSuccess(sent), [post] + digests, true, 1, Some(0), true)
        else Settling(pending, Delivered, G.NoteSuccess(sent), [post] + digests, t.cut)
      case Other => Settling(pending, DeadLettered(DeliveryUncertain), sent, [post], t.cut)
  }

  /** Each turn that does not stop the loop shortens the queue. */
  lemma SendOnceShrinks(pending: seq<Item>, g: G.Governor, c: G.Config, t: Turn)
    requires pending != []
    ensures var d := SendOnce(pending, g, c, t);
      && ItemsOf(d.settled) + d.pending == pending
      && |d.pending| == |pending| - |d.settled| && (!d.stopped ==> |d.settled| == 1)
      && SavedSome(d)
  {
    hide G.CanSend, G.NoteAttempt, G.NoteBlocked, G.NoteSuccess, G.NoteRateLimited, Digests;
    var d := SendOnce(pending, g, c, t);
    if d.settled == [] {
      assert d.pending == pending;
    } else {
      assert d.pending == pending[1..] && ItemsOf(d.settled) == [pending[0]];
    }
  }

  /** Its only POST, if there is one, comes first. */
  lemma SendOnceLog(pending: seq<Item>, g: G.Governor, c: G.Config, t: Turn)
    requires pending != []
    ensures var d := SendOnce(pending, g, c, t);
      && (d.log == [] ==> d.stopped) && (d.log != [] ==> d.log[0].Post? || d.stopped)
      && (d.log != [] && d.log[0].Post? ==> d.log[0].item == pending[0] && d.log[0].saved == pending)
      && (forall i :: 0 < i < |d.log| ==> d.log[i].Digest?)
  {
    hide G.CanSend, G.NoteAttempt, G.NoteBlocked, G.NoteSuccess, G.NoteRateLimited;
  }

  predicate SavedSome(d: Drained) {
    d.saved.Some? ==> d.saved.value <= |d.settled|
  }

  function Then(first: Drained, rest: Drained): Drained {
    Drained(rest.pending, first.settled + rest.settled, rest.governor, first.log + rest.log, rest.stopped, rest.turns,
            if rest.saved.Some? then Some(|first.settled| + rest.saved.value) else first.saved, rest.raised)
  }

  /** The send loop from its k-th turn on; `turns` counts those used up. */
  function DrainLoop(pending: seq<Item>, g: G.Governor, c: G.Config, env: nat -> Turn, k: nat): (d: Drained)
    ensures d.turns >= k
    decreases |pending|
  {
    if pending == [] then Drained([], [], g, [], false, k, None, false) else
      var d := SendOnce(pending, g, c, env(k)).(turns := k + 1);
      SendOnceShrinks(pending, g, c, env(k));
      if d.stopped then d else Then(d, DrainLoop(d.pending, d.governor, c, env, k + 1))
  }

  /** drain_pending on one channel. Without a webhook there is one save, after everything was settled. */
  function Drain(pending: seq<Item>, g: G.Governor, c: G.Config, credential: bool, env: nat -> Turn, k: nat): Drained {
    if credential then DrainLoop(pending, g, c, env, k) else
      var lost := pending != [] && env(k).cut == LastSave;
      Drained([], AllSettled(pending, CredentialUnavailable), g, [], false, k,
              if pending == [] || lost then None else Some(|pending|), lost)
  }

  function AfterDrain(q: Queues, ch: Channel, d: Drained): Queues {
    SettleAll(q, d.settled).(pending := q.pending.With(ch, d.pending))
  }

  /** What the state file holds after a drain that began with `q` in memory and `disk` in the file. */
  function InFile(q: Queues, disk: Queues, ch: Channel, d: Drained): Queues
    requires SavedSome(d) && |d.settled| <= |q.pending.Of(ch)|
  {
    match d.saved
    case None => disk
    case Some(n) => SettleAll(q, d.settled[..n]).(pending := q.pending.With(ch, q.pending.Of(ch)[n..]))
  }

  function ItemsOf(ss: seq<Settled>): (r: seq<Item>)
    ensures |r| == |ss| && forall i :: 0 <= i < |r| ==> r[i] == ss[i].item
  {
    seq(|ss|, i requires 0 <= i < |ss| => ss[i].item)
  }

  /** Items leave from the head only: what was settled, followed by what stays, is what was there. */
  lemma {:induction false} DrainKeepsOrder(pending: seq<Item>, g: G.Governor, c: G.Config, credential: bool,
      env: nat -> Turn, k: nat)
    ensures var d := Drain(pending, g, c, credential, env, k);
      ItemsOf(d.settled) + d.pending == pending
    decreases |pending|
  {
    hide SendOnce;
    if credential && pending != [] {
      SendOnceShrinks(pending, g, c, env(k));
      var d := SendOnce(pending, g, c, env(k)).(turns := k + 1);
      if !d.stopped {
        DrainKeepsOrder(d.pending, d.governor, c, true, env, k + 1);
        var rest := DrainLoop(d.pending, d.governor, c, env, k + 1);
        assert ItemsOf(d.settled + rest.settled) == ItemsOf(d.settled) + ItemsOf(rest.settled);
      }
    }
  }

  predicate SavedBefore(e: Entry) {
    e.Post? ==> e.saved != [] && e.saved[0] == e.item
  }

  /** Every POST is preceded by a save that still holds the item, at the head of its queue. */
  lemma {:induction false} SavedBeforeEveryPost(pending: seq<Item>, g: G.Governor, c: G.Config, credential: bool,
      env: nat -> Turn, k: nat)
    ensures forall e :: e in Drain(pending, g, c, credential, env, k).log ==> SavedBefore(e)
    decreases |pending|
  {
    hide SendOnce;
    if credential && pending != [] {
      SendOnceShrinks(pending, g, c, env(k));
      SendOnceLog(pending, g, c, env(k));
      var d := SendOnce(pending, g, c, env(k)).(turns := k + 1);
      if !d.stopped {
        SavedBeforeEveryPost(d.pending, d.governor, c, true, env, k + 1);
      }
    }
  }

  lemma {:induction false} SettleAppend(q: Queues, a: seq<Settled>, b: seq<Settled>)
    ensures SettleAll(SettleAll(q, a), b) == SettleAll(q, a + b)
  {
    hide Settle;
    if b == [] {
      assert a + b == a;
    } else {
      assert (a + b)[..|a + b| - 1] == a + b[..|b| - 1];
      SettleAppend(q, a, b[..|b| - 1]);
    }
  }

  /** Settling neither reads nor writes the queues. */
  lemma {:induction false} SettleFrame(q: Queues, pending: Both<seq<Item>>, ss: seq<Settled>)
    ensures SettleAll(q.(pending := pending), ss) == SettleAll(q, ss).(pending := pending)
  {
    if ss != [] {
      SettleFrame(q, pending, ss[..|ss| - 1]);
    }
  }

  lemma SettleOne(q: Queues, s: Settled)
    ensures SettleAll(q, [s]) == Settle(q, s)
  {
    assert [s][..0] == [];
  }

  lemma ThenAssociates(a: Drained, b: Drained, c: Drained)
    ensures Then(a, Then(b, c)) == Then(Then(a, b), c)
  {
    assert a.settled + (b.settled + c.settled) == a.settled + b.settled + c.settled;
    assert a.log + (b.log + c.log) == a.log + b.log + c.log;
  }

  lemma NothingBefore(none: Drained, d: Drained)
    requires none.settled == [] && none.log == [] && none.saved == None
    ensures Then(none, d) == d
  {
  }

  lemma NothingAfter(d: Drained)
    ensures d.pending == [] && !d.stopped && !d.raised ==>
      Then(d, Drained([], [], d.governor, [], false, d.turns, None, false)) == d
  {
  }

  /** One more turn, in both ways of accounting for it. */
  lemma TurnsTogether(q: Queues, ch: Channel, done: Drained, pending: seq<Item>, g: G.Governor, c: G.Config,
      env: nat -> Turn, k: nat)
    requires pending != []
    ensures var d := SendOnce(pending, g, c, env(k)).(turns := k + 1);
      && AfterDrain(AfterDrain(q, ch, done), ch, SendOnce(pending, g, c, env(k))) == AfterDrain(q, ch, Then(done, d))
      && Then(done, DrainLoop(pending, g, c, env, k)) ==
         (if d.stopped then Then(done, d) else Then(Then(done, d), DrainLoop(d.pending, d.governor, c, env, k + 1)))
  {
    hide SendOnce, AfterDrain, Then;
    var d := SendOnce(pending, g, c, env(k)).(turns := k + 1);
    TurnsIgnored(q, ch, done, d);
    SettledTogether(q, ch, done, SendOnce(pending, g, c, env(k)));
    SendOnceShrinks(pending, g, c, env(k));
    if !d.stopped {
      ThenAssociates(done, d, DrainLoop(d.pending, d.governor, c, env, k + 1));
    }
  }

  lemma TurnsIgnored(q: Queues, ch: Channel, a: Drained, d: Drained)
    ensures forall n :: AfterDrain(q, ch, Then(a, d.(turns := n))) == AfterDrain(q, ch, Then(a, d))
  {
  }

  lemma EmptyLoop(g: G.Governor, c: G.Config, env: nat -> Turn, k: nat)
    ensures DrainLoop([], g, c, env, k) == Drained([], [], g, [], false, k, None, false)
  {
  }

  lemma AfterDrainPending(q: Queues, ch: Channel, d: Drained)
    ensures AfterDrain(q, ch, d).pending.Of(ch) == d.pending
  {
  }

  lemma NothingSettled(q: Queues, ch: Channel, d: Drained)
    ensures d.settled == [] && d.pending == q.pending.Of(ch) ==> AfterDrain(q, ch, d) == q
  {
  }

  lemma SettledTogether(q: Queues, ch: Channel, first: Drained, rest: Drained)
    ensures AfterDrain(AfterDrain(q, ch, first), ch, rest) == AfterDrain(q, ch, Then(first, rest))
  {
    SettleAppend(q, first.settled, rest.settled);
    SettleFrame(SettleAll(q, first.settled), q.pending.With(ch, first.pending), rest.settled);
  }

  lemma RaisedStops(pending: seq<Item>, g: G.Governor, c: G.Config, t: Turn)
    requires pending != []
    ensures SendOnce(pending, g, c, t).raised ==> SendOnce(pending, g, c, t).stopped
  {
  }

  lemma NothingInFile(q: Queues, disk: Queues, ch: Channel, d: Drained)
    ensures SavedSome(d) && d.settled == [] ==> InFile(q, disk, ch, d) == if d.saved.None? then disk else q
  {
    if d.settled == [] {
      assert q.pending.With(ch, q.pending.Of(ch)[0..]) == q.pending;
    }
  }

  lemma OneInFile(q: Queues, disk: Queues, ch: Channel, d: Drained)
    requires SavedSome(d) && |d.settled| <= |q.pending.Of(ch)|
    requires d.pending == q.pending.Of(ch)[|d.settled|..]
    ensures d.saved == Some(|d.settled|) ==> InFile(q, disk, ch, d) == AfterDrain(q, ch, d)
    ensures d.saved == Some(0) ==> InFile(q, disk, ch, d) == q
  {
    hide Settle;
    assert d.settled[..|d.settled|] == d.settled && d.settled[..0] == [];
    assert q.pending.With(ch, q.pending.Of(ch)[0..]) == q.pending;
  }

  lemma AllInFile(q: Queues, disk: Queues, ch: Channel, d: Drained)
    requires d.settled == AllSettled(q.pending.Of(ch), CredentialUnavailable) && d.pending == []
    requires SavedSome(d)
    ensures d.saved == Some(|d.settled|) ==> InFile(q, disk, ch, d) == AfterDrain(q, ch, d)
  {
    hide Settle;
    assert d.settled[..|d.settled|] == d.settled && q.pending.Of(ch)[|d.settled|..] == [];
  }

  lemma ItemsTogether(a: seq<Settled>, b: seq<Settled>, pending: seq<Item>, rest: seq<Item>, all: seq<Item>)
    requires ItemsOf(a) + pending == all && ItemsOf(b) + rest == pending
    ensures ItemsOf(a + b) + rest == all
  {
    assert ItemsOf(a + b) == ItemsOf(a) + ItemsOf(b);
    Regroup(ItemsOf(a), ItemsOf(b), rest);
  }

  /** The file after some turns and one more, in both ways of accounting for it. */
  lemma FileTogether(q: Queues, disk: Queues, ch: Channel, done: Drained, d: Drained, k: nat)
    requires SavedSome(done) && SavedSome(d)
    requires ItemsOf(done.settled) + done.pending == q.pending.Of(ch) && ItemsOf(d.settled) + d.pending == done.pending
    ensures var both := Then(done, d.(turns := k));
      && SavedSome(both) && ItemsOf(both.settled) + both.pending == q.pending.Of(ch)
      && AfterDrain(q, ch, done).pending.Of(ch) == done.pending
      && InFile(q, disk, ch, both) == InFile(AfterDrain(q, ch, done), InFile(q, disk, ch, done), ch, d)
  {
    hide Settle, ItemsOf;
    var both := Then(done, d.(turns := k));
    ItemsTogether(done.settled, d.settled, done.pending, d.pending, q.pending.Of(ch));
    if d.saved.Some? {
      var a, n := done.settled, d.saved.value;
      assert both.settled[..|a| + n] == a + d.settled[..n];
      assert q.pending.Of(ch)[|a| + n..] == done.pending[n..];
      SettleAppend(q, a, d.settled[..n]);
      SettleFrame(SettleAll(q, a), q.pending.With(ch, done.pending), d.settled[..n]);
    } else if done.saved.Some? {
      assert both.settled[..done.saved.value] == done.settled[..done.saved.value];
    }
  }

  /** The monitor's state dict with the file save_state writes. */
  class MonitorState {
    var seen: seq<Id>
    var dead: seq<DeadLetter>
    var pending: Both<seq<Item>>
    var disk: Queues

    function Contents(): Queues
      reads this
    {
      Queues(seen, dead, pending)
    }

    constructor ()
      ensures Contents() == Empty && disk == Empty
    {
      seen, dead, pending, disk := [], [], Both([], []), Empty;
    }

    method SaveState()
      modifies `disk
      ensures disk == Contents()
    {
      disk := Contents();
    }

    method RecordSeen(id: Id)
      modifies `seen
      ensures Contents() == Record(old(Contents()), id)
    {
      seen := seen + [id];
      if |seen| > MAX_SEEN {
        seen := seen[|seen| - MAX_SEEN..];
      }
    }

    method BuryItem(id: Id, reason: Reason)
      modifies `dead, `seen
      ensures forall item: Item :: item.id == id ==> Contents() == Settle(old(Contents()), Settled(item,
          DeadLettered(reason)))
    {
      dead := dead + [DeadLetter(id, reason)];
      if |dead| > MAX_DEAD {
        dead := dead[|dead| - MAX_DEAD..];
      }
      RecordSeen(id);
    }

    method EnqueuePending(item: Item, ch: Channel)
      modifies `seen, `dead, `pending
      ensures Contents() == Enqueue(old(Contents()), ch, item)
    {
      hide Settle;
      var queue := pending.Of(ch);
      if item.id in seen || Holds(queue, item.id) {
        return;
      }
      ghost var gone := Dropped(queue);
      if |queue| >= MAX_PENDING {
        BuryItem(queue[0].id, QueueLimit);
        SettleOne(old(Contents()), Settled(queue[0], DeadLettered(QueueLimit)));
        queue := queue[1..];
      }
      pending := pending.With(ch, queue + [item]);
      assert queue == old(pending).Of(ch)[|gone|..];
    }

    /** load_state's suppression of one channel. */
    method SuppressPending(ch: Channel)
      modifies `seen, `dead, `pending
      ensures Contents() ==
        SettleAll(old(Contents()), AllSettled(old(pending).Of(ch),
            RestartSuppressed)).(pending := old(pending).With(ch, []))
    {
      hide Settle;
      var queue := pending.Of(ch);
      var n := 0;
      ghost var all := AllSettled(queue, RestartSuppressed);
      while n < |queue|
        invariant 0 <= n <= |queue| && pending == old(pending)
        invariant Contents() == SettleAll(old(Contents()), all[..n])
      {
        assert all[..n + 1][..n] == all[..n];
        BuryItem(queue[n].id, RestartSuppressed);
        n := n + 1;
      }
      assert all[..n] == all;
      pending := pending.With(ch, []);
    }

    method LoadState()
      modifies `seen, `dead, `pending
      ensures Contents() == Restart(old(Contents()))
    {
      hide SettleAll, AllSettled;
      ghost var q := Contents();
      SuppressPending(Legacy);
      SuppressPending(Intel);
      SettleFrame(SettleAll(q, AllSettled(q.pending.legacy, RestartSuppressed)), Both([], q.pending.intel),
        AllSettled(q.pending.intel, RestartSuppressed));
    }

    /** The whole queue goes when the channel has no webhook. */
    method BuryAll(ch: Channel)
      modifies `seen, `dead, `pending
      ensures Contents() ==
        SettleAll(old(Contents()), AllSettled(old(pending).Of(ch),
            CredentialUnavailable)).(pending := old(pending).With(ch, []))
    {
      hide Settle;
      ghost var was := pending.Of(ch);
      ghost var all := AllSettled(was, CredentialUnavailable);
      ghost var n := 0;
      while pending.Of(ch) != []
        invariant 0 <= n <= |was| && pending == old(pending).With(ch, was[n..])
        invariant Contents() == SettleAll(old(Contents()), all[..n]).(pending := pending)
        decreases |pending.Of(ch)|
      {
        assert all[..n + 1][..n] == all[..n];
        var item := pending.Of(ch)[0];
        pending := pending.With(ch, pending.Of(ch)[1..]);
        ghost var q := Contents();
        BuryItem(item.id, CredentialUnavailable);
        SettleOne(q, all[n]);
        SettleOne(SettleAll(old(Contents()), all[..n]), all[n]);
        SettleFrame(SettleAll(old(Contents()), all[..n]), pending, [all[n]]);
        n := n + 1;
      }
      assert all[..n] == all;
    }

    /** The head of the queue leaves it, for the lists its fate asks for. */
    method SettleFirst(ch: Channel, fate: Fate)
      requires pending.Of(ch) != []
      modifies `seen, `dead, `pending
      ensures Contents() ==
        SettleAll(old(Contents()), [Settled(old(pending).Of(ch)[0], fate)])
          .(pending := old(pending).With(ch, old(pending).Of(ch)[1..]))
    {
      hide AppendBounded;
      var item := pending.Of(ch)[0];
      SettleOne(Contents(), Settled(item, fate));
      if fate.Delivered? {
        RecordSeen(item.id);
      } else {
        BuryItem(item.id, fate.reason);
      }
      pending := pending.With(ch, pending.Of(ch)[1..]);
    }

    method TakeTurn(ch: Channel, governor: G.DiscordRateGovernor, t: Turn)
      returns (log: seq<Entry>, stop: bool, raised: bool)
      requires pending.Of(ch) != []
      modifies this, governor
      ensures var d := SendOnce(old(pending).Of(ch), old(governor.State()), governor.config, t);
        && Contents() == AfterDrain(old(Contents()), ch, d)
        && log == d.log && stop == d.stopped && raised == d.raised && governor.State() == d.governor
        && SavedSome(d) && |d.settled| <= |old(pending).Of(ch)|
        && disk == InFile(old(Contents()), old(disk), ch, d)
    {
      hide G.CanSend, G.NoteAttempt, G.NoteBlocked, G.NoteSuccess, G.NoteRateLimited, G.Clamped, Settle;
      ghost var q := Contents();
      ghost var d := SendOnce(pending.Of(ch), governor.State(), governor.config, t);
      var queue := pending.Of(ch);
      assert pending.With(ch, queue) == pending;
      NothingInFile(q, disk, ch, d);
      NothingSettled(q, ch, d);
      var ok := governor.MaySend(t.checkedAt);
      if !ok {
        governor.NoteHeldBack(|queue|);
        return [Blocked(|queue|)], true, false;
      }
      var item := queue[0];
      governor.NoteSendAttempt(t.attemptAt);
      if t.cut == FirstSave {
        return [], true, true;
      }
      SaveState();
      log := [Post(item, t.attemptAt, t.answer, t.answeredAt, disk.pending.Of(ch))];
      match t.answer {
        case Uncaught =>
          return log, true, true;
        case Accepted =>
          var recovered, suppressed := governor.NoteDelivered();
          if recovered && suppressed > 0 {
            log := log + [Digest(suppressed, t.digestAt)];
            if t.cut == DigestPost {
              return log, true, true;
            }
          }
          SettleFirst(ch, Delivered);
        case TooMany(retryAfter) =>
          var newly := governor.NoteLimited(retryAfter, t.answeredAt);
          return log, true, false;
        case Other =>
          SettleFirst(ch, DeadLettered(DeliveryUncertain));
      }
      OneInFile(q, old(disk), ch, d);
      if t.cut == LastSave {
        return log, true, true;
      }
      SaveState();
      return log, false, false;
    }

    method SendLoop(ch: Channel, governor: G.DiscordRateGovernor, env: nat -> Turn)
      returns (log: seq<Entry>, raised: bool)
      modifies this, governor
      ensures var d := DrainLoop(old(pending).Of(ch), old(governor.State()), governor.config, env, 0);
        && Contents() == AfterDrain(old(Contents()), ch, d)
        && log == d.log && raised == d.raised && governor.State() == d.governor
        && SavedSome(d) && |d.settled| <= |old(pending).Of(ch)|
        && disk == InFile(old(Contents()), old(disk), ch, d)
    {
      hide SendOnce, SettleAll, AfterDrain, DrainLoop, InFile;
      ghost var c := governor.config;
      ghost var goal := DrainLoop(pending.Of(ch), governor.State(), c, env, 0);
      ghost var done := Drained(pending.Of(ch), [], governor.State(), [], false, 0, None, false);
      NothingSettled(Contents(), ch, done);
      NothingBefore(done, goal);
      NothingInFile(Contents(), disk, ch, done);
      var k, stop := 0, false;
      log, raised := [], false;
      while pending.Of(ch) != [] && !stop
        invariant done.pending == pending.Of(ch) && done.governor == governor.State() && done.log == log
        invariant done.stopped == stop && done.turns == k && done.raised == raised && (raised ==> stop)
        invariant Contents() == AfterDrain(old(Contents()), ch, done)
        invariant goal == if stop then done else Then(done, DrainLoop(pending.Of(ch), governor.State(), c, env, k))
        invariant SavedSome(done) && ItemsOf(done.settled) + done.pending == old(pending).Of(ch)
        invariant disk == InFile(old(Contents()), old(disk), ch, done)
        decreases !stop, |pending.Of(ch)|
      {
        ghost var q, queue, g, f := Contents(), pending.Of(ch), governor.State(), disk;
        ghost var d := SendOnce(queue, g, c, env(k));
        SendOnceShrinks(queue, g, c, env(k));
        var entries: seq<Entry>;
        entries, stop, raised := TakeTurn(ch, governor, env(k));
        log := log + entries;
        k := k + 1;
        AfterDrainPending(q, ch, d);
        AfterDrainPending(old(Contents()), ch, done);
        FileTogether(old(Contents()), old(disk), ch, done, d, k);
        TurnsTogether(old(Contents()), ch, done, queue, g, c, env, k - 1);
        RaisedStops(queue, g, c, env(k - 1));
        done := Then(done, d.(turns := k));
      }
      NothingAfter(done);
      EmptyLoop(done.governor, c, env, k);
    }

    method DrainPending(ch: Channel, credential: bool, governor: G.DiscordRateGovernor, env: nat -> Turn)
      returns (log: seq<Entry>, raised: bool)
      modifies this, governor
      ensures var d := Drain(old(pending).Of(ch), old(governor.State()), governor.config, credential, env, 0);
        && Contents() == AfterDrain(old(Contents()), ch, d)
        && log == d.log && raised == d.raised && governor.State() == d.governor
        && SavedSome(d) && |d.settled| <= |old(pending).Of(ch)|
        && disk == InFile(old(Contents()), old(disk), ch, d)
    {
      hide Settle, SendOnce, AllSettled;
      ghost var q := Contents();
      ghost var d := Drain(pending.Of(ch), governor.State(), governor.config, credential, env, 0);
      if pending.Of(ch) == [] {
        NothingSettled(q, ch, d);
        return [], false;
      }
      if !credential {
        BuryAll(ch);
        AllInFile(q, disk, ch, d);
        if env(0).cut == LastSave {
          return [], true;
        }
        SaveState();
        return [], false;
      }
      log, raised := SendLoop(ch, governor, env);
    }
  }
}

/** What every step keeps true of the state dict: ids are accepted by a queue at most once, and a
    flushed cluster is either awaited or has had its summary accepted
    (native/discord-monitor.py:476-489, 492-596, 803-823). */
module MonitorQueues {
  import opened Options
  import opened OrderedDict
  import opened Records
  import opened DeliveryQueue
  import opened MonitorProtocol
  import L = DeliveryLedger
  import SC = SessionClusters

  predicate NoDup<T(==)>(s: seq<T>) {
    forall i, j :: 0 <= i < j < |s| ==> s[i] != s[j]
  }

  predicate Listed(items: seq<Item>, ids: seq<Id>) {
    forall i :: 0 <= i < |items| ==> items[i].id in ids
  }

  predicate SeenListed(seen: seq<Id>, ids: seq<Id>) {
    forall id :: id in seen ==> id.LineDigest? || id in ids
  }

  /** Queues and `seen` only know ids that some queue accepted, and lines. */
  predicate QueueOk(q: Queues, ids: seq<Id>) {
    && L.Fits(Legacy, q.pending.legacy) && L.Fits(Intel, q.pending.intel)
    && L.UniqueIds(q.pending.legacy) && L.UniqueIds(q.pending.intel)
    && Listed(q.pending.legacy, ids) && Listed(q.pending.intel, ids)
    && SeenListed(q.seen, ids)
  }

  /** An accepted alert is about an absorbed line, an accepted summary about a flushed cluster. */
  predicate Explained(m: Durable, id: Id) {
    match id
    case LineDigest(_) => false
    case AlertId(raw) => raw in m.fed
    case FlushId(_, _, _, _) => id in m.flushed && !Has(m.awaiting, id)
  }

  predicate EnqueuedOk(m: Durable) {
    NoDup(m.enqueued) && forall id :: id in m.enqueued ==> Explained(m, id)
  }

  predicate AwaitOk(m: Durable) {
    && Unique(m.awaiting) && NoDup(m.flushed)
    && (forall i :: 0 <= i < |m.awaiting| ==> m.awaiting[i].0 == FlushIdOf(m.awaiting[i].1))
    && (forall i :: 0 <= i < |m.awaiting| ==> m.awaiting[i].0 in m.flushed)
    && (forall k :: k in m.flushed ==> k.FlushId? && (k in m.enqueued || Has(m.awaiting, k)))
  }

  predicate DurableOk(m: Durable) {
    QueueOk(m.queues, m.enqueued) && EnqueuedOk(m) && AwaitOk(m)
  }

  lemma NoDupAppend<T>(s: seq<T>, x: T)
    requires NoDup(s) && x !in s
    ensures NoDup(s + [x])
  {
  }

  lemma SettledListed(q: Queues, ss: seq<Settled>, ids: seq<Id>)
    requires SeenListed(q.seen, ids) && Listed(ItemsOf(ss), ids)
    ensures SeenListed(SettleAll(q, ss).seen, ids)
  {
    hide SettleAll;
    forall id | id in SettleAll(q, ss).seen
      ensures id.LineDigest? || id in ids
    {
      L.SeenGrowsBy(q, ss, id);
      if id !in q.seen {
        var i :| 0 <= i < |ss| && ss[i].item.id == id;
        assert ItemsOf(ss)[i].id == id;
      }
    }
  }

  /** A queue split into what is settled and what stays. */
  lemma PartOk(ch: Channel, pending: seq<Item>, gone: seq<Settled>, rest: seq<Item>, ids: seq<Id>)
    requires ItemsOf(gone) + rest == pending
    requires L.Fits(ch, pending) && L.UniqueIds(pending) && Listed(pending, ids)
    ensures L.Fits(ch, rest) && L.UniqueIds(rest) && Listed(rest, ids) && Listed(ItemsOf(gone), ids)
    ensures forall id :: Holds(rest, id) ==> Holds(pending, id)
  {
    assert forall i :: 0 <= i < |rest| ==> rest[i] == pending[|gone| + i];
    assert forall i :: 0 <= i < |gone| ==> ItemsOf(gone)[i] == pending[i];
  }

  lemma SettledQueueOk(q: Queues, ch: Channel, gone: seq<Settled>, rest: seq<Item>, ids: seq<Id>)
    requires QueueOk(q, ids) && ItemsOf(gone) + rest == q.pending.Of(ch)
    ensures QueueOk(SettleAll(q, gone).(pending := q.pending.With(ch, rest)), ids)
    ensures forall id :: Holds(rest, id) ==> Holds(q.pending.Of(ch), id)
  {
    hide SettleAll, ItemsOf, Listed, SeenListed, L.Fits, L.UniqueIds, Holds;
    PartOk(ch, q.pending.Of(ch), gone, rest, ids);
    SettledListed(q, gone, ids);
  }

  lemma MoreIds(q: Queues, ids: seq<Id>, id: Id)
    requires QueueOk(q, ids)
    ensures QueueOk(q, ids + [id])
  {
  }

  lemma AppendItem(ch: Channel, items: seq<Item>, item: Item, ids: seq<Id>)
    requires L.Fits(ch, items) && L.UniqueIds(items) && Listed(items, ids) && item.id !in ids
    requires L.Fits(ch, [item])
    ensures var longer := items + [item];
      L.Fits(ch, longer) && L.UniqueIds(longer) && Listed(longer, ids + [item.id])
    ensures forall id :: Holds(items + [item], id) ==> Holds(items, id) || id == item.id
  {
    assert [item][0] == item;
    var longer := items + [item];
    assert forall i :: 0 <= i < |items| ==> longer[i] == items[i];
  }

  lemma NewIdAccepted(q: Queues, ch: Channel, item: Item, ids: seq<Id>)
    requires QueueOk(q, ids) && item.id !in ids && !item.id.LineDigest?
    ensures Accepts(q, ch, item.id)
  {
  }

  /** An id no queue has accepted before is accepted now, and nothing else changes. */
  lemma OfferOk(m: Durable, ch: Channel, item: Item)
    requires QueueOk(m.queues, m.enqueued) && item.id !in m.enqueued && L.Fits(ch, [item])
    ensures var m' := Offer(m, ch, item);
      && m' == m.(queues := m'.queues, enqueued := m.enqueued + [item.id])
      && QueueOk(m'.queues, m'.enqueued)
      && forall id :: id != item.id ==> PendingNowhere(m.queues, id) ==> PendingNowhere(m'.queues, id)
  {
    hide SettleAll, ItemsOf, Listed, SeenListed, L.Fits, L.UniqueIds, Dropped, Accepts, Holds;
    FitsOne(ch, item);
    NewIdAccepted(m.queues, ch, item, m.enqueued);
    var pending := m.queues.pending.Of(ch);
    L.DroppedPrefix(pending);
    var gone := Dropped(pending);
    var rest := pending[|gone|..];
    SettledQueueOk(m.queues, ch, gone, rest, m.enqueued);
    var q := SettleAll(m.queues, gone).(pending := m.queues.pending.With(ch, rest));
    MoreIds(q, m.enqueued, item.id);
    AppendItem(ch, rest, item, m.enqueued);
  }

  lemma FitsOne(ch: Channel, item: Item)
    requires L.Fits(ch, [item])
    ensures !item.id.LineDigest?
  {
    assert [item][0] == item;
  }

  predicate PendingNowhere(q: Queues, id: Id) {
    !Holds(q.pending.legacy, id) && !Holds(q.pending.intel, id)
  }

  /** Enqueuing the summary of an awaited cluster moves its id from awaited to enqueued. */
  lemma SummaryOk(m: Durable, c: SC.Cluster, enrichment: Option<string>, cfg: Config)
    requires DurableOk(m) && Has(m.awaiting, FlushIdOf(c))
    ensures var m' := EnqueueSummary(m, c, enrichment, cfg);
      && DurableOk(m') && m'.enqueued == m.enqueued + [FlushIdOf(c)]
      && m'.flushed == m.flushed && m'.fed == m.fed && m'.awaiting == Del(m.awaiting, FlushIdOf(c))
      && forall id :: id in m.enqueued ==> PendingNowhere(m.queues, id) ==> PendingNowhere(m'.queues, id)
  {
    hide Offer, QueueOk, NoDup, Del;
    var id := FlushIdOf(c);
    assert !Explained(m, id);
    OfferOk(m, Intel, Item(id, cfg.render(c, enrichment))) by {
      FlushItemFits(c, cfg.render(c, enrichment));
    }
    NoDupAppend(m.enqueued, id);
    DelUnique(m.awaiting, id);
    DelKeeps(m.awaiting, id);
    var left := Del(m.awaiting, id);
    forall i | 0 <= i < |left|
      ensures left[i].0 == FlushIdOf(left[i].1) && left[i].0 in m.flushed
    {
      assert left[i] in m.awaiting;
    }
  }

  lemma FlushItemFits(c: SC.Cluster, payload: string)
    ensures L.Fits(Intel, [Item(FlushIdOf(c), payload)])
  {
  }

  lemma DelKeeps<K, V>(d: Dict<K, V>, k: K)
    requires Unique(d)
    ensures forall j :: j != k ==> (Has(Del(d, k), j) <==> Has(d, j))
    ensures forall x :: x in Del(d, k) ==> x in d
  {
    var i, r := Index(d, k), Del(d, k);
    if i < |d| {
      assert forall n :: 0 <= n < |r| ==> r[n] == if n < i then d[n] else d[n + 1];
      forall j | j != k
        ensures Has(r, j) <==> Has(d, j)
      {
        if Has(d, j) {
          var n := Index(d, j);
          assert n != i && d[n] == if n < i then r[n] else r[n - 1];
        }
      }
    }
  }

  function Noted(m: Durable, c: SC.Cluster): Durable {
    m.(awaiting := Put(m.awaiting, FlushIdOf(c), c), flushed := m.flushed + [FlushIdOf(c)])
  }

  /** Noting a newly flushed cluster as awaited. */
  lemma NoteOk(m: Durable, c: SC.Cluster)
    requires DurableOk(m) && FlushIdOf(c) !in m.flushed
    ensures var m' := Noted(m, c);
      DurableOk(m') && Has(m'.awaiting, FlushIdOf(c)) && m'.awaiting == m.awaiting + [(FlushIdOf(c), c)]
  {
    hide QueueOk, NoDup;
    var id := FlushIdOf(c);
    assert !Has(m.awaiting, id) && id !in m.enqueued;
    PutUnique(m.awaiting, id, c);
    NoDupAppend(m.flushed, id);
  }

  /** One line, not fed before. */
  lemma LineOk(m: Durable, manager: SC.Clusters, line: Bytes, now: real, cfg: Config, source: Option<Position>)
    requires DurableOk(m) && line !in m.fed
    ensures var m' := QueueLine(m, manager, line, now, cfg).0.(source := source, fed := m.fed + [line]);
      && DurableOk(m') && m'.flushed == m.flushed && m'.awaiting == m.awaiting
      && Grows(m.enqueued, m'.enqueued)
      && forall id :: id in m.enqueued ==> PendingNowhere(m.queues, id) ==> PendingNowhere(m'.queues, id)
  {
    hide Offer, QueueOk, NoDup, Record, SC.Observed, Alerting, Alerted, AwaitOk, Holds;
    if LineDigest(line) !in m.queues.seen {
      RecordOk(m.queues, line, m.enqueued);
      var marked := m.(queues := Record(m.queues, LineDigest(line)));
      assert !Explained(m, AlertId(line));
      var e := cfg.decode(line);
      if e.Some? && cfg.alert(e.value).Some? {
        var after := SC.Observed(manager, e.value, now, cfg.limits.window, cfg.limits.maxCommands);
        AlertItemFits(line, cfg.alert(e.value).value);
        OfferOk(marked.(clusters := after), Legacy, Item(AlertId(line), cfg.alert(e.value).value));
        NoDupAppend(m.enqueued, AlertId(line));
      }
    }
    AwaitFrame(m, QueueLine(m, manager, line, now, cfg).0.(source := source, fed := m.fed + [line]));
  }

  lemma AlertItemFits(line: Bytes, payload: string)
    ensures L.Fits(Legacy, [Item(AlertId(line), payload)])
  {
  }

  predicate Grows(ids: seq<Id>, ids': seq<Id>) {
    forall id :: id in ids ==> id in ids'
  }

  lemma AwaitFrame(m: Durable, m': Durable)
    requires AwaitOk(m)
    ensures m'.awaiting == m.awaiting && m'.flushed == m.flushed && Grows(m.enqueued, m'.enqueued) ==> AwaitOk(m')
  {
  }

  lemma RecordOk(q: Queues, line: Bytes, ids: seq<Id>)
    requires QueueOk(q, ids)
    ensures QueueOk(Record(q, LineDigest(line)), ids) && Record(q, LineDigest(line)).pending == q.pending
  {
  }

  /** The state dict after its queues settled some items. */
  lemma QueuesOnly(m: Durable, q: Queues)
    requires DurableOk(m) && QueueOk(q, m.enqueued)
    ensures DurableOk(m.(queues := q))
  {
    hide QueueOk, NoDup;
  }

  lemma SettleHeadOk(m: Durable, ch: Channel, fate: Fate)
    requires DurableOk(m) && m.queues.pending.Of(ch) != []
    ensures var m' := SettleHead(m, ch, fate);
      && DurableOk(m') && m'.enqueued == m.enqueued && m'.awaiting == m.awaiting && m'.flushed == m.flushed
      && PendingNowhere(m'.queues, m.queues.pending.Of(ch)[0].id)
      && forall id :: PendingNowhere(m.queues, id) ==> PendingNowhere(m'.queues, id)
  {
    hide Settle, QueueOk, NoDup, Holds, AwaitOk, EnqueuedOk;
    var pending := m.queues.pending.Of(ch);
    var s := Settled(pending[0], fate);
    assert ItemsOf([s]) + pending[1..] == pending;
    SettledQueueOk(m.queues, ch, [s], pending[1..], m.enqueued);
    SettleOne(m.queues, s);
    QueuesOnly(m, Settle(m.queues, s).(pending := m.queues.pending.With(ch, pending[1..])));
    HeadAlone(m.queues, ch, m.enqueued);
  }

  lemma HeadAlone(q: Queues, ch: Channel, ids: seq<Id>)
    requires QueueOk(q, ids) && q.pending.Of(ch) != []
    ensures var id := q.pending.Of(ch)[0].id;
      && !Holds(q.pending.Of(ch)[1..], id) && id in ids
      && !Holds(if ch == Legacy then q.pending.intel else q.pending.legacy, id)
  {
  }

  lemma AllGoneOk(m: Durable, ch: Channel)
    requires DurableOk(m)
    ensures var pending := m.queues.pending.Of(ch);
      var q := SettleAll(m.queues, AllSettled(pending, CredentialUnavailable)).(pending := m.queues.pending.With(ch,
          []));
      && DurableOk(m.(queues := q))
      && forall id :: PendingNowhere(m.queues, id) ==> PendingNowhere(q, id)
  {
    hide SettleAll, QueueOk, NoDup, AwaitOk, EnqueuedOk, AllSettled;
    var pending := m.queues.pending.Of(ch);
    L.AllSettledItems(pending, CredentialUnavailable);
    SettledQueueOk(m.queues, ch, AllSettled(pending, CredentialUnavailable), [], m.enqueued);
    QueuesOnly(m, SettleAll(m.queues, AllSettled(pending,
        CredentialUnavailable)).(pending := m.queues.pending.With(ch, [])));
  }

  lemma RestartOk(m: Durable)
    requires DurableOk(m)
    ensures DurableOk(m.(queues := Restart(m.queues)))
    ensures forall id :: PendingNowhere(Restart(m.queues), id)
  {
    hide SettleAll, QueueOk, NoDup, AwaitOk, EnqueuedOk, AllSettled;
    var q := m.queues;
    var a, b := AllSettled(q.pending.legacy, RestartSuppressed), AllSettled(q.pending.intel, RestartSuppressed);
    L.AllSettledItems(q.pending.legacy, RestartSuppressed);
    L.AllSettledItems(q.pending.intel, RestartSuppressed);
    SettledQueueOk(q, Legacy, a, [], m.enqueued);
    var half := SettleAll(q, a).(pending := Both([], q.pending.intel));
    SettledQueueOk(half, Intel, b, [], m.enqueued);
    SettleFrame(SettleAll(q, a), Both([], q.pending.intel), b);
    QueuesOnly(m, Restart(q));
  }

  predicate Recovered(m: Durable, r: Durable) {
    && r.flushed == m.flushed && r.fed == m.fed && Grows(m.enqueued, r.enqueued)
    && forall id :: id in m.enqueued ==> PendingNowhere(m.queues, id) ==> PendingNowhere(r.queues, id)
  }

  lemma SummaryRecovers(m: Durable, x: Task, cfg: Config)
    requires DurableOk(m) && x in m.awaiting
    ensures var r := EnqueueSummary(m, x.1, None, cfg);
      DurableOk(r) && Recovered(m, r) && multiset(r.awaiting) + multiset{x} == multiset(m.awaiting)
  {
    hide DurableOk, PendingNowhere, EnqueueSummary, Del, Get;
    AwaitedEntry(m, x);
    SummaryOk(m, x.1, None, cfg);
    DelEntry(m, x);
  }

  lemma RecoveredChain(a: Durable, b: Durable, c: Durable)
    requires Recovered(a, b) && Recovered(b, c)
    ensures Recovered(a, c)
  {
    hide PendingNowhere;
  }

  lemma LastWithin<T>(s: seq<T>, d: seq<T>, rest: seq<T>)
    requires s != [] && multiset(s) <= multiset(d) && multiset(rest) == multiset(d) - multiset(s[..|s| - 1])
    ensures multiset(s[..|s| - 1]) <= multiset(d) && s[|s| - 1] in rest
    ensures multiset(d) - multiset(s) == multiset(rest) - multiset{s[|s| - 1]}
  {
    var x := s[|s| - 1];
    assert s == s[..|s| - 1] + [x];
    assert multiset(s)[x] == multiset(s[..|s| - 1])[x] + 1;
    assert x in multiset(rest);
  }

  /** Recovery turns every awaited cluster into an accepted summary, in whatever order. */
  lemma {:induction false} RecoverOk(m: Durable, entries: seq<Task>, cfg: Config)
    requires DurableOk(m) && multiset(entries) <= multiset(m.awaiting)
    ensures var r := RecoverAll(m, entries, cfg);
      DurableOk(r) && Recovered(m, r) && multiset(r.awaiting) == multiset(m.awaiting) - multiset(entries)
  {
    hide DurableOk, EnqueueSummary, Recovered;
    if entries == [] {
      RecoveredSelf(m);
    } else {
      var init, x := entries[..|entries| - 1], entries[|entries| - 1];
      assert entries == init + [x];
      RecoverOk(m, init, cfg);
      var before := RecoverAll(m, init, cfg);
      LastWithin(entries, m.awaiting, before.awaiting);
      SummaryRecovers(before, x, cfg);
      RecoveredChain(m, before, EnqueueSummary(before, x.1, None, cfg));
    }
  }

  lemma RecoveredSelf(m: Durable)
    ensures Recovered(m, m)
  {
  }

  lemma AwaitedEntry(m: Durable, x: Task)
    requires DurableOk(m) && x in m.awaiting
    ensures x.0 == FlushIdOf(x.1) && Has(m.awaiting, x.0) && Get(m.awaiting, x.0) == x.1
  {
    var i :| 0 <= i < |m.awaiting| && m.awaiting[i] == x;
    IndexAt(m.awaiting, i);
  }

  lemma DelEntry(m: Durable, x: Task)
    requires DurableOk(m) && x in m.awaiting
    ensures multiset(Del(m.awaiting, FlushIdOf(x.1))) + multiset{x} == multiset(m.awaiting)
  {
    AwaitedEntry(m, x);
    DelUnique(m.awaiting, x.0);
  }
}

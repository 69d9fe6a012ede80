/** What becomes of the items of a queue: their fates follow from the answers to their POSTs, and the shared
    lists hold the latest of everything that was settled (native/discord-monitor.py:218-229, 470-489,
    599-653). */
module DeliveryFates {
  import opened Options
  import opened DeliveryQueue
  import G = DiscordGovernor

  function Posts(log: seq<Entry>): (r: seq<Entry>)
    ensures forall e :: e in r ==> e.Post?
  {
    if log == [] then [] else (if log[0].Post? then [log[0]] else []) + Posts(log[1..])
  }

  lemma {:induction false} PostsConcat(a: seq<Entry>, b: seq<Entry>)
    ensures Posts(a + b) == Posts(a) + Posts(b)
  {
    if a == [] {
      assert a + b == b;
    } else {
      assert (a + b)[1..] == a[1..] + b;
      PostsConcat(a[1..], b);
    }
  }

  /** The item of this POST was settled as its answer asks: delivered after a 2xx, and a dead letter of
      uncertain delivery after any other answer but a 429. */
  predicate SettledBy(s: Settled, e: Entry) {
    && e.Post? && s.item == e.item
    && ((e.answer.Accepted? && s.fate == Delivered) || (e.answer.Other? && s.fate == DeadLettered(DeliveryUncertain)))
  }

  /** A POST that leaves its item where it is: answered with a 429, not answered at all, or accepted when
      posting the digest then raised. */
  predicate LeavesPending(e: Entry, d: Drained) {
    && e.Post? && d.stopped && d.pending != [] && e.item == d.pending[0]
    && (e.answer.TooMany? ==> !d.raised) && (!e.answer.TooMany? ==> d.raised)
    && !e.answer.Other?
  }

  /** The settled items are those of the first POSTs, in order; one more POST at most was sent. */
  predicate Fated(d: Drained) {
    var posts := Posts(d.log);
    && |d.settled| <= |posts| <= |d.settled| + 1
    && (forall n :: 0 <= n < |d.settled| ==> SettledBy(d.settled[n], posts[n]))
    && (|posts| > |d.settled| ==> LeavesPending(posts[|d.settled|], d))
    && (!d.stopped ==> d.pending == [])
  }

  lemma TurnFated(pending: seq<Item>, g: G.Governor, c: G.Config, t: Turn)
    requires pending != []
    ensures var d := SendOnce(pending, g, c, t);
      && |d.settled| <= |Posts(d.log)| <= |d.settled| + 1
      && (forall n :: 0 <= n < |d.settled| ==> SettledBy(d.settled[n], Posts(d.log)[n]))
      && (|Posts(d.log)| > |d.settled| ==> LeavesPending(Posts(d.log)[|d.settled|], d))
      && (!d.stopped ==> |Posts(d.log)| == |d.settled|)
  {
    hide G.CanSend, G.NoteAttempt, G.NoteBlocked, G.NoteSuccess, G.NoteRateLimited, Posts;
    SmallLog(SendOnce(pending, g, c, t).log);
  }

  lemma SmallLog(log: seq<Entry>)
    ensures log == [] ==> Posts(log) == []
    ensures |log| == 1 ==> Posts(log) == if log[0].Post? then [log[0]] else []
    ensures |log| == 2 && log[0].Post? && log[1].Digest? ==> Posts(log) == [log[0]]
  {
    if |log| == 1 {
      assert log[1..] == [];
    } else if |log| == 2 {
      assert log[1..] == [log[1]] && log[1..][1..] == [];
    }
  }

  /** In every drain with a webhook, fates follow answers: the n-th settled item is that of the n-th POST,
      delivered if that was accepted and a dead letter if it failed; a 429 settles nothing and ends the
      drain, as an exception does; and a drain that nothing ends empties the queue. */
  lemma {:induction false} FatesFollowAnswers(pending: seq<Item>, g: G.Governor, c: G.Config, env: nat -> Turn, k: nat)
    ensures Fated(DrainLoop(pending, g, c, env, k))
    decreases |pending|
  {
    hide SendOnce, SettledBy;
    if pending != [] {
      var d := SendOnce(pending, g, c, env(k));
      SendOnceShrinks(pending, g, c, env(k));
      TurnFated(pending, g, c, env(k));
      if !d.stopped {
        FatesFollowAnswers(d.pending, d.governor, c, env, k + 1);
        PostsConcat(d.log, DrainLoop(d.pending, d.governor, c, env, k + 1).log);
      }
    }
  }

  /** When no save raises, the file knows of everything that was settled. */
  lemma {:induction false} FileKeepsUp(pending: seq<Item>, g: G.Governor, c: G.Config, env: nat -> Turn, k: nat)
    requires forall n :: env(n).cut == Whole
    ensures var d := DrainLoop(pending, g, c, env, k);
      if d.saved.Some? then d.saved.value == |d.settled| else d.settled == []
    decreases |pending|
  {
    hide G.CanSend, G.NoteAttempt, G.NoteBlocked, G.NoteSuccess, G.NoteRateLimited, Digests;
    if pending != [] {
      var d := SendOnce(pending, g, c, env(k));
      SendOnceShrinks(pending, g, c, env(k));
      if !d.stopped {
        FileKeepsUp(d.pending, d.governor, c, env, k + 1);
      }
    }
  }

  /** Without a webhook nothing is sent: the whole queue becomes dead letters, in order. */
  lemma NothingSentWithoutWebhook(pending: seq<Item>, g: G.Governor, c: G.Config, env: nat -> Turn, k: nat)
    ensures var d := Drain(pending, g, c, false, env, k);
      && d.log == [] && d.pending == [] && d.governor == g && |d.settled| == |pending|
      && forall n :: 0 <= n < |pending| ==> d.settled[n] == Settled(pending[n], DeadLettered(CredentialUnavailable))
  {
  }

  // The shared lists.

  /** The last n of them. */
  function Latest<T>(xs: seq<T>, n: nat): seq<T> {
    if |xs| <= n then xs else xs[|xs| - n..]
  }

  lemma LatestSnoc<T>(xs: seq<T>, x: T, n: nat)
    requires n > 0
    ensures AppendBounded(Latest(xs, n), x, n) == Latest(xs + [x], n)
  {
  }

  function IdsOf(ss: seq<Settled>): (r: seq<Id>)
    ensures |r| == |ss| && forall i :: 0 <= i < |r| ==> r[i] == ss[i].item.id
  {
    seq(|ss|, i requires 0 <= i < |ss| => ss[i].item.id)
  }

  /** The dead letters among them. */
  function LettersOf(ss: seq<Settled>): seq<DeadLetter> {
    if ss == [] then [] else
      var n := |ss| - 1;
      if ss[n].fate.Delivered? then LettersOf(ss[..n])
      else LettersOf(ss[..n]) + [DeadLetter(ss[n].item.id, ss[n].fate.reason)]
  }

  predicate Bounded(q: Queues) {
    |q.seen| <= 2048 && |q.dead| <= 128
  }

  /** What settling any items leaves: the last 2048 ids, the last 128 dead letters, the queues as they were. */
  lemma {:induction false} SettledLists(q: Queues, ss: seq<Settled>)
    requires Bounded(q)
    ensures var q' := SettleAll(q, ss);
      && q'.seen == Latest(q.seen + IdsOf(ss), 2048)
      && q'.dead == Latest(q.dead + LettersOf(ss), 128)
      && q'.pending == q.pending && Bounded(q')
  {
    hide AppendBounded, Latest;
    if ss == [] {
      NoneLatest(q.seen, 2048);
      NoneLatest(q.dead, 128);
      assert IdsOf(ss) == [];
    } else {
      var n := |ss| - 1;
      SettledLists(q, ss[..n]);
      assert IdsOf(ss) == IdsOf(ss[..n]) + [ss[n].item.id];
      LatestSnoc(q.seen + IdsOf(ss[..n]), ss[n].item.id, 2048);
      assert q.seen + IdsOf(ss[..n]) + [ss[n].item.id] == q.seen + IdsOf(ss);
      if ss[n].fate.DeadLettered? {
        var letter := DeadLetter(ss[n].item.id, ss[n].fate.reason);
        LatestSnoc(q.dead + LettersOf(ss[..n]), letter, 128);
        assert q.dead + LettersOf(ss[..n]) + [letter] == q.dead + LettersOf(ss);
      }
      LatestBounded(q.seen + IdsOf(ss), 2048);
      LatestBounded(q.dead + LettersOf(ss), 128);
    }
  }

  lemma NoneLatest<T>(xs: seq<T>, n: nat)
    requires |xs| <= n
    ensures Latest(xs + [], n) == xs
  {
    assert xs + [] == xs;
  }

  lemma LatestBounded<T>(xs: seq<T>, n: nat)
    ensures |Latest(xs, n)| <= n
  {
  }

  /** enqueue_pending, in full: an id among the last ones seen or in this queue changes nothing; a queue of
      fewer than 256 takes the item at its end; a full one first loses its oldest item, which becomes a dead
      letter and counts as seen. The other channel's queue is never touched. */
  lemma EnqueueDecides(q: Queues, ch: Channel, item: Item)
    requires Bounded(q) && |q.pending.Of(ch)| <= 256
    ensures var q', queue := Enqueue(q, ch, item), q.pending.Of(ch);
      var other := if ch == Legacy then Intel else Legacy;
      && q'.pending.Of(other) == q.pending.Of(other) && |q'.pending.Of(ch)| <= 256 && Bounded(q')
      && if item.id in q.seen || exists x :: x in queue && x.id == item.id then q' == q
         else if |queue| < 256 then
           q'.seen == q.seen && q'.dead == q.dead && q'.pending.Of(ch) == queue + [item]
         else
           && q'.seen == Latest(q.seen + [queue[0].id], 2048)
           && q'.dead == Latest(q.dead + [DeadLetter(queue[0].id, QueueLimit)], 128)
           && q'.pending.Of(ch) == queue[1..] + [item]
  {
    hide AppendBounded, Latest;
    var queue := q.pending.Of(ch);
    assert Holds(queue, item.id) <==> exists x :: x in queue && x.id == item.id by {
      if x :| x in queue && x.id == item.id {
        var i :| 0 <= i < |queue| && queue[i] == x;
      }
    }
    if Accepts(q, ch, item.id) {
      SettledLists(q, Dropped(queue));
      if |queue| == 256 {
        var lost := Settled(queue[0], DeadLettered(QueueLimit));
        assert IdsOf([lost]) == [queue[0].id];
        assert [lost][..0] == [] && LettersOf([lost]) == [DeadLetter(queue[0].id, QueueLimit)];
      } else {
        NoneLatest(q.seen, 2048);
        NoneLatest(q.dead, 128);
        assert SettleAll(q, []) == q;
        assert queue[0..] == queue;
      }
    }
  }

  function Suppressed(items: seq<Item>): (r: seq<DeadLetter>)
    ensures |r| == |items| && forall i :: 0 <= i < |r| ==> r[i] == DeadLetter(items[i].id, RestartSuppressed)
  {
    seq(|items|, i requires 0 <= i < |items| => DeadLetter(items[i].id, RestartSuppressed))
  }

  function ItemIds(items: seq<Item>): (r: seq<Id>)
    ensures |r| == |items| && forall i :: 0 <= i < |r| ==> r[i] == items[i].id
  {
    seq(|items|, i requires 0 <= i < |items| => items[i].id)
  }

  lemma {:induction false} AllSettledLetters(items: seq<Item>)
    ensures var ss := AllSettled(items, RestartSuppressed);
      LettersOf(ss) == Suppressed(items) && IdsOf(ss) == ItemIds(items)
  {
    if items != [] {
      var n := |items| - 1;
      assert AllSettled(items, RestartSuppressed)[..n] == AllSettled(items[..n], RestartSuppressed);
      AllSettledLetters(items[..n]);
      assert Suppressed(items) == Suppressed(items[..n]) + [DeadLetter(items[n].id, RestartSuppressed)];
    }
  }

  /** Keeping the last n twice is keeping the last n once. */
  lemma LatestTwice<T>(xs: seq<T>, ys: seq<T>, n: nat)
    ensures Latest(Latest(xs, n) + ys, n) == Latest(xs + ys, n)
  {
  }

  lemma BothTogether(q: Queues, a: seq<Item>, b: seq<Item>)
    ensures q.seen + ItemIds(a) + ItemIds(b) == q.seen + ItemIds(a + b)
    ensures q.dead + Suppressed(a) + Suppressed(b) == q.dead + Suppressed(a + b)
  {
  }

  /** A restart empties both queues; everything that was pending becomes a dead letter, the legacy channel's
      first, and counts as seen. */
  lemma {:induction false} RestartDecides(q: Queues)
    requires Bounded(q)
    ensures var q' := Restart(q);
      var pending := q.pending.legacy + q.pending.intel;
      && q'.pending == Both([], [])
      && q'.seen == Latest(q.seen + ItemIds(pending), 2048)
      && q'.dead == Latest(q.dead + Suppressed(pending), 128)
  {
    hide Latest, Settle, SettleAll, AllSettled, IdsOf, LettersOf, ItemIds, Suppressed;
    var a, b := q.pending.legacy, q.pending.intel;
    var first := SettleAll(q, AllSettled(a, RestartSuppressed));
    SettledLists(q, AllSettled(a, RestartSuppressed));
    SettledLists(first, AllSettled(b, RestartSuppressed));
    AllSettledLetters(a);
    AllSettledLetters(b);
    LatestTwice(q.seen + ItemIds(a), ItemIds(b), 2048);
    LatestTwice(q.dead + Suppressed(a), Suppressed(b), 128);
    BothTogether(q, a, b);
  }
}

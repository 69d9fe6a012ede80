/** `put_once` and `verify_object` (native/s3-archive.py:251-377) against a versioned bucket
    that honours `If-None-Match: *`: whatever the network answers, a normal return means the
    stored body has the expected digest, and no key is ever written twice. */
module WriteOnceStore {
  import opened Options
  import opened Evidence

  /** Every version ever stored under each key, oldest first. */
  type Bucket = map<Key, seq<Body>>

  const MAX_PUT_ATTEMPTS := 4

  datatype Error = AccessDenied | TransientFailure | Failed | Killed

  /** What happens to one PUT. `Answered` requests are evaluated by the server; a transient
      failure or a process death may come before or after the server evaluated the request. */
  datatype PutFate =
    | Answered(reply: Reply)
    | Conflict                     // 409
    | Transient(reached: bool)     // 5xx, timeouts, connection loss: the response is lost
    | Denied                       // 403
    | Rejected                     // any other client error
    | Death(reached: bool)         // the process dies during the request

  /** The fields of a success response that the client checks. */
  datatype Reply = WellFormed | Malformed | VersionMissing | ChecksumDiffers

  /** What happens to one GET, whose body is otherwise the stored one. */
  datatype GetFate =
    | Served(checksum: Option<Digest>)
    | GetDenied | GetTransient | GetRejected | GetVersionMissing | BodyMalformed | BodyInterrupted | GetDeath

  datatype Verified = Intact(version: nat) | Unverified(error: Error)

  datatype Result = Stored(version: nat, existing: bool) | Raised(error: Error)

  datatype Outcome = Outcome(bucket: Bucket, result: Result, attempts: nat, slept: nat)

  datatype Script = Script(puts: nat -> PutFate, get: GetFate)

  predicate WellStored(b: Bucket) {
    forall k :: k in b ==> b[k] != []
  }

  /** A conditional PUT evaluated by the server: creates the object or leaves everything alone. */
  function Evaluate(b: Bucket, key: Key, body: Body, digest: Digest): Bucket {
    if key in b || Sha256(body) != digest then b else b[key := [body]]
  }

  function Verify(b: Bucket, key: Key, digest: Digest, version: Option<nat>, addressed: bool, fate: GetFate): Verified
    requires WellStored(b)
  {
    if addressed && !ContentAddressMatches(key, digest) then Unverified(Failed) else
    match fate
    case GetDenied => Unverified(AccessDenied)
    case GetTransient => Unverified(TransientFailure)
    case GetRejected => Unverified(Failed)
    case GetVersionMissing => Unverified(Failed)
    case BodyMalformed => Unverified(Failed)
    case BodyInterrupted => Unverified(TransientFailure)
    case GetDeath => Unverified(Killed)
    case Served(checksum) =>
      if key !in b then Unverified(Failed) else
      var current := match version case None => |b[key]| - 1 case Some(v) => v;
      if current >= |b[key]| then Unverified(Failed)
      else if checksum.Some? && checksum.value != digest then Unverified(Failed)
      else if Sha256(b[key][current]) != digest then Unverified(Failed)
      else Intact(current)
  }

  function Returned(v: Verified, existing: bool): Result {
    match v case Intact(version) => Stored(version, existing) case Unverified(e) => Raised(e)
  }

  function Backoff(attempt: nat): nat
    requires 1 <= attempt <= MAX_PUT_ATTEMPTS
  {
    // min(8, 2 ** (attempt - 1))
    if attempt == 1 then 1 else if attempt == 2 then 2 else if attempt == 3 then 4 else 8
  }

  /** One round of the retry loop: the bucket afterwards, and the result unless it retries. */
  function Round(b: Bucket, key: Key, body: Body, digest: Digest, fate: PutFate, get: GetFate): (r: (Bucket,
      Option<Result>))
    requires WellStored(b)
    ensures WellStored(r.0)
  {
    match fate
    case Answered(reply) =>
      var b' := Evaluate(b, key, body, digest);
      if key in b then (b', Some(Returned(Verify(b', key, digest, None, !key.ManifestKey?, get), true)))
      else if Sha256(body) != digest || reply != WellFormed then (b', Some(Raised(Failed)))
      else (b', Some(Returned(Verify(b', key, digest, Some(|b'[key]| - 1), !key.ManifestKey?, get), false)))
    case Denied => (b, Some(Raised(AccessDenied)))
    case Rejected => (b, Some(Raised(Failed)))
    case Death(reached) => (if reached then Evaluate(b, key, body, digest) else b, Some(Raised(Killed)))
    case Conflict => (b, None)
    case Transient(reached) => (if reached then Evaluate(b, key, body, digest) else b, None)
  }

  /** The retry loop from its attempt-th round on. */
  function PutFrom(b: Bucket, key: Key, body: Body, digest: Digest, script: Script, attempt: nat,
      slept: nat): (o: Outcome)
    requires WellStored(b) && 1 <= attempt <= MAX_PUT_ATTEMPTS
    ensures WellStored(o.bucket)
    decreases MAX_PUT_ATTEMPTS - attempt
  {
    var (b', result) := Round(b, key, body, digest, script.puts(attempt), script.get);
    if result.Some? then Outcome(b', result.value, attempt, slept)
    else if attempt == MAX_PUT_ATTEMPTS then Outcome(b', Raised(TransientFailure), attempt, slept)
    else PutFrom(b', key, body, digest, script, attempt + 1, slept + Backoff(attempt))
  }

  function PutOnce(b: Bucket, key: Key, body: Body, digest: Digest, script: Script): (o: Outcome)
    requires WellStored(b)
    ensures WellStored(o.bucket)
  {
    if !ContentAddressMatches(key, digest) && !key.ManifestKey? then Outcome(b, Raised(Failed), 0, 0)
    else PutFrom(b, key, body, digest, script, 1, 0)
  }

  lemma NextRound(b: Bucket, key: Key, body: Body, digest: Digest, script: Script, attempt: nat, slept: nat)
    requires WellStored(b) && 1 <= attempt <= MAX_PUT_ATTEMPTS
    ensures var (b', result) := Round(b, key, body, digest, script.puts(attempt), script.get);
      PutFrom(b, key, body, digest, script, attempt, slept) ==
        if result.Some? then Outcome(b', result.value, attempt, slept)
        else if attempt == MAX_PUT_ATTEMPTS then Outcome(b', Raised(TransientFailure), attempt, slept)
        else PutFrom(b', key, body, digest, script, attempt + 1, slept + Backoff(attempt))
  {
    hide Round;
  }

  /** At most the one key is added, holding exactly one version: this body with this digest. */
  ghost predicate WritesAtMost(b: Bucket, b': Bucket, key: Key, body: Body, digest: Digest) {
    b' == b || (key !in b && Sha256(body) == digest && b' == b[key := [body]])
  }

  /** A result is honest when a return names a stored version with the expected digest, and
      `Existing: False` is only claimed for a key that was free. */
  ghost predicate Honest(b: Bucket, b': Bucket, key: Key, digest: Digest, result: Result) {
    result.Stored? ==>
      && key in b' && result.version < |b'[key]|
      && Sha256(b'[key][result.version]) == digest
      && (!result.existing ==> key !in b)
  }

  lemma RoundSafe(b: Bucket, key: Key, body: Body, digest: Digest, fate: PutFate, get: GetFate)
    requires WellStored(b)
    ensures var (b', result) := Round(b, key, body, digest, fate, get);
      && WritesAtMost(b, b', key, body, digest)
      && (result.Some? ==> Honest(b, b', key, digest, result.value))
  {
  }

  lemma {:induction false} PutFromSafe(b: Bucket, key: Key, body: Body, digest: Digest, script: Script,
      attempt: nat, slept: nat)
    requires WellStored(b) && 1 <= attempt <= MAX_PUT_ATTEMPTS
    requires slept + 1 == Backoff(attempt)
    ensures var o := PutFrom(b, key, body, digest, script, attempt, slept);
      && WritesAtMost(b, o.bucket, key, body, digest)
      && attempt <= o.attempts <= MAX_PUT_ATTEMPTS
      && o.slept + 1 == Backoff(o.attempts)
      && Honest(b, o.bucket, key, digest, o.result)
    decreases MAX_PUT_ATTEMPTS - attempt
  {
    hide Round;
    RoundSafe(b, key, body, digest, script.puts(attempt), script.get);
    var (b', result) := Round(b, key, body, digest, script.puts(attempt), script.get);
    if result.None? && attempt < MAX_PUT_ATTEMPTS {
      PutFromSafe(b', key, body, digest, script, attempt + 1, slept + Backoff(attempt));
    }
  }

  /** For every sequence of answers: a return means the expected digest is stored, at most one
      version of one key is created, and at most 4 PUTs and 7 seconds of backoff are spent. */
  lemma {:induction false} PutOnceSafe(b: Bucket, key: Key, body: Body, digest: Digest, script: Script)
    requires WellStored(b)
    ensures var o := PutOnce(b, key, body, digest, script);
      && WritesAtMost(b, o.bucket, key, body, digest)
      && o.attempts <= 4 && o.slept <= 7
      && (o.result.Stored? ==>
            && key in o.bucket && o.result.version < |o.bucket[key]|
            && Sha256(o.bucket[key][o.result.version]) == digest
            && (!o.result.existing ==> key !in b && o.bucket[key] == [body]))
  {
    hide PutFrom;
    if ContentAddressMatches(key, digest) || key.ManifestKey? {
      PutFromSafe(b, key, body, digest, script, 1, 0);
    }
  }

  /** A script under which the first PUT is answered properly and the GET is served. */
  predicate Healthy(script: Script, digest: Digest) {
    && script.puts(1) == Answered(WellFormed)
    && script.get.Served?
    && (script.get.checksum.Some? ==> script.get.checksum.value == digest)
  }

  /** With a healthy network, a PUT succeeds exactly when the key is free or its newest version
      already has the digest; otherwise it fails closed and changes nothing. */
  lemma {:induction false} PutOnceHealthy(b: Bucket, key: Key, body: Body, script: Script)
    requires WellStored(b) && Healthy(script, Sha256(body))
    requires key.ManifestKey? || ContentAddressMatches(key, Sha256(body))
    ensures var o := PutOnce(b, key, body, Sha256(body), script);
      && (o.result.Stored? <==> key !in b || b[key][|b[key]| - 1] == body)
      && (o.result.Stored? ==> o.result == Stored(if key in b then |b[key]| - 1 else 0, key in b))
      && o.bucket == (if key in b then b else b[key := [body]])
      && o.attempts == 1
  {
  }

  /** Retrying after any first attempt at all, including a lost response or a death after the
      server stored the object, converges: the same body is found as `Existing`. */
  lemma {:induction false} PutOnceRetry(b: Bucket, key: Key, body: Body, first: Script, second: Script)
    requires WellStored(b) && Healthy(second, Sha256(body))
    requires ContentAddressMatches(key, Sha256(body))
    requires key in b ==> b[key] == [body]
    ensures var o1 := PutOnce(b, key, body, Sha256(body), first);
      var o2 := PutOnce(o1.bucket, key, body, Sha256(body), second);
      && o2.result == Stored(0, key in o1.bucket)
      && o2.bucket == b[key := [body]]
  {
    PutOnceSafe(b, key, body, Sha256(body), first);
    PutOnceHealthy(PutOnce(b, key, body, Sha256(body), first).bucket, key, body, second);
    if key in b {
      assert b == b[key := [body]];
    }
  }

  /** A successful write that was never acknowledged is still found by the same call: after a
      lost response the 412 answer leads to the stored body, not to a second version. */
  lemma LostResponseThenPrecondition(b: Bucket, key: Key, body: Body, script: Script)
    requires WellStored(b) && key !in b && ContentAddressMatches(key, Sha256(body))
    requires script.puts(1) == Transient(true) && script.puts(2).Answered?
    requires script.get == Served(None)
    ensures PutOnce(b, key, body, Sha256(body), script) == Outcome(b[key := [body]], Stored(0, true), 2, 1)
  {
    var b' := b[key := [body]];
    assert Evaluate(b, key, body, Sha256(body)) == b';
    assert PutFrom(b', key, body, Sha256(body), script, 2, 1).result == Stored(0, true);
  }

  /** An answer after which the client sleeps and tries again. */
  predicate Retryable(fate: PutFate) {
    fate.Conflict? || fate.Transient?
  }

  /** One of the first n requests timed out only after the server had evaluated it. */
  ghost predicate Reached(script: Script, n: nat) {
    exists j :: 1 <= j <= n && script.puts(j) == Transient(true)
  }

  /** The bucket once the server has evaluated this body for a free key, or has not. */
  function StoredIf(b: Bucket, key: Key, body: Body, evaluated: bool): Bucket {
    if key !in b && evaluated then b[key := [body]] else b
  }

  /** What the GET after an answer makes of a call, `taken` being whether the key was found in use. */
  function Checked(script: Script, newest: Body, version: nat, body: Body, taken: bool): Result {
    match script.get
    case GetDenied => Raised(AccessDenied)
    case GetTransient => Raised(TransientFailure)
    case BodyInterrupted => Raised(TransientFailure)
    case GetDeath => Raised(Killed)
    case Served(checksum) =>
      if newest == body && (checksum == None || checksum == Some(Sha256(body))) then Stored(version, taken)
      else Raised(Failed)
    case _ => Raised(Failed)
  }

  /** A key that is not addressed by the digest, unless it is a manifest's, is refused before any request. */
  lemma PutOnceRefuses(b: Bucket, key: Key, body: Body, digest: Digest, script: Script)
    requires WellStored(b)
    ensures !key.ManifestKey? && key.tag != digest ==>
      PutOnce(b, key, body, digest, script) == Outcome(b, Raised(Failed), 0, 0)
  {
  }

  lemma {:induction false} Retries(b: Bucket, key: Key, body: Body, script: Script, n: nat)
    requires WellStored(b) && n < 4 && (key.ManifestKey? || ContentAddressMatches(key, Sha256(body)))
    requires forall j :: 1 <= j <= n ==> Retryable(script.puts(j))
    ensures WellStored(StoredIf(b, key, body, Reached(script, n)))
    ensures PutOnce(b, key, body, Sha256(body), script)
      == PutFrom(StoredIf(b, key, body, Reached(script, n)), key, body, Sha256(body), script, n + 1, [0, 1, 3, 7][n])
  {
    hide PutFrom, Round;
    if n > 0 {
      Retries(b, key, body, script, n - 1);
      var b' := StoredIf(b, key, body, Reached(script, n - 1));
      NextRound(b', key, body, Sha256(body), script, n, [0, 1, 3, 7][n - 1]);
      assert Retryable(script.puts(n));
      RetriedRound(b, b', key, body, script, n);
    }
  }

  lemma RetriedRound(b: Bucket, b': Bucket, key: Key, body: Body, script: Script, n: nat)
    requires WellStored(b) && 0 < n && b' == StoredIf(b, key, body, Reached(script, n - 1)) && WellStored(b')
    requires Retryable(script.puts(n))
    ensures Round(b', key, body, Sha256(body), script.puts(n), script.get)
      == (StoredIf(b, key, body, Reached(script, n)), None)
  {
    hide Reached;
    ReachedNext(script, n);
  }

  lemma ReachedNext(script: Script, n: nat)
    requires n > 0
    ensures Reached(script, n) <==> Reached(script, n - 1) || script.puts(n) == Transient(true)
  {
  }

  /** Every call of put_once, decided by its answers. If the first n < 4 requests get a 409, a 5xx or a
      timeout and the next one something else, exactly n + 1 requests are sent and 0, 1, 3 or 7 seconds slept.
      A 403, another error and a death end the call there; an answer is followed by a GET, unless the body
      was stored just now under a malformed reply. The key gets this body if it was free and any request
      reached the server, and it counts as existing if it was taken or a lost request had stored it. */
  lemma {:induction false} PutOnceDecides(b: Bucket, key: Key, body: Body, script: Script, n: nat)
    requires WellStored(b) && n < 4 && (key.ManifestKey? || ContentAddressMatches(key, Sha256(body)))
    requires (forall j :: 1 <= j <= n ==> Retryable(script.puts(j))) && !Retryable(script.puts(n + 1))
    ensures var o, last := PutOnce(b, key, body, Sha256(body), script), script.puts(n + 1);
      var lost := Reached(script, n);
      var evaluated := lost || last.Answered? || last == Death(true);
      && o.attempts == n + 1 && o.slept == [0, 1, 3, 7][n]
      && o.bucket == (if key !in b && evaluated then b[key := [body]] else b)
      && o.result ==
           match last
           case Denied => Raised(AccessDenied)
           case Death(_) => Raised(Killed)
           case Answered(reply) =>
             if key in b then Checked(script, b[key][|b[key]| - 1], |b[key]| - 1, body, true)
             else if !lost && reply != WellFormed then Raised(Failed)
             else Checked(script, body, 0, body, lost)
           case _ => Raised(Failed)
  {
    hide PutFrom, Round;
    Retries(b, key, body, script, n);
    var b' := StoredIf(b, key, body, Reached(script, n));
    NextRound(b', key, body, Sha256(body), script, n + 1, [0, 1, 3, 7][n]);
    LastRound(b, b', key, body, script, n);
  }

  lemma LastRound(b: Bucket, b': Bucket, key: Key, body: Body, script: Script, n: nat)
    requires WellStored(b) && (key.ManifestKey? || ContentAddressMatches(key, Sha256(body)))
    requires b' == StoredIf(b, key, body, Reached(script, n)) && WellStored(b') && !Retryable(script.puts(n + 1))
    ensures var (after, result) := Round(b', key, body, Sha256(body), script.puts(n + 1), script.get);
      var lost, last := Reached(script, n), script.puts(n + 1);
      && after == (if key !in b && (lost || last.Answered? || last == Death(true)) then b[key := [body]] else b)
      && result == Some(
           match last
           case Denied => Raised(AccessDenied)
           case Death(_) => Raised(Killed)
           case Answered(reply) =>
             if key in b then Checked(script, b[key][|b[key]| - 1], |b[key]| - 1, body, true)
             else if !lost && reply != WellFormed then Raised(Failed)
             else Checked(script, body, 0, body, lost)
           case _ => Raised(Failed))
  {
    hide Reached;
  }

  /** Four answers of that kind exhaust the retries: 4 requests, 7 seconds, and a transient failure; the
      body is stored nevertheless if one of them had reached the server. */
  lemma {:induction false} PutOnceExhausted(b: Bucket, key: Key, body: Body, script: Script)
    requires WellStored(b) && (key.ManifestKey? || ContentAddressMatches(key, Sha256(body)))
    requires forall j :: 1 <= j <= 4 ==> Retryable(script.puts(j))
    ensures PutOnce(b, key, body, Sha256(body), script)
      == Outcome(if key !in b && Reached(script, 4) then b[key := [body]] else b, Raised(TransientFailure), 4, 7)
  {
    hide PutFrom, Round;
    Retries(b, key, body, script, 3);
    var b' := StoredIf(b, key, body, Reached(script, 3));
    NextRound(b', key, body, Sha256(body), script, 4, 7);
    assert Retryable(script.puts(4));
    RetriedRound(b, b', key, body, script, 4);
  }

  /** The client and the bucket it talks to. */
  class EvidenceClient {
    var bucket: Bucket
    var requests: nat   // conditional PUTs sent so far
    var slept: nat      // seconds of backoff so far

    constructor ()
      ensures bucket == map[] && requests == 0 && slept == 0
    {
      bucket, requests, slept := map[], 0, 0;
    }

    method PutObject(key: Key, body: Body, digest: Digest, reached: bool)
      requires WellStored(bucket)
      modifies this`bucket, this`requests
      ensures WellStored(bucket) && requests == old(requests) + 1
      ensures bucket == if reached then Evaluate(old(bucket), key, body, digest) else old(bucket)
    {
      requests := requests + 1;
      if reached && key !in bucket && Sha256(body) == digest {
        bucket := bucket[key := [body]];
      }
    }

    method VerifyObject(key: Key, digest: Digest, version: Option<nat>, addressed: bool,
        fate: GetFate) returns (v: Verified)
      requires WellStored(bucket)
      ensures v == Verify(bucket, key, digest, version, addressed, fate)
      ensures v.Intact? ==> key in bucket && v.version < |bucket[key]| && Sha256(bucket[key][v.version]) == digest
    {
      if addressed && !ContentAddressMatches(key, digest) {
        return Unverified(Failed);
      }
      match fate {
        case GetDenied => v := Unverified(AccessDenied);
        case GetTransient => v := Unverified(TransientFailure);
        case BodyInterrupted => v := Unverified(TransientFailure);
        case GetDeath => v := Unverified(Killed);
        case Served(checksum) =>
          if key !in bucket {
            return Unverified(Failed);
          }
          var current := |bucket[key]| - 1;
          if version.Some? { current := version.value; }
          if current >= |bucket[key]| || (checksum.Some?
              && checksum.value != digest) || Sha256(bucket[key][current]) != digest {
            return Unverified(Failed);
          }
          v := Intact(current);
        case _ => v := Unverified(Failed);
      }
    }

    /** One attempt: the request, its answer, and the GET that an answer leads to. */
    method Attempt(key: Key, body: Body, digest: Digest, fate: PutFate, get: GetFate) returns (result: Option<Result>)
      requires WellStored(bucket)
      modifies this`bucket, this`requests
      ensures WellStored(bucket) && requests == old(requests) + 1
      ensures (bucket, result) == Round(old(bucket), key, body, digest, fate, get)
    {
      hide Verify, ContentAddressMatches, Returned, WellStored;
      match fate {
        case Answered(reply) =>
          var taken := key in bucket;
          PutObject(key, body, digest, true);
          if taken {
            var v := VerifyObject(key, digest, None, !key.ManifestKey?, get);
            return Some(Returned(v, true));
          }
          if Sha256(body) != digest || reply != WellFormed {
            return Some(Raised(Failed));
          }
          var v := VerifyObject(key, digest, Some(|bucket[key]| - 1), !key.ManifestKey?, get);
          return Some(Returned(v, false));
        case Denied =>
          PutObject(key, body, digest, false);
          return Some(Raised(AccessDenied));
        case Rejected =>
          PutObject(key, body, digest, false);
          return Some(Raised(Failed));
        case Death(reached) =>
          PutObject(key, body, digest, reached);
          return Some(Raised(Killed));
        case Conflict =>
          PutObject(key, body, digest, false);
          return None;
        case Transient(reached) =>
          PutObject(key, body, digest, reached);
          return None;
      }
    }

    method PutOnceCall(key: Key, body: Body, digest: Digest, script: Script) returns (result: Result)
      requires WellStored(bucket)
      modifies this
      ensures WellStored(bucket)
      ensures var o := PutOnce(old(bucket), key, body, digest, script);
        && bucket == o.bucket && result == o.result
        && requests == old(requests) + o.attempts && slept == old(slept) + o.slept
    {
      hide Round, PutFrom, Evaluate, Verify, WellStored, Backoff, ContentAddressMatches;
      if !ContentAddressMatches(key, digest) && !key.ManifestKey? {
        return Raised(Failed);
      }
      ghost var o := PutFrom(bucket, key, body, digest, script, 1, 0);
      var attempt := 1;
      while attempt <= MAX_PUT_ATTEMPTS
        invariant 1 <= attempt <= MAX_PUT_ATTEMPTS
        invariant WellStored(bucket)
        invariant requests + 1 == old(requests) + attempt
        invariant slept >= old(slept)
        invariant PutFrom(bucket, key, body, digest, script, attempt, slept - old(slept)) == o
      {
        NextRound(bucket, key, body, digest, script, attempt, slept - old(slept));
        var done := Attempt(key, body, digest, script.puts(attempt), script.get);
        if done.Some? {
          return done.value;
        }
        if attempt == MAX_PUT_ATTEMPTS {
          return Raised(TransientFailure);
        }
        slept := slept + Backoff(attempt);
        attempt := attempt + 1;
      }
      assert false;  // raise AssertionError("unreachable")
    }
  }
}

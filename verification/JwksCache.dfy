/** The double-checked cache in front of the JWKS endpoint: a fast path under the read lock, then a
    re-check and a fetch under the write lock. */
module JwksCache {
  import opened JwkKeys
  import opened Wrappers

  const SECOND: nat := 1_000_000_000
  const TTL: nat := 3600 * SECOND

  /** fetchedAt is None before the first fetch: the zero time, which is older than any TTL. */
  datatype Cache = Cache(keys: map<string, PublicKey>, fetchedAt: Option<int>)

  datatype Outcome = Found(key: PublicKey) | NotFound | Failed

  predicate Young(c: Cache, now: int) {
    c.fetchedAt.Some? && now - c.fetchedAt.value < TTL
  }

  predicate Hit(c: Cache, kid: string, now: int) {
    Young(c, now) && kid in c.keys
  }

  /** The cache has the key and was filled less than an hour ago. */
  ghost predicate FreshFor(c: Cache, kid: string, now: int) {
    kid in c.keys && c.fetchedAt.Some? && now - c.fetchedAt.value < 3_600_000_000_000
  }

  function Lookup(keys: map<string, PublicKey>, kid: string): Outcome {
    if kid in keys then Found(keys[kid]) else NotFound
  }

  // ---------------------------------------------------------------- one call alone

  /** What a call with no other under way leaves and answers: no second check. */
  function Alone(c: Cache, kid: string, now: int, fetched: Option<Document>, stamp: int): (Cache, Outcome) {
    if Hit(c, kid, now) then (c, Found(c.keys[kid]))
    else if fetched.None? then (c, Failed)
    else (Cache(KeysOf(fetched.value), Some(stamp)), Lookup(KeysOf(fetched.value), kid))
  }

  /** A call around whose first check others may have filled the cache. */
  function Called(c: Cache, kid: string, now: int, meanwhile: Cache, recheck: int, fetched: Option<Document>,
                  stamp: int)
    : (Cache, Outcome)
  {
    if Hit(c, kid, now) then (c, Found(c.keys[kid])) else Alone(meanwhile, kid, recheck, fetched, stamp)
  }

  class KeyCache {
    var keys: map<string, PublicKey>
    var fetchedAt: Option<int>

    ghost function Contents(): Cache
      reads this
    {
      Cache(keys, fetchedAt)
    }

    constructor ()
      ensures Contents() == Cache(map[], None)
    {
      keys, fetchedAt := map[], None;
    }

    /** meanwhile is what other calls left in the cache between the two locks. */
    method GetPublicKey(kid: string, now: int, meanwhile: Cache, recheck: int, fetched: Option<Document>, stamp: int)
      returns (r: Outcome)
      modifies this
      ensures (Contents(), r) == Called(old(Contents()), kid, now, meanwhile, recheck, fetched, stamp)
      ensures
        if FreshFor(old(Contents()), kid, now) then r == Found(old(keys)[kid]) && Contents() == old(Contents())
        else if FreshFor(meanwhile, kid, recheck) then r == Found(meanwhile.keys[kid]) && Contents() == meanwhile
        else if fetched.None? then r == Failed && Contents() == meanwhile
        else
          && keys == KeysOf(fetched.value) && fetchedAt == Some(stamp)
          && r == (if kid in keys then Found(keys[kid]) else NotFound)
    {
      if fetchedAt.Some? && now - fetchedAt.value < TTL {
        if kid in keys {
          return Found(keys[kid]);
        }
      }
      keys, fetchedAt := meanwhile.keys, meanwhile.fetchedAt;
      if fetchedAt.Some? && recheck - fetchedAt.value < TTL {
        if kid in keys {
          return Found(keys[kid]);
        }
      }
      if fetched.None? {
        return Failed;
      }
      var parsed := ParseKeys(fetched.value);
      keys := parsed;
      fetchedAt := Some(stamp);
      if kid !in parsed {
        return NotFound;
      }
      return Found(parsed[kid]);
    }
  }

  /** Without others the second check never hits. */
  lemma RecheckRedundantAlone(c: Cache, kid: string, now: int, recheck: int, fetched: Option<Document>, stamp: int)
    requires now <= recheck
    ensures Called(c, kid, now, c, recheck, fetched, stamp) == Alone(c, kid, now, fetched, stamp)
  {
    assert Hit(c, kid, recheck) ==> Hit(c, kid, now);
  }

  // ---------------------------------------------------------------- any number of calls

  /** A call past the fast path. Storing is between its two assignments. */
  datatype Call =
    | Waiting(kid: string)
    | Checking(kid: string)
    | Fetching(kid: string)
    | Fetched(kid: string, doc: Document)
    | Storing(kid: string, doc: Document)

  datatype Fetch = Fetch(call: nat, kid: string, doc: Document, at: int)

  /** An answer; source is the fetch it was looked up in. */
  datatype Reply = Reply(call: nat, kid: string, outcome: Outcome, at: int, source: Option<nat>)

  /** lock is the writer's call; readers hold the read lock within one step. */
  datatype State = State(
    cache: Cache,
    clock: int,
    lock: Option<nat>,
    calls: map<nat, Call>,
    started: nat,
    fetches: seq<Fetch>,
    replies: seq<Reply>)

  datatype Label =
    | Start(kid: string)
    | Acquire(c: nat)
    | Recheck(c: nat)
    | FetchFails(c: nat)
    | FetchReturns(c: nat, doc: Document)
    | StoreKeys(c: nat)
    | StoreTime(c: nat)
    | Advance(nanoseconds: nat)

  predicate Holds(s: State, c: nat) {
    s.lock == Some(c) && c in s.calls
  }

  /** Call c answers and lets go of the lock it holds. */
  function Answer(s: State, c: nat, kid: string, outcome: Outcome, source: Option<nat>): State {
    s.(calls := s.calls - {c},
       lock := if s.lock == Some(c) then None else s.lock,
       replies := s.replies + [Reply(c, kid, outcome, s.clock, source)])
  }

  /** The cache was filled by the latest fetch. */
  function Latest(s: State): Option<nat> {
    if s.fetches == [] then None else Some(|s.fetches| - 1)
  }

  function Apply(s: State, l: Label): State {
    match l
    case Start(kid) =>
      if s.lock.Some? then s
      else if Hit(s.cache, kid, s.clock) then
        Answer(s.(started := s.started + 1), s.started, kid, Found(s.cache.keys[kid]), Latest(s))
      else s.(calls := s.calls[s.started := Waiting(kid)], started := s.started + 1)
    case Acquire(c) =>
      if s.lock.Some? || c !in s.calls || !s.calls[c].Waiting? then s
      else s.(lock := Some(c), calls := s.calls[c := Checking(s.calls[c].kid)])
    case Recheck(c) =>
      if !Holds(s, c) || !s.calls[c].Checking? then s
      else
        var kid := s.calls[c].kid;
        if Hit(s.cache, kid, s.clock) then Answer(s, c, kid, Found(s.cache.keys[kid]), Latest(s))
        else s.(calls := s.calls[c := Fetching(kid)])
    case FetchFails(c) =>
      if !Holds(s, c) || !s.calls[c].Fetching? then s else Answer(s, c, s.calls[c].kid, Failed, None)
    case FetchReturns(c, doc) =>
      if !Holds(s, c) || !s.calls[c].Fetching? then s
      else s.(calls := s.calls[c := Fetched(s.calls[c].kid, doc)])
    case StoreKeys(c) =>
      if !Holds(s, c) || !s.calls[c].Fetched? then s
      else s.(cache := s.cache.(keys := KeysOf(s.calls[c].doc)),
              calls := s.calls[c := Storing(s.calls[c].kid, s.calls[c].doc)])
    case StoreTime(c) =>
      if !Holds(s, c) || !s.calls[c].Storing? then s
      else
        var (kid, doc) := (s.calls[c].kid, s.calls[c].doc);
        Answer(s.(cache := s.cache.(fetchedAt := Some(s.clock)), fetches := s.fetches + [Fetch(c, kid, doc, s.clock)]),
               c, kid, Lookup(KeysOf(doc), kid), Some(|s.fetches|))
    case Advance(d) => s.(clock := s.clock + d)
  }

  const INIT := State(Cache(map[], None), 0, None, map[], 0, [], [])

  function Exec(init: State, steps: seq<Label>): State {
    if steps == [] then init else Apply(Exec(init, steps[..|steps| - 1]), steps[|steps| - 1])
  }

  // ---------------------------------------------------------------- what every run keeps

  /** What the latest fetch put in the cache. */
  function FromFetches(fetches: seq<Fetch>): Cache {
    if fetches == [] then Cache(map[], None)
    else Cache(KeysOf(fetches[|fetches| - 1].doc), Some(fetches[|fetches| - 1].at))
  }

  /** Keys and time stamp come from one fetch, except between the writer's two assignments. */
  ghost predicate CacheIsLatest(s: State) {
    var latest := FromFetches(s.fetches);
    if s.lock.Some? && s.lock.value in s.calls && s.calls[s.lock.value].Storing? then
      s.cache == latest.(keys := KeysOf(s.calls[s.lock.value].doc))
    else
      s.cache == latest
  }

  /** Only the writer is past the lock, and it is a call under way. */
  ghost predicate OneWriter(s: State) {
    && (s.lock.Some? ==> s.lock.value in s.calls && !s.calls[s.lock.value].Waiting?)
    && (forall c <- s.calls :: s.calls[c].Waiting? || s.lock == Some(c))
  }

  /** Calls get distinct numbers; one under way has not fetched or answered. */
  ghost predicate Numbered(s: State) {
    && (forall c <- s.calls :: c < s.started)
    && (forall f <- s.fetches :: f.call < s.started && f.call !in s.calls)
    && (forall r <- s.replies :: r.call < s.started && r.call !in s.calls)
    && (forall i, j :: 0 <= i < j < |s.fetches| ==> s.fetches[i].call != s.fetches[j].call)
    && (forall i, j :: 0 <= i < j < |s.replies| ==> s.replies[i].call != s.replies[j].call)
  }

  /** The promise of one answer: a key found was looked up in a document fetched by this very call or
      less than an hour ago, and only a call whose own fetch lacks the key says so. */
  ghost predicate Justified(fetches: seq<Fetch>, r: Reply) {
    match r.outcome
    case Found(key) =>
      && r.source.Some? && r.source.value < |fetches|
      && var f := fetches[r.source.value];
      && r.kid in KeysOf(f.doc) && KeysOf(f.doc)[r.kid] == key
      && f.at <= r.at
      && (f.call == r.call || r.at - f.at < 3_600_000_000_000)
    case NotFound =>
      && r.source.Some? && r.source.value < |fetches|
      && fetches[r.source.value].call == r.call
      && r.kid !in KeysOf(fetches[r.source.value].doc)
    case Failed =>
      forall f <- fetches :: f.call != r.call
  }

  /** A fetch after these, for this id at this time, has a reason: there was none before, or the last
      document lacks the id, or is at least an hour old. */
  ghost predicate Needed(fetches: seq<Fetch>, kid: string, now: int) {
    fetches != [] ==>
      var last := fetches[|fetches| - 1];
      kid !in KeysOf(last.doc) || now - last.at >= 3_600_000_000_000
  }

  /** Every fetch had a reason when it was made. */
  ghost predicate AllNeeded(fetches: seq<Fetch>) {
    forall i :: 0 <= i < |fetches| ==> Needed(fetches[..i], fetches[i].kid, fetches[i].at)
  }

  lemma AllNeededGrows(fetches: seq<Fetch>, f: Fetch)
    requires AllNeeded(fetches) && Needed(fetches, f.kid, f.at)
    ensures AllNeeded(fetches + [f])
  {
    var grown := fetches + [f];
    forall i | 0 <= i < |grown| ensures Needed(grown[..i], grown[i].kid, grown[i].at) {
      assert grown[..i] == fetches[..i];
    }
  }

  /** A call that will fetch, or has, has a reason to. */
  ghost predicate CallsNeed(s: State) {
    forall c <- s.calls ::
      s.calls[c].Waiting? || s.calls[c].Checking? || Needed(s.fetches, s.calls[c].kid, s.clock)
  }

  lemma CallsNeedInStep(s: State, l: Label)
    requires OneWriter(s) && CacheIsLatest(s) && CallsNeed(s)
    ensures CallsNeed(Apply(s, l))
  {
  }

  lemma FetchNeeded(s: State, l: Label)
    requires CallsNeed(s) && AllNeeded(s.fetches)
    ensures AllNeeded(Apply(s, l).fetches)
  {
    if l.StoreTime? && Holds(s, l.c) && s.calls[l.c].Storing? {
      AllNeededGrows(s.fetches, Fetch(l.c, s.calls[l.c].kid, s.calls[l.c].doc, s.clock));
    }
  }

  /** What makes every answer of a run a justified one. */
  ghost predicate Answered(s: State) {
    && CacheIsLatest(s)
    && OneWriter(s)
    && Numbered(s)
    && (forall f <- s.fetches :: f.at <= s.clock)
    && (forall r <- s.replies :: Justified(s.fetches, r))
  }

  ghost predicate Kept(s: State) {
    Answered(s) && CallsNeed(s) && AllNeeded(s.fetches)
  }

  lemma HitIsJustified(s: State, c: nat, kid: string)
    requires Answered(s) && Hit(s.cache, kid, s.clock)
    requires s.lock.None? || s.calls[s.lock.value].Checking?
    ensures Justified(s.fetches, Reply(c, kid, Found(s.cache.keys[kid]), s.clock, Latest(s)))
  {
    assert s.fetches[|s.fetches| - 1] in s.fetches;
  }

  lemma JustifiedGrows(fetches: seq<Fetch>, f: Fetch, r: Reply)
    requires Justified(fetches, r) && r.call != f.call
    ensures Justified(fetches + [f], r)
  {
  }

  lemma WriterInStep(s: State, l: Label)
    requires OneWriter(s) && CacheIsLatest(s) && Numbered(s)
    ensures OneWriter(Apply(s, l)) && CacheIsLatest(Apply(s, l))
  {
  }

  lemma NumberedInStep(s: State, l: Label)
    requires Numbered(s)
    ensures Numbered(Apply(s, l))
  {
  }

  lemma JustifiedInStep(s: State, l: Label)
    requires Answered(s)
    ensures var t := Apply(s, l); forall r <- t.replies :: Justified(t.fetches, r)
  {
    match l
    case Start(kid) =>
      if s.lock.None? && Hit(s.cache, kid, s.clock) {
        HitIsJustified(s, s.started, kid);
      }
    case Recheck(c) =>
      if Holds(s, c) && s.calls[c].Checking? && Hit(s.cache, s.calls[c].kid, s.clock) {
        HitIsJustified(s, c, s.calls[c].kid);
      }
    case StoreTime(c) =>
      if Holds(s, c) && s.calls[c].Storing? {
        var f := Fetch(c, s.calls[c].kid, s.calls[c].doc, s.clock);
        forall r <- s.replies ensures Justified(s.fetches + [f], r) {
          JustifiedGrows(s.fetches, f, r);
        }
      }
    case _ =>
  }

  lemma AnsweredInStep(s: State, l: Label)
    requires Answered(s)
    ensures Answered(Apply(s, l))
  {
    WriterInStep(s, l);
    NumberedInStep(s, l);
    JustifiedInStep(s, l);
    FetchTimes(s, l);
  }

  lemma FetchTimes(s: State, l: Label)
    requires forall f <- s.fetches :: f.at <= s.clock
    ensures forall f <- Apply(s, l).fetches :: f.at <= Apply(s, l).clock
  {
  }

  lemma KeptInStep(s: State, l: Label)
    requires Kept(s)
    ensures Kept(Apply(s, l))
  {
    AnsweredInStep(s, l);
    CallsNeedInStep(s, l);
    FetchNeeded(s, l);
  }

  /** In every interleaving of any number of calls: the cache is one fetch's, each call fetches and
      answers at most once, every answer is justified, and every fetch was needed. */
  lemma {:induction false} EveryAnswerJustified(steps: seq<Label>)
    ensures
      var s := Exec(INIT, steps);
      && Kept(s)
      && (s.lock.None? ==> s.cache == FromFetches(s.fetches))
      && (forall r <- s.replies :: Justified(s.fetches, r))
      && AllNeeded(s.fetches)
  {
    if steps != [] {
      EveryAnswerJustified(steps[..|steps| - 1]);
      KeptInStep(Exec(INIT, steps[..|steps| - 1]), steps[|steps| - 1]);
    }
  }

  /** A failed fetch, and any step but a writer's assignments, leaves the cache as it was. */
  lemma OnlyStoresChangeCache(s: State, l: Label)
    ensures !l.StoreKeys? && !l.StoreTime? ==> Apply(s, l).cache == s.cache
    ensures Apply(s, l).fetches != s.fetches ==> l.StoreTime? && Apply(s, l).cache.fetchedAt == Some(s.clock)
  {
  }

  // ---------------------------------------------------------------- against direct lookup

  ghost predicate Publishes(steps: seq<Label>, doc: Document) {
    forall l <- steps :: l.FetchReturns? ==> l.doc == doc
  }

  ghost predicate OnlyDocument(s: State, doc: Document) {
    && (forall f <- s.fetches :: f.doc == doc)
    && (forall c <- s.calls :: s.calls[c].Fetched? || s.calls[c].Storing? ==> s.calls[c].doc == doc)
  }

  lemma {:induction false} OnlyPublished(steps: seq<Label>, doc: Document)
    requires Publishes(steps, doc)
    ensures OnlyDocument(Exec(INIT, steps), doc)
  {
    if steps != [] {
      OnlyPublished(steps[..|steps| - 1], doc);
    }
  }

  /** While the published document stays the same, every answer but a failure is the direct lookup. */
  lemma ConstantDocumentDirectLookup(steps: seq<Label>, doc: Document)
    requires Publishes(steps, doc)
    ensures forall r <- Exec(INIT, steps).replies :: r.outcome.Failed? || r.outcome == Lookup(KeysOf(doc), r.kid)
  {
    OnlyPublished(steps, doc);
    EveryAnswerJustified(steps);
    var s := Exec(INIT, steps);
    forall r <- s.replies ensures r.outcome.Failed? || r.outcome == Lookup(KeysOf(doc), r.kid) {
      if !r.outcome.Failed? {
        assert s.fetches[r.source.value] in s.fetches;
      }
    }
  }

  // ---------------------------------------------------------------- a call alone, in steps

  function AfterLock(s: State, c: nat, fetched: Option<Document>): State {
    if fetched.None? then Apply(s, FetchFails(c))
    else Apply(Apply(Apply(s, FetchReturns(c, fetched.value)), StoreKeys(c)), StoreTime(c))
  }

  /** Uninterrupted but for the clock, the steps are the method: same cache, same answer. */
  lemma SoloCall(s: State, kid: string, waited: nat, fetched: Option<Document>)
    requires s.lock.None? && s.started !in s.calls
    ensures
      var c := s.started;
      var waiting := Apply(Apply(s, Start(kid)), Advance(waited));
      var t := AfterLock(Apply(Apply(waiting, Acquire(c)), Recheck(c)), c, fetched);
      && |t.replies| == |s.replies| + 1
      && (t.cache, t.replies[|s.replies|].outcome) == Alone(s.cache, kid, s.clock, fetched, s.clock + waited)
      && t.lock.None? && t.calls == s.calls
  {
    var c := s.started;
    var t0 := Apply(s, Start(kid));
    if !Hit(s.cache, kid, s.clock) {
      var t2 := Apply(Apply(Apply(t0, Advance(waited)), Acquire(c)), Recheck(c));
      assert t2.calls == s.calls[c := Fetching(kid)];
      assert s.calls[c := Fetching(kid)] - {c} == s.calls;
    } else {
      assert t0.calls == s.calls;
    }
  }
}

/**
 The per-process rate limiter of the sign-in routes: a bounded table of fixed windows that is purged
 only when it is full, compared with a counter that never forgets.
 */
module Limiter {
  import opened Sets

  datatype Entry = Entry(count: nat, until: int)

  type Table = map<string, Entry>

  datatype Params = Params(capacity: nat, limit: nat, window: nat)

  datatype Hit = Hit(key: string, now: int)

  /** Full: refused because the table is full, before anything is counted. */
  datatype Verdict = Admitted | Blocked | Full

  // ------------------------------------------------------------------ one request

  function Bump(e: Entry, limit: nat): Entry { if e.count <= limit then e.(count := e.count + 1) else e }

  function VerdictOf(e: Entry, limit: nat): Verdict { if e.count > limit then Blocked else Admitted }

  function DropExpired(t: Table, key: string, now: int): Table {
    if key in t && t[key].until <= now then t - {key} else t
  }

  function Purge(t: Table, now: int): Table { map k | k in t && t[k].until > now :: t[k] }

  /** Room is made only for a key that is not in the table. */
  function MakeRoom(t: Table, capacity: nat, key: string, now: int): Table {
    if key !in t && |t| >= capacity then Purge(t, now) else t
  }

  function Counted(t: Table, p: Params, h: Hit): Entry {
    Bump(if h.key in t then t[h.key] else Entry(0, h.now + p.window), p.limit)
  }

  function Handle(t: Table, p: Params, h: Hit): (Table, Verdict) {
    var roomy := MakeRoom(DropExpired(t, h.key, h.now), p.capacity, h.key, h.now);
    if h.key !in roomy && |roomy| >= p.capacity then (roomy, Full)
    else (roomy[h.key := Counted(roomy, p, h)], VerdictOf(Counted(roomy, p, h), p.limit))
  }

  class AuthLimiter {
    var entries: Table
    const params: Params

    ghost predicate Valid()
      reads this
    {
      |entries| <= params.capacity && InRange(entries, params.limit)
    }

    constructor (params: Params)
      ensures Valid() && entries == map[] && this.params == params
    {
      this.params := params;
      entries := map[];
    }

    method PurgeExpired(now: int)
      modifies this
      ensures entries == Purge(old(entries), now)
    {
      ghost var before := entries;
      var todo := entries.Keys;
      while |todo| > 0
        invariant todo <= before.Keys
        invariant forall k :: k in entries <==> k in before && (k in todo || before[k].until > now)
        invariant forall k :: k in entries ==> entries[k] == before[k]
        decreases |todo|
      {
        assert todo != {};
        var k :| k in todo;
        if entries[k].until <= now {
          entries := entries - {k};
        }
        todo := todo - {k};
      }
      assert entries == Purge(before, now);
    }

    method Middleware(key: string, now: int) returns (verdict: Verdict)
      requires Valid()
      modifies this
      ensures Valid()
      ensures entries == Handle(old(entries), params, Hit(key, now)).0
      ensures verdict == Handle(old(entries), params, Hit(key, now)).1
    {
      HandleKeepsCapacity(entries, params, Hit(key, now));
      HandleKeepsRange(entries, params, Hit(key, now));
      if key in entries && now >= entries[key].until {
        entries := entries - {key};
      }
      if key !in entries && |entries| >= params.capacity {
        PurgeExpired(now);
      }
      if key !in entries && |entries| >= params.capacity {
        return Full;
      }
      verdict := Count(key, now);
    }

    method Count(key: string, now: int) returns (verdict: Verdict)
      modifies this
      ensures entries == old(entries)[key := Counted(old(entries), params, Hit(key, now))]
      ensures verdict == VerdictOf(entries[key], params.limit)
    {
      var entry := if key in entries then entries[key] else Entry(0, now + params.window);
      if entry.count <= params.limit {
        entry := entry.(count := entry.count + 1);
      }
      entries := entries[key := entry];
      return if entry.count > params.limit then Blocked else Admitted;
    }
  }

  /** The table never holds more than its capacity. */
  lemma HandleKeepsCapacity(t: Table, p: Params, h: Hit)
    requires |t| <= p.capacity
    ensures |Handle(t, p, h).0| <= p.capacity
  {
    var dropped := DropExpired(t, h.key, h.now);
    var roomy := MakeRoom(dropped, p.capacity, h.key, h.now);
    SmallerTable(dropped, t);
    SmallerTable(roomy, dropped);
    if !Handle(t, p, h).1.Full? {
      PutSize(roomy, h.key, Counted(roomy, p, h));
    }
  }

  lemma PutSize(t: Table, key: string, e: Entry)
    ensures |t[key := e]| == if key in t then |t| else |t| + 1
  {
    assert t[key := e].Keys == t.Keys + {key};
    assert |t| == |t.Keys| && |t[key := e]| == |t[key := e].Keys|;
  }

  /** Counts start at one and stop one above the limit. */
  ghost predicate InRange(t: Table, limit: nat) { forall k :: k in t ==> 1 <= t[k].count <= limit + 1 }

  lemma HandleKeepsRange(t: Table, p: Params, h: Hit)
    requires InRange(t, p.limit)
    ensures InRange(Handle(t, p, h).0, p.limit)
  {}

  lemma SmallerTable(a: Table, b: Table)
    requires a.Keys <= b.Keys
    ensures |a| <= |b|
  {
    SubsetSize(a.Keys, b.Keys);
  }

  // ------------------------------------------------------------------ what one request does, exactly

  predicate OpenAt(t: Table, key: string, now: int) { key in t && now < t[key].until }

  ghost function OpenKeys(t: Table, now: int): set<string> { set k | k in t && now < t[k].until }

  /** Requests of the key already counted in its open window. */
  function Used(t: Table, h: Hit): nat { if OpenAt(t, h.key, h.now) then t[h.key].count else 0 }

  /**
   A request is refused for capacity exactly when its key has no open window and as many keys as fit do;
   otherwise it is admitted exactly when its window has counted fewer than the limit.
   */
  lemma DecidesExactly(t: Table, p: Params, h: Hit)
    ensures Handle(t, p, h).1 == Full <==> !OpenAt(t, h.key, h.now) && |OpenKeys(t, h.now)| >= p.capacity
    ensures Handle(t, p, h).1 != Full ==> (Handle(t, p, h).1 == Admitted <==> Used(t, h) < p.limit)
  {
    var dropped := DropExpired(t, h.key, h.now);
    if !OpenAt(t, h.key, h.now) {
      assert Purge(dropped, h.now).Keys == OpenKeys(t, h.now);
      assert |Purge(dropped, h.now)| == |Purge(dropped, h.now).Keys| && |dropped| == |dropped.Keys|;
      SubsetSize(OpenKeys(t, h.now), dropped.Keys);
    }
  }

  /** Another key stays as it is, unless a full table had to make room and its window is over. */
  lemma OthersExactly(t: Table, p: Params, h: Hit, k: string)
    requires k != h.key
    ensures k in Handle(t, p, h).0 <==>
            k in t && (OpenAt(t, k, h.now) || OpenAt(t, h.key, h.now) || |t.Keys - {h.key}| < p.capacity)
    ensures k in Handle(t, p, h).0 ==> Handle(t, p, h).0[k] == t[k]
  {
    var dropped := DropExpired(t, h.key, h.now);
    assert |dropped| == |dropped.Keys|;
    if h.key !in dropped {
      assert dropped.Keys == t.Keys - {h.key};
    }
  }

  /** The key's entry counts the request, at most one past the limit, in its open window or one that opens now. */
  lemma CountsExactly(t: Table, p: Params, h: Hit)
    ensures h.key in Handle(t, p, h).0 <==> Handle(t, p, h).1 != Full
    ensures h.key in Handle(t, p, h).0 ==>
              && var e := Handle(t, p, h).0[h.key];
                 && e.until == (if OpenAt(t, h.key, h.now) then t[h.key].until else h.now + p.window)
                 && e.count == (if Used(t, h) <= p.limit then Used(t, h) + 1 else Used(t, h))
  {}

  // ------------------------------------------------------------------ the counter that never forgets

  /** One fixed window per key, never purged. */
  function Tally(ref: Table, p: Params, h: Hit): (Table, Verdict) {
    var open := DropExpired(ref, h.key, h.now);
    (open[h.key := Counted(open, p, h)], VerdictOf(Counted(open, p, h), p.limit))
  }

  function Entries(p: Params, hits: seq<Hit>): Table {
    if hits == [] then map[] else Handle(Entries(p, hits[..|hits| - 1]), p, hits[|hits| - 1]).0
  }

  /** The answer to the last request. */
  function Answer(p: Params, hits: seq<Hit>): Verdict
    requires hits != []
  {
    Handle(Entries(p, hits[..|hits| - 1]), p, hits[|hits| - 1]).1
  }

  /** The reference table after the requests that were not refused for capacity. */
  function Reference(p: Params, hits: seq<Hit>): Table {
    if hits == [] then map[]
    else
      var before := Reference(p, hits[..|hits| - 1]);
      if Answer(p, hits).Full? then before else Tally(before, p, hits[|hits| - 1]).0
  }

  ghost predicate Agrees(entries: Table, ref: Table) {
    forall k :: k in entries ==> k in ref && ref[k] == entries[k]
  }

  /** The key was purged while its window, by this request's clock, is still open. */
  predicate PurgedAlive(entries: Table, ref: Table, h: Hit) {
    h.key !in entries && h.key in ref && ref[h.key].until > h.now
  }

  ghost predicate Counts(t: Table) { forall k :: k in t ==> t[k].count >= 1 }

  /** One counted request: what a key that was purged alive does to the agreement and to the answer. */
  lemma OneRequest(entries: Table, ref: Table, p: Params, h: Hit)
    requires Agrees(entries, ref) && Counts(ref) && !Handle(entries, p, h).1.Full?
    ensures !PurgedAlive(entries, ref, h) ==>
              Agrees(Handle(entries, p, h).0, Tally(ref, p, h).0) && Handle(entries, p, h).1 == Tally(ref, p, h).1
    ensures PurgedAlive(entries, ref, h) && p.limit >= 1 ==>
              && !Agrees(Handle(entries, p, h).0, Tally(ref, p, h).0)
              && (Handle(entries, p, h).1 == Tally(ref, p, h).1 <==> ref[h.key].count < p.limit)
  {
    var u, v := Handle(entries, p, h).0, Tally(ref, p, h).0;
    assert h.key in u && h.key in v;
  }

  lemma FullKeepsAgreement(entries: Table, ref: Table, p: Params, h: Hit)
    requires Agrees(entries, ref)
    ensures Handle(entries, p, h).1.Full? ==> Agrees(Handle(entries, p, h).0, ref)
  {}

  /** Whatever the clocks do, the table stays within its capacity. */
  lemma {:induction false} CapacityAlways(p: Params, hits: seq<Hit>)
    ensures |Entries(p, hits)| <= p.capacity && InRange(Entries(p, hits), p.limit)
  {
    if hits != [] {
      var n := |hits| - 1;
      CapacityAlways(p, hits[..n]);
      HandleKeepsCapacity(Entries(p, hits[..n]), p, hits[n]);
      HandleKeepsRange(Entries(p, hits[..n]), p, hits[n]);
    }
  }

  // ------------------------------------------------------------------ what the limiter forgets

  /** The tables agree after every prefix of the requests. */
  ghost predicate AgreesThroughout(p: Params, hits: seq<Hit>) {
    && Agrees(Entries(p, hits), Reference(p, hits))
    && (hits == [] || AgreesThroughout(p, hits[..|hits| - 1]))
  }

  /** The removed entries after one more request, from those before and the table before and after. */
  function Updated(gone: Table, was: Table, now: Table): Table {
    map k | k in gone.Keys + was.Keys && k !in now :: if k in was then was[k] else gone[k]
  }

  /** Entries the limiter has removed and not opened again, as they were when it removed them. */
  function Removed(p: Params, hits: seq<Hit>): Table {
    if hits == [] then map[]
    else Updated(Removed(p, hits[..|hits| - 1]), Entries(p, hits[..|hits| - 1]), Entries(p, hits))
  }

  /** The request opens a window for its key although its own clock shows the removed one still open. */
  predicate Reopens(was: Table, gone: Table, p: Params, h: Hit) {
    !Handle(was, p, h).1.Full? && h.key in gone && gone[h.key].until > h.now
  }

  /** The last request does that. */
  predicate ForgetsAlive(p: Params, hits: seq<Hit>)
    requires hits != []
  {
    Reopens(Entries(p, hits[..|hits| - 1]), Removed(p, hits[..|hits| - 1]), p, hits[|hits| - 1])
  }

  /** No request of the sequence ever does. */
  predicate Remembers(p: Params, hits: seq<Hit>) {
    hits == [] || (Remembers(p, hits[..|hits| - 1]) && !ForgetsAlive(p, hits))
  }

  lemma {:induction false} ReferenceCounts(p: Params, hits: seq<Hit>)
    ensures Counts(Reference(p, hits))
  {
    if hits != [] {
      ReferenceCounts(p, hits[..|hits| - 1]);
    }
  }

  /** While the tables agree, the reference is what the limiter holds and what it has removed. */
  ghost predicate Splits(entries: Table, gone: Table, ref: Table) {
    && (forall k :: k in ref <==> k in entries || k in gone)
    && (forall k :: k in gone ==> k !in entries && k in ref && ref[k] == gone[k])
  }

  lemma SplitsAgain(was: Table, gone: Table, ref: Table, p: Params, h: Hit)
    requires Splits(was, gone, ref) && Agrees(was, ref)
    ensures var now, next := Handle(was, p, h).0, if Handle(was, p, h).1.Full? then ref else Tally(ref, p, h).0;
            Agrees(now, next) ==> Splits(now, Updated(gone, was, now), next)
  {}

  lemma {:induction false} ReferenceSplits(p: Params, hits: seq<Hit>)
    requires AgreesThroughout(p, hits)
    ensures Splits(Entries(p, hits), Removed(p, hits), Reference(p, hits))
  {
    if hits != [] {
      var n := |hits| - 1;
      ReferenceSplits(p, hits[..n]);
      SplitsAgain(Entries(p, hits[..n]), Removed(p, hits[..n]), Reference(p, hits[..n]), p, hits[n]);
    }
  }

  lemma ForgettingIsPurgedAlive(p: Params, hits: seq<Hit>)
    requires hits != [] && AgreesThroughout(p, hits[..|hits| - 1]) && !Answer(p, hits).Full?
    ensures ForgetsAlive(p, hits) <==>
            PurgedAlive(Entries(p, hits[..|hits| - 1]), Reference(p, hits[..|hits| - 1]), hits[|hits| - 1])
  {
    ReferenceSplits(p, hits[..|hits| - 1]);
  }

  /**
   For a limiter that admits anyone, over any requests whatever their clocks: its table agrees with the
   reference after every prefix exactly when it never reopens a window it removed while still open.
   */
  lemma {:induction false} AgreesExactly(p: Params, hits: seq<Hit>)
    ensures Remembers(p, hits) ==> AgreesThroughout(p, hits)
    ensures p.limit >= 1 && AgreesThroughout(p, hits) ==> Remembers(p, hits)
  {
    if hits != [] {
      var n := |hits| - 1;
      AgreesExactly(p, hits[..n]);
      if AgreesThroughout(p, hits[..n]) {
        FullKeepsAgreement(Entries(p, hits[..n]), Reference(p, hits[..n]), p, hits[n]);
        if !Answer(p, hits).Full? {
          ForgettingIsPurgedAlive(p, hits);
          ReferenceCounts(p, hits[..n]);
          OneRequest(Entries(p, hits[..n]), Reference(p, hits[..n]), p, hits[n]);
        }
      }
    }
  }

  /** The limiter's answer to the last request is the reference's. */
  ghost predicate DecidesAlike(p: Params, hits: seq<Hit>)
    requires hits != []
  {
    Answer(p, hits) == Tally(Reference(p, hits[..|hits| - 1]), p, hits[|hits| - 1]).1
  }

  /** While it remembers, or admits nobody, every counted request is decided as if nothing had ever been removed. */
  lemma DecidesLikeReference(p: Params, hits: seq<Hit>)
    requires (Remembers(p, hits) || p.limit == 0) && hits != [] && !Answer(p, hits).Full?
    ensures DecidesAlike(p, hits)
  {
    var n := |hits| - 1;
    ReferenceCounts(p, hits[..n]);
    if Remembers(p, hits) {
      AgreesExactly(p, hits[..n]);
      ForgettingIsPurgedAlive(p, hits);
      OneRequest(Entries(p, hits[..n]), Reference(p, hits[..n]), p, hits[n]);
    }
  }

  /** The first request that forgets an open window is decided differently exactly when that window was used up. */
  lemma FirstForgottenDiffers(p: Params, hits: seq<Hit>)
    requires p.limit >= 1 && hits != [] && Remembers(p, hits[..|hits| - 1]) && ForgetsAlive(p, hits)
    ensures DecidesAlike(p, hits) <==> Removed(p, hits[..|hits| - 1])[hits[|hits| - 1].key].count < p.limit
  {
    var n := |hits| - 1;
    AgreesExactly(p, hits[..n]);
    ReferenceSplits(p, hits[..n]);
    ReferenceCounts(p, hits[..n]);
    OneRequest(Entries(p, hits[..n]), Reference(p, hits[..n]), p, hits[n]);
  }

  // ------------------------------------------------------------------ one key at a time, after anything

  /** What both hold for one key: the same entry, or one the limiter has removed since. */
  ghost predicate Matches(entries: Table, gone: Table, ref: Table, key: string) {
    && (key in ref <==> key in entries || key in gone)
    && (key in entries ==> key !in gone && key in ref && ref[key] == entries[key])
    && (key in gone ==> key in ref && ref[key] == gone[key])
  }

  ghost predicate InStep(p: Params, hits: seq<Hit>, key: string) {
    Matches(Entries(p, hits), Removed(p, hits), Reference(p, hits), key)
  }

  predicate Closed(t: Table, key: string, now: int) { !OpenAt(t, key, now) }

  function NextReference(was: Table, ref: Table, p: Params, h: Hit): Table {
    if Handle(was, p, h).1.Full? then ref else Tally(ref, p, h).0
  }

  lemma OthersOnlyLeave(was: Table, ref: Table, p: Params, h: Hit, key: string)
    requires h.key != key
    ensures key in Handle(was, p, h).0 ==> key in was && Handle(was, p, h).0[key] == was[key]
    ensures key in NextReference(was, ref, p, h) <==> key in ref
    ensures key in ref ==> NextReference(was, ref, p, h)[key] == ref[key]
  {}

  lemma RemovalMatches(was: Table, gone: Table, now: Table, ref: Table, next: Table, key: string)
    requires Matches(was, gone, ref, key) && (key in now ==> key in was && now[key] == was[key])
    requires (key in next <==> key in ref) && (key in ref ==> next[key] == ref[key])
    ensures Matches(now, Updated(gone, was, now), next, key)
  {}

  lemma SameKeyMatches(was: Table, gone: Table, ref: Table, p: Params, h: Hit)
    requires Matches(was, gone, ref, h.key) && !Reopens(was, gone, p, h)
    ensures Matches(Handle(was, p, h).0, Updated(gone, was, Handle(was, p, h).0), NextReference(was, ref, p, h), h.key)
    ensures !Handle(was, p, h).1.Full? ==> Handle(was, p, h).1 == Tally(ref, p, h).1
  {}

  lemma ReopeningParts(was: Table, gone: Table, ref: Table, p: Params, h: Hit)
    requires Matches(was, gone, ref, h.key) && Reopens(was, gone, p, h) && Counts(ref) && p.limit >= 1
    ensures !Matches(Handle(was, p, h).0, Updated(gone, was, Handle(was, p, h).0), NextReference(was, ref, p, h), h.key)
  {}

  lemma OneStep(p: Params, hits: seq<Hit>)
    requires hits != []
    ensures var n := |hits| - 1;
            var was, gone, ref := Entries(p, hits[..n]), Removed(p, hits[..n]), Reference(p, hits[..n]);
            && Entries(p, hits) == Handle(was, p, hits[n]).0 && Removed(p, hits) == Updated(gone, was, Entries(p, hits))
            && Reference(p, hits) == NextReference(was, ref, p, hits[n])
  {
    assert Answer(p, hits) == Handle(Entries(p, hits[..|hits| - 1]), p, hits[|hits| - 1]).1;
  }

  lemma StaysInStep(p: Params, hits: seq<Hit>, key: string)
    requires hits != [] && InStep(p, hits[..|hits| - 1], key)
    requires hits[|hits| - 1].key == key ==> !ForgetsAlive(p, hits)
    ensures InStep(p, hits, key)
    ensures hits[|hits| - 1].key == key && !Answer(p, hits).Full? ==> DecidesAlike(p, hits)
  {
    var n := |hits| - 1;
    var was, gone, ref := Entries(p, hits[..n]), Removed(p, hits[..n]), Reference(p, hits[..n]);
    OneStep(p, hits);
    if hits[n].key == key {
      SameKeyMatches(was, gone, ref, p, hits[n]);
    } else {
      OthersOnlyLeave(was, ref, p, hits[n], key);
      RemovalMatches(was, gone, Entries(p, hits), ref, Reference(p, hits), key);
    }
  }

  /** A key in step leaves it exactly when a request of its own reopens a removed window that is still open. */
  lemma LeavesStepExactly(p: Params, hits: seq<Hit>, key: string)
    requires p.limit >= 1 && hits != [] && InStep(p, hits[..|hits| - 1], key)
    ensures InStep(p, hits, key) <==> !(hits[|hits| - 1].key == key && ForgetsAlive(p, hits))
  {
    var n := |hits| - 1;
    if hits[n].key == key && ForgetsAlive(p, hits) {
      OneStep(p, hits);
      ReferenceCounts(p, hits[..n]);
      ReopeningParts(Entries(p, hits[..n]), Removed(p, hits[..n]), Reference(p, hits[..n]), p, hits[n]);
    } else {
      StaysInStep(p, hits, key);
    }
  }

  /** No request of the key since the first m reopens a removed window that is still open. */
  ghost predicate KeyRemembered(p: Params, hits: seq<Hit>, m: nat, key: string) {
    |hits| <= m ||
    (KeyRemembered(p, hits[..|hits| - 1], m, key) && (hits[|hits| - 1].key == key ==> !ForgetsAlive(p, hits)))
  }

  /**
   Whatever happened before, from the moment a key is in step it stays so, and every counted request
   of it is decided like the reference, as long as no request of that key reopens a removed open window.
   */
  lemma {:induction false} DecidesAlikeSince(p: Params, hits: seq<Hit>, m: nat, key: string)
    requires m <= |hits| && InStep(p, hits[..m], key) && KeyRemembered(p, hits, m, key)
    ensures InStep(p, hits, key)
    ensures m < |hits| && hits[|hits| - 1].key == key && !Answer(p, hits).Full? ==> DecidesAlike(p, hits)
  {
    if m == |hits| {
      assert hits[..m] == hits;
    } else {
      assert hits[..|hits| - 1][..m] == hits[..m];
      DecidesAlikeSince(p, hits[..|hits| - 1], m, key);
      StaysInStep(p, hits, key);
    }
  }

  /** Every earlier reading of this key lies a whole window back. */
  ghost predicate Rested(p: Params, hits: seq<Hit>, key: string, now: int) {
    forall i :: 0 <= i < |hits| && hits[i].key == key ==> hits[i].now + p.window <= now
  }

  lemma WindowsStayClosed(was: Table, ref: Table, p: Params, h: Hit, key: string, now: int)
    requires Closed(was, key, now) && Closed(ref, key, now) && (h.key == key ==> h.now + p.window <= now)
    ensures Closed(Handle(was, p, h).0, key, now) && Closed(NextReference(was, ref, p, h), key, now)
  {}

  lemma {:induction false} RestClosesWindows(p: Params, hits: seq<Hit>, key: string, now: int)
    requires Rested(p, hits, key, now)
    ensures Closed(Entries(p, hits), key, now) && Closed(Reference(p, hits), key, now)
  {
    if hits != [] {
      var n := |hits| - 1;
      RestClosesWindows(p, hits[..n], key, now);
      OneStep(p, hits);
      WindowsStayClosed(Entries(p, hits[..n]), Reference(p, hits[..n]), p, hits[n], key, now);
    }
  }

  /**
   However far a key has fallen out of step, its first counted request a whole window after all its
   earlier ones is decided like the reference and puts it back in step.
   */
  lemma RestRestores(p: Params, hits: seq<Hit>)
    requires hits != [] && !Answer(p, hits).Full?
    requires Rested(p, hits[..|hits| - 1], hits[|hits| - 1].key, hits[|hits| - 1].now)
    ensures DecidesAlike(p, hits) && InStep(p, hits, hits[|hits| - 1].key)
  {
    RestClosesWindows(p, hits[..|hits| - 1], hits[|hits| - 1].key, hits[|hits| - 1].now);
  }

  // ------------------------------------------------------------------ clock readings that are late enough

  /** The request finds the table full and purges it. */
  predicate Purges(t: Table, p: Params, h: Hit) {
    var dropped := DropExpired(t, h.key, h.now);
    h.key !in dropped && |dropped| >= p.capacity
  }

  /** No purge so far used a clock reading above this one. */
  predicate PurgedBy(p: Params, hits: seq<Hit>, now: int) {
    hits == [] ||
    (var n := |hits| - 1;
     PurgedBy(p, hits[..n], now) && (Purges(Entries(p, hits[..n]), p, hits[n]) ==> hits[n].now <= now))
  }

  /** Only a purge removes an entry, and only an expired one. */
  lemma OnlyPurgesRemove(t: Table, p: Params, h: Hit, k: string)
    requires k in t && k !in Handle(t, p, h).0
    ensures Purges(t, p, h) && t[k].until <= h.now
  {}

  lemma {:induction false} RemovedHaveExpired(p: Params, hits: seq<Hit>, now: int)
    requires PurgedBy(p, hits, now)
    ensures forall k :: k in Removed(p, hits) ==> Removed(p, hits)[k].until <= now
  {
    if hits != [] {
      var n := |hits| - 1;
      RemovedHaveExpired(p, hits[..n], now);
      forall k | k in Removed(p, hits) ensures Removed(p, hits)[k].until <= now {
        if k in Entries(p, hits[..n]) {
          OnlyPurgesRemove(Entries(p, hits[..n]), p, hits[n], k);
        }
      }
    }
  }

  /** A request whose reading is not below that of any earlier purge forgets nothing, whatever came before. */
  lemma LateReadingForgetsNothing(p: Params, hits: seq<Hit>)
    requires hits != [] && PurgedBy(p, hits[..|hits| - 1], hits[|hits| - 1].now)
    ensures !ForgetsAlive(p, hits)
  {
    RemovedHaveExpired(p, hits[..|hits| - 1], hits[|hits| - 1].now);
  }

  ghost predicate Ordered(hits: seq<Hit>) { forall i :: 0 < i < |hits| ==> hits[i - 1].now <= hits[i].now }

  lemma {:induction false} OrderedPurges(p: Params, hits: seq<Hit>, now: int)
    requires Ordered(hits) && (hits != [] ==> hits[|hits| - 1].now <= now)
    ensures PurgedBy(p, hits, now)
  {
    if hits != [] {
      OrderedPurges(p, hits[..|hits| - 1], now);
    }
  }

  /** With readings that never run backward the limiter remembers. */
  lemma {:induction false} OrderedRemembers(p: Params, hits: seq<Hit>)
    requires Ordered(hits)
    ensures Remembers(p, hits)
  {
    if hits != [] {
      var n := |hits| - 1;
      OrderedRemembers(p, hits[..n]);
      OrderedPurges(p, hits[..n], hits[n].now);
      LateReadingForgetsNothing(p, hits);
    }
  }

  lemma OneMore(p: Params, hits: seq<Hit>, h: Hit)
    ensures Entries(p, hits + [h]) == Handle(Entries(p, hits), p, h).0
    ensures Answer(p, hits + [h]) == Handle(Entries(p, hits), p, h).1
    ensures Reference(p, hits + [h]) ==
            if Answer(p, hits + [h]).Full? then Reference(p, hits) else Tally(Reference(p, hits), p, h).0
  {
    assert (hits + [h])[..|hits|] == hits;
  }

  lemma NewKeyOpens(t: Table, p: Params, h: Hit)
    requires h.key !in t && |t| < p.capacity && p.limit >= 1
    ensures Handle(t, p, h) == (t[h.key := Entry(1, h.now + p.window)], Admitted)
    ensures Tally(t, p, h).0 == t[h.key := Entry(1, h.now + p.window)]
  {}

  lemma TwoFill(p: Params, a: string, b: string)
    requires p == Params(2, 1, 10) && a != b
    ensures Entries(p, [Hit(a, 0), Hit(b, 0)]) == map[a := Entry(1, 10), b := Entry(1, 10)]
    ensures Reference(p, [Hit(a, 0), Hit(b, 0)]) == map[a := Entry(1, 10), b := Entry(1, 10)]
  {
    var one: Table := map[a := Entry(1, 10)];
    OneMore(p, [], Hit(a, 0));
    NewKeyOpens(map[], p, Hit(a, 0));
    assert [] + [Hit(a, 0)] == [Hit(a, 0)] && one == map[][a := Entry(1, 10)];
    OneMore(p, [Hit(a, 0)], Hit(b, 0));
    assert one.Keys == {a} && |one| == |one.Keys|;
    NewKeyOpens(one, p, Hit(b, 0));
    assert [Hit(a, 0)] + [Hit(b, 0)] == [Hit(a, 0), Hit(b, 0)];
    assert one[b := Entry(1, 10)] == map[a := Entry(1, 10), b := Entry(1, 10)];
  }

  lemma FullTablePurges(t: Table, p: Params, h: Hit)
    requires h.key !in t && |t| >= p.capacity >= 1 && p.limit >= 1 && forall k :: k in t ==> t[k].until <= h.now
    ensures Handle(t, p, h) == (map[h.key := Entry(1, h.now + p.window)], Admitted)
  {
    assert Purge(t, h.now) == map[];
  }

  lemma ThirdPurges(p: Params, a: string, b: string, c: string)
    requires p == Params(2, 1, 10) && a != b && a != c && b != c
    ensures Entries(p, [Hit(a, 0), Hit(b, 0), Hit(c, 10)]) == map[c := Entry(1, 20)]
    ensures a in Reference(p, [Hit(a, 0), Hit(b, 0), Hit(c, 10)])
    ensures Reference(p, [Hit(a, 0), Hit(b, 0), Hit(c, 10)])[a] == Entry(1, 10)
  {
    var two: Table := map[a := Entry(1, 10), b := Entry(1, 10)];
    TwoFill(p, a, b);
    OneMore(p, [Hit(a, 0), Hit(b, 0)], Hit(c, 10));
    assert [Hit(a, 0), Hit(b, 0)] + [Hit(c, 10)] == [Hit(a, 0), Hit(b, 0), Hit(c, 10)];
    assert two.Keys == {a, b} && |two| == |two.Keys|;
    FullTablePurges(two, p, Hit(c, 10));
  }

  /**
   Clock readings are taken before the lock, so they can arrive out of order, and then a window that
   was purged is counted anew: the reference blocks the last of these requests, the limiter admits it.
   */
  lemma BackwardClockForgets(a: string, b: string, c: string)
    requires a != b && a != c && b != c
    ensures var p := Params(2, 1, 10);
            var hits := [Hit(a, 0), Hit(b, 0), Hit(c, 10)];
            Answer(p, hits + [Hit(a, 9)]) == Admitted && Tally(Reference(p, hits), p, Hit(a, 9)).1 == Blocked
  {
    var p := Params(2, 1, 10);
    ThirdPurges(p, a, b, c);
    OneMore(p, [Hit(a, 0), Hit(b, 0), Hit(c, 10)], Hit(a, 9));
    PutSize(map[], c, Entry(1, 20));
  }

  /** The forgotten window errs both ways: the key's next request is blocked where the reference admits it. */
  lemma ForgettingAlsoBlocks(a: string, b: string, c: string)
    requires a != b && a != c && b != c
    ensures var p := Params(2, 1, 10);
            var hits := [Hit(a, 0), Hit(b, 0), Hit(c, 10)] + [Hit(a, 9)];
            Answer(p, hits + [Hit(a, 11)]) == Blocked && Tally(Reference(p, hits), p, Hit(a, 11)).1 == Admitted
  {
    var p := Params(2, 1, 10);
    var hits := [Hit(a, 0), Hit(b, 0), Hit(c, 10)];
    ThirdPurges(p, a, b, c);
    PutSize(map[], c, Entry(1, 20));
    OneMore(p, hits, Hit(a, 9));
    NewKeyOpens(Entries(p, hits), p, Hit(a, 9));
    OneMore(p, hits + [Hit(a, 9)], Hit(a, 11));
  }

  // ------------------------------------------------------------------ how many get through

  /** Requests of one key admitted in the half-open span [start, start + window). */
  function AdmittedIn(p: Params, hits: seq<Hit>, key: string, start: int): nat {
    if hits == [] then 0
    else
      var h := hits[|hits| - 1];
      AdmittedIn(p, hits[..|hits| - 1], key, start) +
      if h.key == key && start <= h.now < start + p.window && Answer(p, hits).Admitted? then 1 else 0
  }

  function Least(a: nat, b: nat): nat { if a <= b then a else b }

  /** Requests of one key admitted since the limiter last opened an entry for it. */
  function AdmittedInEntry(p: Params, hits: seq<Hit>, key: string): nat {
    if hits == [] then 0
    else
      var n := |hits| - 1;
      var before, one := AdmittedInEntry(p, hits[..n], key), if Answer(p, hits).Admitted? then 1 else 0;
      if hits[n].key != key || Answer(p, hits).Full? then before
      else if key in DropExpired(Entries(p, hits[..n]), key, hits[n].now) then before + one
      else one
  }

  /** Whatever the clocks do, an entry admits exactly its count up to the limit, and so never more than the limit. */
  lemma {:induction false} EntryAdmitsLimit(p: Params, hits: seq<Hit>, key: string)
    ensures key in Entries(p, hits) ==> AdmittedInEntry(p, hits, key) == Least(Entries(p, hits)[key].count, p.limit)
    ensures AdmittedInEntry(p, hits, key) <= p.limit
  {
    if hits != [] {
      EntryAdmitsLimit(p, hits[..|hits| - 1], key);
    }
  }

  /** The bound that induction needs: what each position of the current window allows. */
  ghost predicate SpanBound(p: Params, ref: Table, key: string, start: int, admitted: nat, last: int) {
    && (last < start ==> admitted == 0)
    && (key !in ref ==> admitted == 0)
    && (key in ref ==>
          var began, used := ref[key].until - p.window, Least(ref[key].count, p.limit);
          && began <= last
          && (began < start ==> admitted <= used)
          && (start <= began < start + p.window ==> admitted <= p.limit + used)
          && admitted <= 2 * p.limit)
  }

  lemma SpanBoundStep(p: Params, ref: Table, h: Hit, key: string, start: int, admitted: nat, last: int)
    requires SpanBound(p, ref, key, start, admitted, last) && last <= h.now && Counts(ref)
    ensures var hit := h.key == key && start <= h.now < start + p.window && Tally(ref, p, h).1.Admitted?;
            var one := if hit then 1 else 0;
            SpanBound(p, Tally(ref, p, h).0, key, start, admitted + one, h.now)
  {}

  lemma SpanNext(p: Params, hits: seq<Hit>, key: string, start: int, last: int)
    requires Ordered(hits) && hits != [] && last <= hits[|hits| - 1].now && Counts(Reference(p, hits[..|hits| - 1]))
    requires SpanBound(p, Reference(p, hits[..|hits| - 1]), key, start, AdmittedIn(p, hits[..|hits| - 1], key, start),
                       last)
    ensures SpanBound(p, Reference(p, hits), key, start, AdmittedIn(p, hits, key, start), hits[|hits| - 1].now)
    ensures Counts(Reference(p, hits))
  {
    var n := |hits| - 1;
    if !Answer(p, hits).Full? {
      OrderedRemembers(p, hits);
      DecidesLikeReference(p, hits);
      SpanBoundStep(p, Reference(p, hits[..n]), hits[n], key, start, AdmittedIn(p, hits[..n], key, start), last);
    }
  }

  lemma {:induction false} SpanAlways(p: Params, hits: seq<Hit>, key: string, start: int)
    requires Ordered(hits) && hits != []
    ensures SpanBound(p, Reference(p, hits), key, start, AdmittedIn(p, hits, key, start), hits[|hits| - 1].now)
    ensures Counts(Reference(p, hits))
  {
    var n := |hits| - 1;
    if n > 0 {
      SpanAlways(p, hits[..n], key, start);
    }
    SpanNext(p, hits, key, start, if n > 0 then hits[n - 1].now else hits[n].now);
  }

  /** With ordered clocks no span of one window admits more than twice the limit for one key. */
  lemma AtMostTwiceTheLimit(p: Params, hits: seq<Hit>, key: string, start: int)
    requires Ordered(hits)
    ensures AdmittedIn(p, hits, key, start) <= 2 * p.limit
  {
    if hits != [] {
      SpanAlways(p, hits, key, start);
    }
  }
}

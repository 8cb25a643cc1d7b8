/**
 Any number of instances of the configuration service over one table, in every interleaving of gets and
 writes (src/system_config.rs, src/main.rs).  A get that misses reads the table and inserts into its cache
 in two steps; a write commits, then invalidates its keys in the cache of the writing instance only.
 */
module ConfigRuns {
  import opened Common
  import opened SystemConfig

  /** The table from an instant on, until the next version. */
  datatype Version = Version(since: int, table: Table)

  /** A get that missed; `read` once it has looked at the table. */
  datatype Reader = Reader(instance: nat, key: string, read: bool, readAt: int, value: Option<string>)

  datatype Answer = Answer(key: string, value: Option<string>, at: int)

  datatype Sys = Sys(
    now: int,
    versions: seq<Version>,
    caches: seq<Cache>,
    readers: seq<Reader>,
    answers: seq<Answer>)

  datatype Event =
    | Tick(seconds: nat)
    | Commit(items: seq<Item>)
    | Invalidate(instance: nat, key: string)
    | Clear(instance: nat)
    | Lookup(instance: nat, key: string)     // a get begins: a hit answers at once
    | Read(r: nat)                           // a get that missed reads the table and the environment
    | Insert(r: nat)                         // and inserts what it read, and answers

  /** What does not change: the environment, the time to live, and a bound on the time from a read to its insert. */
  datatype Setup = Setup(env: Table, ttl: nat, delay: nat)

  function CurrentTable(s: Sys): Table {
    if s.versions == [] then map[] else s.versions[|s.versions| - 1].table
  }

  function Apply(p: Setup, s: Sys, e: Event): Sys {
    match e
    case Tick(seconds) => s.(now := s.now + seconds)
    case Commit(items) => s.(versions := s.versions + [Version(s.now, Upserted(CurrentTable(s), items))])
    case Invalidate(i, key) => if i < |s.caches| then s.(caches := s.caches[i := s.caches[i] - {key}]) else s
    case Clear(i) => if i < |s.caches| then s.(caches := s.caches[i := map[]]) else s
    case Lookup(i, key) =>
      if i < |s.caches| then
        var hit := Hit(s.caches[i], key, s.now);
        if hit.Some? then s.(answers := s.answers + [Answer(key, hit, s.now)])
        else s.(caches := s.caches[i := Evicted(s.caches[i], key, s.now)],
                readers := s.readers + [Reader(i, key, false, s.now, None)])
      else s
    case Read(r) =>
      if r < |s.readers| && !s.readers[r].read then
        var was := s.readers[r];
        var value := Backing(CurrentTable(s), p.env, was.key);
        s.(readers := s.readers[r := was.(read := true, readAt := s.now, value := value)])
      else s
    case Insert(r) =>
      if CanInsert(p, s, r) then
        var reader := s.readers[r];
        var i := reader.instance;
        s.(caches := s.caches[i := Cached(s.caches[i], reader.key, reader.value, s.now + p.ttl)],
           readers := s.readers[r := reader.(read := false)],
           answers := s.answers + [Answer(reader.key, reader.value, s.now)])
      else s
  }

  /** The insert follows its read within the bound. */
  predicate CanInsert(p: Setup, s: Sys, r: nat) {
    && r < |s.readers| && s.readers[r].read && s.readers[r].instance < |s.caches|
    && s.now - s.readers[r].readAt <= p.delay
  }

  function Run(p: Setup, s: Sys, es: seq<Event>): Sys {
    if es == [] then s else Apply(p, Run(p, s, es[..|es| - 1]), es[|es| - 1])
  }

  predicate Initial(s: Sys) {
    |s.versions| == 1 && s.versions[0].since == s.now && (forall i :: 0 <= i < |s.caches| ==> s.caches[i] == map[]) &&
    s.readers == [] && s.answers == []
  }

  // ---- bounded staleness ----

  /** The value was the backing value at some instant no earlier than `since`. */
  ghost predicate HeldSince(p: Setup, versions: seq<Version>, key: string, value: Option<string>, since: int) {
    exists k :: 0 <= k < |versions| && Current(versions, k, since) && Backing(versions[k].table, p.env, key) == value
  }

  /** Version `k` was still the current one at or after `since`. */
  predicate Current(versions: seq<Version>, k: nat, since: int)
    requires k < |versions|
  {
    k + 1 == |versions| || since <= versions[k + 1].since
  }

  ghost predicate CacheOk(p: Setup, s: Sys, c: Cache) {
    forall key :: key in c ==>
      && c[key].expiresAt - p.ttl <= s.now
      && HeldSince(p, s.versions, key, Some(c[key].value), c[key].expiresAt - p.ttl - p.delay)
  }

  ghost predicate ReaderOk(p: Setup, s: Sys, r: Reader) {
    r.read ==> r.readAt <= s.now && HeldSince(p, s.versions, r.key, r.value, r.readAt)
  }

  ghost predicate AnswerOk(p: Setup, s: Sys, a: Answer) {
    a.at <= s.now && HeldSince(p, s.versions, a.key, a.value, a.at - p.ttl - p.delay)
  }

  ghost predicate Inv(p: Setup, s: Sys) {
    && s.versions != []
    && (forall i :: 0 <= i < |s.caches| ==> CacheOk(p, s, s.caches[i]))
    && (forall r :: 0 <= r < |s.readers| ==> ReaderOk(p, s, s.readers[r]))
    && (forall a :: 0 <= a < |s.answers| ==> AnswerOk(p, s, s.answers[a]))
  }

  lemma HeldLonger(p: Setup, versions: seq<Version>, key: string, value: Option<string>, since: int, earlier: int)
    requires HeldSince(p, versions, key, value, since) && earlier <= since
    ensures HeldSince(p, versions, key, value, earlier)
  {
    var k :| 0 <= k < |versions| && Current(versions, k, since) && Backing(versions[k].table, p.env, key) == value;
    assert Current(versions, k, earlier);
  }

  /** A later version does not take away what was held before it. */
  lemma HeldThroughCommit(p: Setup, versions: seq<Version>, v: Version, key: string, value: Option<string>, since: int)
    requires HeldSince(p, versions, key, value, since) && since <= v.since
    ensures HeldSince(p, versions + [v], key, value, since)
  {
    var k :| 0 <= k < |versions| && Current(versions, k, since) && Backing(versions[k].table, p.env, key) == value;
    assert Current(versions + [v], k, since) && (versions + [v])[k] == versions[k];
  }

  lemma CommitKeeps(p: Setup, s: Sys, items: seq<Item>)
    requires Inv(p, s)
    ensures Inv(p, Apply(p, s, Commit(items)))
  {
    var t := Apply(p, s, Commit(items));
    var v := Version(s.now, Upserted(CurrentTable(s), items));
    assert t.versions == s.versions + [v];
    hide HeldSince;
    forall i | 0 <= i < |t.caches| ensures CacheOk(p, t, t.caches[i]) {
      var c := s.caches[i];
      assert CacheOk(p, s, c);
      forall key | key in c
        ensures HeldSince(p, t.versions, key, Some(c[key].value), c[key].expiresAt - p.ttl - p.delay)
      {
        HeldThroughCommit(p, s.versions, v, key, Some(c[key].value), c[key].expiresAt - p.ttl - p.delay);
      }
    }
    forall r | 0 <= r < |t.readers| ensures ReaderOk(p, t, t.readers[r]) {
      var reader := s.readers[r];
      assert ReaderOk(p, s, reader);
      if reader.read {
        HeldThroughCommit(p, s.versions, v, reader.key, reader.value, reader.readAt);
      }
    }
    forall a | 0 <= a < |t.answers| ensures AnswerOk(p, t, t.answers[a]) {
      var answer := s.answers[a];
      assert AnswerOk(p, s, answer);
      HeldThroughCommit(p, s.versions, v, answer.key, answer.value, answer.at - p.ttl - p.delay);
    }
  }

  lemma LookupKeeps(p: Setup, s: Sys, i: nat, key: string)
    requires Inv(p, s)
    ensures Inv(p, Apply(p, s, Lookup(i, key)))
  {
    hide HeldSince;
    if i < |s.caches| {
      var c := s.caches[i];
      assert CacheOk(p, s, c);
      if Hit(c, key, s.now).Some? {
        HeldLonger(p, s.versions, key, Some(c[key].value), c[key].expiresAt - p.ttl - p.delay, s.now - p.ttl - p.delay);
      } else {
        assert CacheOk(p, s, Evicted(c, key, s.now));
      }
    }
  }

  lemma ReadKeeps(p: Setup, s: Sys, r: nat)
    requires Inv(p, s)
    ensures Inv(p, Apply(p, s, Read(r)))
  {
    if r < |s.readers| {
      var k := |s.versions| - 1;
      assert Current(s.versions, k, s.now) && Backing(s.versions[k].table, p.env, s.readers[r].key) ==
        Backing(CurrentTable(s), p.env, s.readers[r].key);
      assert HeldSince(p, s.versions, s.readers[r].key, Backing(CurrentTable(s), p.env, s.readers[r].key), s.now);
    }
    hide HeldSince;
  }

  lemma InsertKeeps(p: Setup, s: Sys, r: nat)
    requires Inv(p, s)
    ensures Inv(p, Apply(p, s, Insert(r)))
  {
    hide HeldSince;
    if CanInsert(p, s, r) {
      var reader := s.readers[r];
      assert ReaderOk(p, s, reader) && CacheOk(p, s, s.caches[reader.instance]);
      HeldLonger(p, s.versions, reader.key, reader.value, reader.readAt, s.now - p.delay);
      HeldLonger(p, s.versions, reader.key, reader.value, reader.readAt, s.now - p.ttl - p.delay);
    }
  }

  lemma ApplyKeeps(p: Setup, s: Sys, e: Event)
    requires Inv(p, s)
    ensures Inv(p, Apply(p, s, e))
  {
    hide HeldSince;
    match e
    case Tick(seconds) =>
    case Commit(items) => CommitKeeps(p, s, items);
    case Invalidate(i, key) =>
      if i < |s.caches| {
        assert CacheOk(p, s, s.caches[i]);
      }
    case Clear(i) =>
    case Lookup(i, key) => LookupKeeps(p, s, i, key);
    case Read(r) => ReadKeeps(p, s, r);
    case Insert(r) => InsertKeeps(p, s, r);
  }

  lemma {:induction false} RunKeeps(p: Setup, s: Sys, es: seq<Event>)
    requires Initial(s)
    ensures Inv(p, Run(p, s, es))
  {
    if es != [] {
      RunKeeps(p, s, es[..|es| - 1]);
      ApplyKeeps(p, Run(p, s, es[..|es| - 1]), es[|es| - 1]);
    }
  }

  /**
   Whatever a get answers at time t, be it a value or that there is none, was the backing value at some
   instant no earlier than t - ttl - delay, in every interleaving and for any number of instances.
   */
  lemma BoundedStaleness(p: Setup, s: Sys, es: seq<Event>, a: Answer)
    requires Initial(s) && a in Run(p, s, es).answers
    ensures HeldSince(p, Run(p, s, es).versions, a.key, a.value, a.at - p.ttl - p.delay)
  {
    RunKeeps(p, s, es);
  }

  // ---- the bound is attained ----

  /**
   The delay counts: a get that read just before a write and inserts after it brings the old value back, and
   the instance that made the write keeps answering it for as long as the bound allows.
   */
  function StaleRun(delay: nat, ttl: nat, item: Item): seq<Event> {
    [Lookup(0, item.key), Read(0), Commit([item]), Invalidate(0, item.key), Tick(delay), Insert(0), Tick(ttl),
     Lookup(0, item.key)]
  }

  lemma RunNext(p: Setup, s: Sys, es: seq<Event>, e: Event)
    ensures Run(p, s, es + [e]) == Apply(p, Run(p, s, es), e)
  {
    assert (es + [e])[..|es|] == es;
  }

  lemma StaleRunSteps(p: Setup, s: Sys, item: Item)
    ensures var a := Apply(p, Apply(p, s, Lookup(0, item.key)), Read(0));
            var b := Apply(p, Apply(p, a, Commit([item])), Invalidate(0, item.key));
            var c := Apply(p, Apply(p, b, Tick(p.delay)), Insert(0));
            Run(p, s, StaleRun(p.delay, p.ttl, item)) == Apply(p, Apply(p, c, Tick(p.ttl)), Lookup(0, item.key))
  {
    hide Apply;
    var key := item.key;
    assert Run(p, s, []) == s;
    RunNext(p, s, [], Lookup(0, key));
    RunNext(p, s, [] + [Lookup(0, key)], Read(0));
    var es := [] + [Lookup(0, key)] + [Read(0)];
    RunNext(p, s, es, Commit([item]));
    RunNext(p, s, es + [Commit([item])], Invalidate(0, key));
    var fs := es + [Commit([item])] + [Invalidate(0, key)];
    RunNext(p, s, fs, Tick(p.delay));
    RunNext(p, s, fs + [Tick(p.delay)], Insert(0));
    var gs := fs + [Tick(p.delay)] + [Insert(0)];
    RunNext(p, s, gs, Tick(p.ttl));
    RunNext(p, s, gs + [Tick(p.ttl)], Lookup(0, key));
    assert gs + [Tick(p.ttl)] + [Lookup(0, key)] == StaleRun(p.delay, p.ttl, item);
  }

  /** A get has read the old value when the write commits and drops the key from the cache. */
  function HalfWay(s: Sys, item: Item, stale: string): Sys
    requires s.versions != []
  {
    s.(versions := s.versions + [Version(s.now, s.versions[0].table[item.key := item.value])],
       readers := [Reader(0, item.key, true, s.now, Some(stale))])
  }

  predicate StaleStart(s: Sys, item: Item, stale: string) {
    && Initial(s) && |s.caches| >= 1 && item.key in s.versions[0].table
    && s.versions[0].table[item.key] == stale && stale != item.value
  }

  lemma ReadThenCommit(p: Setup, s: Sys, item: Item, stale: string)
    requires StaleStart(s, item, stale)
    ensures var a := Apply(p, Apply(p, s, Lookup(0, item.key)), Read(0));
            Apply(p, Apply(p, a, Commit([item])), Invalidate(0, item.key)) == HalfWay(s, item, stale)
  {
    var a := Apply(p, Apply(p, s, Lookup(0, item.key)), Read(0));
    assert a == s.(readers := [Reader(0, item.key, true, s.now, Some(stale))]);
    assert Upserted(s.versions[0].table, [item]) == s.versions[0].table[item.key := item.value];
    assert s.caches[0] - {item.key} == s.caches[0];
  }

  lemma InsertThenHit(p: Setup, s: Sys, item: Item, stale: string)
    requires StaleStart(s, item, stale)
    ensures var c := Apply(p, Apply(p, HalfWay(s, item, stale), Tick(p.delay)), Insert(0));
            var t := Apply(p, Apply(p, c, Tick(p.ttl)), Lookup(0, item.key));
            && |t.answers| == 2 && t.answers[1] == Answer(item.key, Some(stale), s.now + p.delay + p.ttl)
            && t.versions == HalfWay(s, item, stale).versions
  {
    var c := Apply(p, Apply(p, HalfWay(s, item, stale), Tick(p.delay)), Insert(0));
    assert c.caches[0] == map[item.key := CacheEntry(stale, s.now + p.delay + p.ttl)];
    assert c.answers == [Answer(item.key, Some(stale), s.now + p.delay)];
  }

  lemma BoundIsAttained(p: Setup, s: Sys, item: Item, stale: string)
    requires StaleStart(s, item, stale)
    ensures var t := Run(p, s, StaleRun(p.delay, p.ttl, item));
            && |t.answers| == 2 && t.answers[1] == Answer(item.key, Some(stale), s.now + p.delay + p.ttl)
            && forall since :: HeldSince(p, t.versions, item.key, Some(stale), since) ==> since <= s.now
  {
    StaleRunSteps(p, s, item);
    ReadThenCommit(p, s, item, stale);
    InsertThenHit(p, s, item, stale);
    hide Apply, StaleRun, Run;
  }
}

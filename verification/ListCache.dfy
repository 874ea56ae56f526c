/**
 The versioned product-list cache: readers that look up, query and fill, writers that commit and bump
 the version, interleaved command by command, with slow readers storing old results late.
 */
module ListCache {
  import opened Base

  /** The request parameters that make up a cache key. */
  datatype Query = Query(code: string, name: string, limit: int, page: int, orderBy: string, orderDesc: bool)

  /** A hex digest. */
  type Digest = h: string | |h| == 64 witness seq(64, i => '0')

  // ------------------------------------------------------------------ keys

  function Decimal(n: nat): (r: string)
    ensures |r| >= 1 && (n >= 10 ==> |r| >= 2)
  {
    if n < 10 then [Digit(n)] else Decimal(n / 10) + [Digit(n % 10)]
  }

  function Digit(d: nat): char
    requires d < 10
  {
    '0' + d as char
  }

  lemma LastDigit(n: nat)
    ensures var r := Decimal(n); r[|r| - 1] == Digit(n % 10) && (n >= 10 ==> r[..|r| - 1] == Decimal(n / 10))
  {
  }

  lemma DigitInjective(c: nat, d: nat)
    requires c < 10 && d < 10 && Digit(c) == Digit(d)
    ensures c == d
  {
    assert Digit(c) as int == '0' as int + c && Digit(d) as int == '0' as int + d;
  }

  lemma {:induction false} DecimalInjective(m: nat, n: nat)
    requires Decimal(m) == Decimal(n)
    ensures m == n
  {
    LastDigit(m);
    LastDigit(n);
    DigitInjective(m % 10, n % 10);
    if m >= 10 && n >= 10 { DecimalInjective(m / 10, n / 10); }
  }

  function ListKey(version: nat, digest: Digest): string { "cache:products:v" + Decimal(version) + ":" + digest }

  /** A key determines its version and its digest: the digest has a fixed length. */
  lemma ListKeyInjective(u: nat, c: Digest, v: nat, d: Digest)
    requires ListKey(u, c) == ListKey(v, d)
    ensures u == v && c == d
  {
    var a, b := ListKey(u, c), ListKey(v, d);
    assert c == a[|a| - 64..] && d == b[|b| - 64..];
    assert Decimal(u) == a[16..|a| - 65] && Decimal(v) == b[16..|b| - 65];
    DecimalInjective(u, v);
  }

  /** How versions and queries are turned into cache keys. */
  type Key = (nat, Query) -> string

  /** The digest does not collide on the queries in use. */
  predicate Injective(digest: Query -> Digest, qs: set<Query>) {
    forall p, q :: p in qs && q in qs && digest(p) == digest(q) ==> p == q
  }

  /** Different versions and different queries in use never share a key. */
  ghost predicate DistinctKeys(key: Key, qs: set<Query>) {
    forall u, p, v, q :: p in qs && q in qs && key(u, p) == key(v, q) ==> u == v && p == q
  }

  /** The handler's keys. */
  function HandlerKey(digest: Query -> Digest): Key { (v: nat, q: Query) => ListKey(v, digest(q)) }

  lemma ListKeysAreDistinct(digest: Query -> Digest, qs: set<Query>)
    requires Injective(digest, qs)
    ensures DistinctKeys(HandlerKey(digest), qs)
  {
    var key := HandlerKey(digest);
    forall u, p, v, q | p in qs && q in qs && key(u, p) == key(v, q) ensures u == v && p == q {
      ListKeyInjective(u, digest(p), v, digest(q));
    }
  }

  /** A digest that marks the position of a query in a list. */
  function PositionDigest(list: seq<Query>): Query -> Digest {
    (q: Query) => seq(64, i => if 0 <= i < |list| && list[i] == q then '1' else '0')
  }

  /** Such digests exist: any 64 queries, say, have one that does not collide on them. */
  lemma DigestsExist(list: seq<Query>)
    requires |list| <= 64
    ensures Injective(PositionDigest(list), set q | q in list)
  {
    var digest := PositionDigest(list);
    forall p, q | p in list && q in list && digest(p) == digest(q) ensures p == q {
      var i :| 0 <= i < |list| && list[i] == p;
      assert digest(p)[i] == '1' && digest(q)[i] == if list[i] == q then '1' else '0';
    }
  }

  // ------------------------------------------------------------------ the machine

  /** When something was read: the revision of the product table, and the version bumps done by then. */
  datatype Stamp = Stamp(revision: nat, bumps: nat)

  /** A list result: the query it answers, when its count was read, when its rows were. */
  datatype Page = Page(query: Query, count: Stamp, rows: Stamp)

  datatype ReaderPc =
    | AskVersion | AskCache(v: nat) | CountRows(v: nat) | FetchRows(v: nat, count: Stamp) | Store(v: nat, page: Page)
    | Over

  /** Whether a request's read of the version worked, and the version it went on with. */
  datatype VersionRead = VersionRead(ok: bool, taken: nat)

  /** A list request; `start` is how many bumps had been done when it arrived. */
  datatype Reader = Reader(
    query: Query, start: nat, versionRead: Option<VersionRead>, pc: ReaderPc, answer: Option<Page>)

  /** `bump` is the number of the writer's own bump. */
  datatype Writer = Writing | Committed(revision: nat) | Bumped(revision: nat, bump: nat) | BumpFailed

  /** `version` is the Redis key; `bumps[i]` is the table's revision at bump number i + 1. */
  datatype Sys = Sys(
    revision: nat, version: Option<nat>, bumps: seq<nat>, cache: map<string, Page>,
    readers: map<string, Reader>, writers: map<string, Writer>)

  datatype Event =
    | Ask(r: string, query: Query)
    | Read(r: string, ok: bool)
    | Leave(r: string)
    | Expire(name: string)
    | BeginWrite(w: string)
    | Commit(w: string)
    | Bump(w: string, outcome: Outcome)
    | EvictVersion

  function VersionOf(s: Sys): nat { if s.version.Some? then s.version.value else 0 }

  function Now(s: Sys): Stamp { Stamp(s.revision, |s.bumps|) }

  function Put(s: Sys, r: string, x: Reader): Sys { s.(readers := s.readers[r := x]) }

  /** One command of a list request; `ok` is whether it worked. */
  function ReadStep(key: Key, s: Sys, r: string, ok: bool): Sys
    requires r in s.readers
  {
    var x := s.readers[r];
    match x.pc
    case AskVersion =>
      var v := if ok then VersionOf(s) else 0;
      Put(s, r, x.(versionRead := Some(VersionRead(ok, v)), pc := AskCache(v)))
    case AskCache(v) =>
      var name := key(v, x.query);
      if ok && name in s.cache then Put(s, r, x.(pc := Over, answer := Some(s.cache[name])))
      else Put(s, r, x.(pc := CountRows(v)))
    case CountRows(v) => Put(s, r, x.(pc := if ok then FetchRows(v, Now(s)) else Over))
    case FetchRows(v, count) =>
      var page := Page(x.query, count, Now(s));
      if ok then Put(s, r, x.(pc := Store(v, page), answer := Some(page))) else Put(s, r, x.(pc := Over))
    case Store(v, page) =>
      var t := Put(s, r, x.(pc := Over));
      if ok then t.(cache := t.cache[key(v, x.query) := page]) else t
    case Over => s
  }

  function BumpStep(s: Sys, w: string, outcome: Outcome): Sys {
    if w !in s.writers || !s.writers[w].Committed? then s
    else if outcome == Lost then s.(writers := s.writers[w := BumpFailed])
    else
      s.(version := Some(VersionOf(s) + 1), bumps := s.bumps + [s.revision],
         writers := s.writers[w := Bumped(s.writers[w].revision, |s.bumps| + 1)])
  }

  /** A writer begins its next update when its last one is over. */
  predicate CanBegin(s: Sys, w: string) { w in s.writers ==> s.writers[w].Bumped? || s.writers[w].BumpFailed? }

  function Apply(key: Key, s: Sys, ev: Event): Sys {
    match ev
    case Ask(r, query) => if r in s.readers then s else Put(s, r, Reader(query, |s.bumps|, None, AskVersion, None))
    case Read(r, ok) => if r in s.readers then ReadStep(key, s, r, ok) else s
    case Leave(r) => s.(readers := s.readers - {r})
    case Expire(name) => s.(cache := s.cache - {name})
    case BeginWrite(w) => if CanBegin(s, w) then s.(writers := s.writers[w := Writing]) else s
    case Commit(w) =>
      if w in s.writers && s.writers[w].Writing? then
        s.(revision := s.revision + 1, writers := s.writers[w := Committed(s.revision + 1)])
      else s
    case Bump(w, outcome) => BumpStep(s, w, outcome)
    case EvictVersion => s.(version := None)
  }

  function Run(key: Key, s: Sys, events: seq<Event>): Sys {
    if events == [] then s else Apply(key, Run(key, s, events[..|events| - 1]), events[|events| - 1])
  }

  // ------------------------------------------------------------------ the invariant

  /** Read no earlier than the bump to version v. */
  predicate Since(s: Sys, x: Stamp, v: nat) {
    v <= x.bumps <= |s.bumps| && x.revision <= s.revision && (v >= 1 ==> s.bumps[v - 1] <= x.revision)
  }

  predicate PageSince(s: Sys, p: Page, v: nat, q: Query) { p.query == q && Since(s, p.count, v) && Since(s, p.rows, v) }

  /** The version a request went on with: its data cannot be older than that bump. */
  function Floor(x: Reader): nat { if x.versionRead.Some? then x.versionRead.value.taken else 0 }

  predicate ReaderOk(s: Sys, qs: set<Query>, x: Reader) {
    && x.query in qs && x.start <= |s.bumps|
    && (x.answer.Some? ==> PageSince(s, x.answer.value, Floor(x), x.query))
    && match x.pc
       case AskVersion => x.versionRead.None? && x.answer.None?
       case AskCache(v) => Floor(x) <= v <= |s.bumps|
       case CountRows(v) => Floor(x) <= v <= |s.bumps|
       case FetchRows(v, count) => Floor(x) <= v && Since(s, count, v)
       case Store(v, page) => Floor(x) <= v && PageSince(s, page, v, x.query)
       case Over => true
  }

  predicate WriterOk(s: Sys, w: Writer) {
    match w
    case Committed(revision) => revision <= s.revision
    case Bumped(revision, bump) => 1 <= bump <= |s.bumps| && revision <= s.bumps[bump - 1]
    case _ => true
  }

  predicate BumpsOk(s: Sys) {
    && VersionOf(s) <= |s.bumps|
    && (forall i :: 0 <= i < |s.bumps| ==> s.bumps[i] <= s.revision)
    && (forall i, j :: 0 <= i <= j < |s.bumps| ==> s.bumps[i] <= s.bumps[j])
  }

  /** What is stored for version v was read no earlier than the bump to v, and answers its key's query. */
  ghost predicate CacheOk(key: Key, qs: set<Query>, s: Sys) {
    forall v: nat, q: Query :: q in qs && key(v, q) in s.cache ==> PageSince(s, s.cache[key(v, q)], v, q)
  }

  ghost predicate Inv(key: Key, qs: set<Query>, s: Sys) {
    && BumpsOk(s) && CacheOk(key, qs, s)
    && (forall r :: r in s.readers ==> ReaderOk(s, qs, s.readers[r]))
    && (forall w :: w in s.writers ==> WriterOk(s, s.writers[w]))
  }

  /** Revisions and bumps only grow. */
  predicate Later(s: Sys, t: Sys) { s.revision <= t.revision && s.bumps <= t.bumps }

  lemma ReaderStays(s: Sys, t: Sys, qs: set<Query>, x: Reader)
    requires ReaderOk(s, qs, x) && Later(s, t)
    ensures ReaderOk(t, qs, x)
  {
  }

  lemma Weaken(s: Sys, p: Page, v: nat, u: nat, q: Query)
    requires BumpsOk(s) && PageSince(s, p, v, q) && u <= v
    ensures PageSince(s, p, u, q)
  {
  }

  lemma NowIsSince(s: Sys, v: nat)
    requires BumpsOk(s) && v <= |s.bumps|
    ensures Since(s, Now(s), v)
  {
  }

  lemma FromCache(key: Key, qs: set<Query>, s: Sys, x: Reader)
    requires BumpsOk(s) && CacheOk(key, qs, s) && ReaderOk(s, qs, x) && x.pc.AskCache?
    ensures key(x.pc.v, x.query) in s.cache ==> PageSince(s, s.cache[key(x.pc.v, x.query)], Floor(x), x.query)
  {
    var v, q := x.pc.v, x.query;
    if key(v, q) in s.cache { Weaken(s, s.cache[key(v, q)], v, Floor(x), q); }
  }

  lemma FromTable(s: Sys, qs: set<Query>, x: Reader)
    requires BumpsOk(s) && ReaderOk(s, qs, x) && x.pc.FetchRows?
    ensures var page := Page(x.query, x.pc.count, Now(s));
            PageSince(s, page, x.pc.v, x.query) && PageSince(s, page, Floor(x), x.query)
  {
    NowIsSince(s, x.pc.v);
    Weaken(s, Page(x.query, x.pc.count, Now(s)), x.pc.v, Floor(x), x.query);
  }

  lemma ReadKeepsReader(key: Key, qs: set<Query>, s: Sys, r: string, ok: bool)
    requires BumpsOk(s) && CacheOk(key, qs, s) && r in s.readers && ReaderOk(s, qs, s.readers[r])
    ensures ReaderOk(s, qs, ReadStep(key, s, r, ok).readers[r])
  {
    var x := s.readers[r];
    match x.pc {
      case AskCache(v) => FromCache(key, qs, s, x);
      case CountRows(v) => NowIsSince(s, v);
      case FetchRows(v, count) => FromTable(s, qs, x);
      case _ =>
    }
  }

  lemma StoreKeepsCache(key: Key, qs: set<Query>, s: Sys, t: Sys, v: nat, q: Query, page: Page)
    requires DistinctKeys(key, qs) && CacheOk(key, qs, s) && q in qs && PageSince(s, page, v, q)
    requires t.revision == s.revision && t.bumps == s.bumps
    requires t.cache == s.cache[key(v, q) := page]
    ensures CacheOk(key, qs, t)
  {
    forall u: nat, p: Query | p in qs && key(u, p) in t.cache ensures PageSince(t, t.cache[key(u, p)], u, p) {
      if key(u, p) != key(v, q) { assert PageSince(s, s.cache[key(u, p)], u, p); }
    }
  }

  lemma CacheStays(key: Key, qs: set<Query>, s: Sys, t: Sys)
    requires CacheOk(key, qs, s) && Later(s, t)
    requires forall name :: name in t.cache ==> name in s.cache && t.cache[name] == s.cache[name]
    ensures CacheOk(key, qs, t)
  {
    forall u: nat, p: Query | p in qs && key(u, p) in t.cache ensures PageSince(t, t.cache[key(u, p)], u, p) {
      assert PageSince(s, s.cache[key(u, p)], u, p);
    }
  }

  lemma ReadKeeps(key: Key, qs: set<Query>, s: Sys, r: string, ok: bool)
    requires DistinctKeys(key, qs) && Inv(key, qs, s) && r in s.readers
    ensures Inv(key, qs, ReadStep(key, s, r, ok))
  {
    var t := ReadStep(key, s, r, ok);
    var x := s.readers[r];
    ReadKeepsReader(key, qs, s, r, ok);
    if x.pc.Store? && ok {
      StoreKeepsCache(key, qs, s, t, x.pc.v, x.query, x.pc.page);
    } else {
      CacheStays(key, qs, s, t);
    }
    ReadersStay(s, t, qs, r);
  }

  lemma ReadersStay(s: Sys, t: Sys, qs: set<Query>, r: string)
    requires (forall k :: k in s.readers ==> ReaderOk(s, qs, s.readers[k])) && Later(s, t)
    requires r in t.readers && t.readers == s.readers[r := t.readers[r]] && ReaderOk(s, qs, t.readers[r])
    ensures forall k :: k in t.readers ==> ReaderOk(t, qs, t.readers[k])
  {
    forall k | k in t.readers ensures ReaderOk(t, qs, t.readers[k]) {
      if k != r { ReaderStays(s, t, qs, s.readers[k]); } else { ReaderStays(s, t, qs, t.readers[r]); }
    }
  }

  lemma WriterStays(s: Sys, t: Sys, w: Writer)
    requires WriterOk(s, w) && Later(s, t)
    ensures WriterOk(t, w)
  {
  }

  lemma BumpKeeps(s: Sys, w: string, outcome: Outcome)
    requires BumpsOk(s) && (forall k :: k in s.writers ==> WriterOk(s, s.writers[k]))
    ensures var t := BumpStep(s, w, outcome);
            BumpsOk(t) && Later(s, t) && forall k :: k in t.writers ==> WriterOk(t, t.writers[k])
  {
    var t := BumpStep(s, w, outcome);
    forall k | k in t.writers ensures WriterOk(t, t.writers[k]) {
      if k != w { WriterStays(s, t, s.writers[k]); } else { assert WriterOk(s, s.writers[w]); }
    }
  }

  lemma TableKeeps(key: Key, s: Sys, ev: Event)
    requires BumpsOk(s) && (forall k :: k in s.writers ==> WriterOk(s, s.writers[k]))
    requires !ev.Read? && !ev.Bump?
    ensures var t := Apply(key, s, ev);
            BumpsOk(t) && Later(s, t) && forall k :: k in t.writers ==> WriterOk(t, t.writers[k])
  {
    var t := Apply(key, s, ev);
    forall k | k in t.writers ensures WriterOk(t, t.writers[k]) {
      if k in s.writers { WriterStays(s, t, s.writers[k]); }
    }
  }

  lemma WriteKeeps(key: Key, qs: set<Query>, s: Sys, ev: Event)
    requires Inv(key, qs, s) && !ev.Read? && (ev.Ask? ==> ev.query in qs)
    ensures Inv(key, qs, Apply(key, s, ev))
  {
    var t := Apply(key, s, ev);
    if ev.Bump? { BumpKeeps(s, ev.w, ev.outcome); } else { TableKeeps(key, s, ev); }
    CacheStays(key, qs, s, t);
    forall k | k in t.readers ensures ReaderOk(t, qs, t.readers[k]) {
      if k in s.readers { ReaderStays(s, t, qs, s.readers[k]); }
    }
  }

  /** Every query asked is one of qs. */
  predicate Asks(events: seq<Event>, qs: set<Query>) { forall ev :: ev in events && ev.Ask? ==> ev.query in qs }

  lemma {:induction false} RunKeeps(key: Key, qs: set<Query>, s: Sys, events: seq<Event>)
    requires DistinctKeys(key, qs) && Inv(key, qs, s) && Asks(events, qs)
    ensures Inv(key, qs, Run(key, s, events))
    decreases |events|
  {
    if events != [] {
      var front, ev := events[..|events| - 1], events[|events| - 1];
      RunKeeps(key, qs, s, front);
      var u := Run(key, s, front);
      if ev.Read? {
        if ev.r in u.readers { ReadKeeps(key, qs, u, ev.r, ev.ok); }
      } else {
        WriteKeeps(key, qs, u, ev);
      }
    }
  }

  // ------------------------------------------------------------------ freshness

  function Start(revision: nat): Sys { Sys(revision, None, [], map[], map[], map[]) }

  /** Request r has an answer, and writer w has bumped the version. */
  predicate Answered(s: Sys, r: string, w: string) {
    && r in s.readers && s.readers[r].answer.Some? && s.readers[r].versionRead.Some?
    && w in s.writers && s.writers[w].Bumped?
  }

  /** r's answer is for its own query, and its count and its rows were read after w's bump, so they show w's update. */
  predicate Fresh(s: Sys, r: string, w: string)
    requires Answered(s, r, w)
  {
    var page, writer := s.readers[r].answer.value, s.writers[w];
    && page.query == s.readers[r].query
    && writer.bump <= page.count.bumps && writer.bump <= page.rows.bumps
    && writer.revision <= page.count.revision && writer.revision <= page.rows.revision
  }

  /**
   In every run, evictions of the version key and all other failures included: a request shows the update
   of every writer whose bump is not past the version the request went on with, however late a slow reader
   stores an old result.
   */
  lemma NoOlderThanTaken(key: Key, qs: set<Query>, revision: nat, events: seq<Event>, r: string, w: string)
    requires DistinctKeys(key, qs) && Asks(events, qs)
    requires var s := Run(key, Start(revision), events);
             Answered(s, r, w) && s.writers[w].bump <= s.readers[r].versionRead.value.taken
    ensures Fresh(Run(key, Start(revision), events), r, w)
  {
    RunKeeps(key, qs, Start(revision), events);
    var s := Run(key, Start(revision), events);
    assert ReaderOk(s, qs, s.readers[r]) && WriterOk(s, s.writers[w]);
    var x := s.readers[r];
    Weaken(s, x.answer.value, Floor(x), s.writers[w].bump, x.query);
  }

  /** A version read that worked took at least the bumps done on arrival. */
  predicate TookItsStart(x: Reader) {
    x.versionRead.Some? && x.versionRead.value.ok ==> x.versionRead.value.taken >= x.start
  }

  predicate InStep(s: Sys) {
    && VersionOf(s) == |s.bumps|
    && forall r :: r in s.readers ==> s.readers[r].start <= |s.bumps| && TookItsStart(s.readers[r])
  }

  lemma StepInStep(key: Key, s: Sys, ev: Event)
    requires InStep(s) && ev != EvictVersion
    ensures InStep(Apply(key, s, ev))
  {
    if ev.Read? {
      if ev.r in s.readers { ReadInStep(key, s, ev.r, ev.ok); }
    } else {
      OthersInStep(key, s, ev);
    }
  }

  lemma ReadInStep(key: Key, s: Sys, r: string, ok: bool)
    requires InStep(s) && r in s.readers
    ensures InStep(ReadStep(key, s, r, ok))
  {
    var t := ReadStep(key, s, r, ok);
    assert TookItsStart(s.readers[r]);
    assert t.readers == s.readers[r := t.readers[r]] && t.version == s.version && t.bumps == s.bumps;
    assert t.readers[r].start == s.readers[r].start && TookItsStart(t.readers[r]);
  }

  lemma OthersInStep(key: Key, s: Sys, ev: Event)
    requires InStep(s) && ev != EvictVersion && !ev.Read?
    ensures InStep(Apply(key, s, ev))
  {
    var t := Apply(key, s, ev);
    assert |s.bumps| <= |t.bumps|;
    forall r | r in t.readers ensures t.readers[r].start <= |t.bumps| && TookItsStart(t.readers[r]) {
      if r in s.readers { assert TookItsStart(s.readers[r]); }
    }
  }

  lemma {:induction false} RunInStep(key: Key, revision: nat, events: seq<Event>)
    requires EvictVersion !in events
    ensures InStep(Run(key, Start(revision), events))
    decreases |events|
  {
    if events != [] {
      var front := events[..|events| - 1];
      RunInStep(key, revision, front);
      StepInStep(key, Run(key, Start(revision), front), events[|events| - 1]);
    }
  }

  /**
   Without an eviction of the version key, a request whose own version read worked is fresh after every bump
   before it.
   */
  lemma ListsAreFresh(key: Key, qs: set<Query>, revision: nat, events: seq<Event>, r: string, w: string)
    requires DistinctKeys(key, qs) && Asks(events, qs) && EvictVersion !in events
    requires var s := Run(key, Start(revision), events);
             Answered(s, r, w) && s.writers[w].bump <= s.readers[r].start && s.readers[r].versionRead.value.ok
    ensures Fresh(Run(key, Start(revision), events), r, w)
  {
    RunInStep(key, revision, events);
    assert TookItsStart(Run(key, Start(revision), events).readers[r]);
    NoOlderThanTaken(key, qs, revision, events, r, w);
  }

  lemma RunSnoc(key: Key, s: Sys, events: seq<Event>, ev: Event)
    ensures Run(key, s, events + [ev]) == Apply(key, Run(key, s, events), ev)
  {
    assert (events + [ev])[..|events|] == events;
  }

  lemma RunAppendOne(key: Key, s: Sys, t: Sys, xs: seq<Event>, ys: seq<Event>, ev: Event)
    requires Run(key, s, xs + ys) == Run(key, t, ys)
    ensures Run(key, s, xs + (ys + [ev])) == Run(key, t, ys + [ev])
  {
    RunSnoc(key, s, xs + ys, ev);
    RunSnoc(key, t, ys, ev);
    assert xs + ys + [ev] == xs + (ys + [ev]);
  }

  lemma {:induction false} RunAppend(key: Key, s: Sys, t: Sys, xs: seq<Event>, ys: seq<Event>)
    requires Run(key, s, xs) == t
    ensures Run(key, s, xs + ys) == Run(key, t, ys)
    decreases |ys|
  {
    if ys == [] {
      assert xs + ys == xs;
    } else {
      var front, last := ys[..|ys| - 1], ys[|ys| - 1];
      assert ys == front + [last];
      RunAppend(key, s, t, xs, front);
      RunAppendOne(key, s, t, xs, front, last);
    }
  }

  lemma RunOfThree(key: Key, s: Sys, a: Event, b: Event, c: Event, s1: Sys, s2: Sys, s3: Sys)
    requires Apply(key, s, a) == s1 && Apply(key, s1, b) == s2 && Apply(key, s2, c) == s3
    ensures Run(key, s, [a, b, c]) == s3
  {
    RunSnoc(key, s, [], a);
    RunSnoc(key, s, [] + [a], b);
    RunSnoc(key, s, [] + [a] + [b], c);
    assert [] + [a] + [b] + [c] == [a, b, c];
  }

  // ------------------------------------------------------------------ stale answers

  function Missed(q: Query, v: nat): Reader { Reader(q, v, Some(VersionRead(true, v)), CountRows(v), None) }

  /** The first request of all, at version v: it misses the empty cache, reads the table and stores. */
  function FirstRequest(q: Query): seq<Event> {
    [Ask("r", q), Read("r", true), Read("r", true)] + [Read("r", true), Read("r", true), Read("r", true)]
  }

  lemma Misses(key: Key, u: Sys, q: Query)
    requires u.readers == map[] && u.cache == map[] && VersionOf(u) == |u.bumps|
    ensures Run(key, u, [Ask("r", q), Read("r", true), Read("r", true)])
            == u.(readers := map["r" := Missed(q, |u.bumps|)])
  {
    var v := |u.bumps|;
    var u1 := u.(readers := map["r" := Reader(q, v, None, AskVersion, None)]);
    var u2 := u.(readers := map["r" := Reader(q, v, Some(VersionRead(true, v)), AskCache(v), None)]);
    LoneRead(key, u1, u2, u2.readers["r"]);
    LoneRead(key, u2, u.(readers := map["r" := Missed(q, v)]), Missed(q, v));
    RunOfThree(key, u, Ask("r", q), Read("r", true), Read("r", true), u1, u2, u.(readers := map["r" := Missed(q, v)]));
  }

  /** A command that changes nothing but the lone request. */
  lemma LoneRead(key: Key, u: Sys, t: Sys, x: Reader)
    requires u.readers.Keys == {"r"} && ReadStep(key, u, "r", true) == Put(u, "r", x)
    requires t == u.(readers := map["r" := x])
    ensures Apply(key, u, Read("r", true)) == t
  {
    assert u.readers["r" := x] == map["r" := x];
  }

  lemma Fills(key: Key, u: Sys, q: Query, v: nat)
    requires u.readers == map["r" := Missed(q, v)]
    ensures var ev := Read("r", true); var page := Page(q, Now(u), Now(u));
            Run(key, u, [ev, ev, ev])
            == u.(cache := u.cache[key(v, q) := page],
                  readers := map["r" := Missed(q, v).(pc := Over, answer := Some(page))])
  {
    var ev := Read("r", true);
    var page := Page(q, Now(u), Now(u));
    var u1 := u.(readers := map["r" := Missed(q, v).(pc := FetchRows(v, Now(u)))]);
    var u2 := u.(readers := map["r" := Missed(q, v).(pc := Store(v, page), answer := Some(page))]);
    LoneRead(key, u, u1, u1.readers["r"]);
    LoneRead(key, u1, u2, u2.readers["r"]);
    LateStore(key, u2, q, v, page);
    RunOfThree(key, u, ev, ev, ev, u1, u2, Apply(key, u2, ev));
  }

  lemma LateStore(key: Key, u: Sys, q: Query, v: nat, page: Page)
    requires u.readers == map["r" := Missed(q, v).(pc := Store(v, page), answer := Some(page))]
    ensures Apply(key, u, Read("r", true))
            == u.(cache := u.cache[key(v, q) := page],
                  readers := map["r" := Missed(q, v).(pc := Over, answer := Some(page))])
  {
  }

  lemma FirstFills(key: Key, u: Sys, q: Query)
    requires u.readers == map[] && u.cache == map[] && VersionOf(u) == |u.bumps|
    ensures var t := Run(key, u, FirstRequest(q)); var page := Page(q, Now(u), Now(u));
            && t.cache == map[key(|u.bumps|, q) := page] && t.readers.Keys == {"r"}
            && t == u.(cache := t.cache, readers := t.readers)
  {
    var first, ev := [Ask("r", q), Read("r", true), Read("r", true)], Read("r", true);
    Misses(key, u, q);
    Fills(key, Run(key, u, first), q, |u.bumps|);
    RunAppend(key, u, Run(key, u, first), first, [ev, ev, ev]);
  }

  function Update(w: string): seq<Event> { [BeginWrite(w), Commit(w), Bump(w, Fine)] }

  function UpdateMany(w: string, n: nat): seq<Event> { if n == 0 then [] else UpdateMany(w, n - 1) + Update(w) }

  lemma UpdateSteps(key: Key, u: Sys, w: string, u1: Sys, u2: Sys)
    requires CanBegin(u, w)
    requires u1 == u.(writers := u.writers[w := Writing])
    requires u2 == u.(revision := u.revision + 1, writers := u.writers[w := Committed(u.revision + 1)])
    ensures Apply(key, u, BeginWrite(w)) == u1
    ensures Apply(key, u1, Commit(w)) == u2
    ensures Apply(key, u2, Bump(w, Fine)) == Updated(u, w)
  {
  }

  /** The table changed once more and the version bumped once more by w. */
  function Updated(u: Sys, w: string): Sys {
    u.(revision := u.revision + 1, version := Some(VersionOf(u) + 1), bumps := u.bumps + [u.revision + 1],
       writers := u.writers[w := Bumped(u.revision + 1, |u.bumps| + 1)])
  }

  lemma Updates(key: Key, u: Sys, w: string)
    requires CanBegin(u, w)
    ensures Run(key, u, Update(w)) == Updated(u, w)
  {
    var u1 := u.(writers := u.writers[w := Writing]);
    var u2 := u.(revision := u.revision + 1, writers := u.writers[w := Committed(u.revision + 1)]);
    UpdateSteps(key, u, w, u1, u2);
    RunOfThree(key, u, BeginWrite(w), Commit(w), Bump(w, Fine), u1, u2, Updated(u, w));
  }

  /** t is u after n updates by w; nothing else changed. */
  predicate UpdatedBy(u: Sys, t: Sys, w: string, n: nat) {
    && t.revision == u.revision + n && VersionOf(t) == VersionOf(u) + n && |t.bumps| == |u.bumps| + n
    && t.cache == u.cache && t.readers == u.readers
    && t.writers == if n == 0 then u.writers else u.writers[w := Bumped(u.revision + n, |u.bumps| + n)]
  }

  lemma OneMoreUpdate(u: Sys, t: Sys, w: string, n: nat)
    requires UpdatedBy(u, t, w, n)
    ensures UpdatedBy(u, Updated(t, w), w, n + 1)
  {
  }

  lemma {:induction false} ManyUpdates(key: Key, u: Sys, w: string, n: nat)
    requires CanBegin(u, w)
    ensures UpdatedBy(u, Run(key, u, UpdateMany(w, n)), w, n)
    decreases n
  {
    if n > 0 {
      ManyUpdates(key, u, w, n - 1);
      var t := Run(key, u, UpdateMany(w, n - 1));
      OneMoreUpdate(u, t, w, n - 1);
      Updates(key, t, w);
      RunAppend(key, u, t, UpdateMany(w, n - 1), Update(w));
      assert UpdateMany(w, n) == UpdateMany(w, n - 1) + Update(w);
    }
  }

  /** A request that goes on with version v gets what is cached for v. */
  lemma LateRequest(key: Key, u: Sys, q: Query, v: nat, ok: bool)
    requires "late" !in u.readers && key(v, q) in u.cache && v == if ok then VersionOf(u) else 0
    ensures Run(key, u, [Ask("late", q), Read("late", ok), Read("late", true)])
            == Put(u, "late", Reader(q, |u.bumps|, Some(VersionRead(ok, v)), Over, Some(u.cache[key(v, q)])))
  {
    var u1 := Put(u, "late", Reader(q, |u.bumps|, None, AskVersion, None));
    var u2 := Put(u, "late", Reader(q, |u.bumps|, Some(VersionRead(ok, v)), AskCache(v), None));
    assert Apply(key, u1, Read("late", ok)) == u2;
    RunOfThree(key, u, Ask("late", q), Read("late", ok), Read("late", true), u1, u2,
        Apply(key, u2, Read("late", true)));
  }

  /** A result of version v is cached, and w has made the bumps after it, up to bump b. */
  predicate OldEntry(key: Key, s: Sys, q: Query, v: nat, b: nat) {
    && VersionOf(s) == |s.bumps| == b > v && s.readers.Keys == {"r"} && s.writers.Keys == {"w"}
    && s.writers["w"].Bumped? && s.writers["w"].bump == b
    && key(v, q) in s.cache && s.cache[key(v, q)].rows.revision < s.writers["w"].revision
  }

  function OldEntryEvents(q: Query, v: nat, b: nat): seq<Event>
    requires v < b
  {
    UpdateMany("w", v) + FirstRequest(q) + UpdateMany("w", b - v)
  }

  /** v updates by w, then a page read and stored at version v. */
  predicate EntryStored(key: Key, s: Sys, revision: nat, q: Query, v: nat) {
    && VersionOf(s) == |s.bumps| == v && s.revision == revision + v && s.readers.Keys == {"r"}
        && s.writers.Keys <= {"w"}
    && CanBegin(s, "w") && key(v, q) in s.cache && s.cache[key(v, q)].rows.revision == s.revision
  }

  lemma StoresEntry(key: Key, revision: nat, q: Query, v: nat)
    ensures EntryStored(key, Run(key, Start(revision), UpdateMany("w", v) + FirstRequest(q)), revision, q, v)
  {
    var s := Start(revision);
    ManyUpdates(key, s, "w", v);
    var t := Run(key, s, UpdateMany("w", v));
    FirstFills(key, t, q);
    RunAppend(key, s, t, UpdateMany("w", v), FirstRequest(q));
  }

  lemma OldEntryReached(key: Key, revision: nat, q: Query, v: nat, b: nat)
    requires v < b
    ensures OldEntry(key, Run(key, Start(revision), OldEntryEvents(q, v, b)), q, v, b)
  {
    var s, stored := Start(revision), UpdateMany("w", v) + FirstRequest(q);
    StoresEntry(key, revision, q, v);
    var t := Run(key, s, stored);
    ManyUpdates(key, t, "w", b - v);
    EntryGetsOld(key, t, Run(key, t, UpdateMany("w", b - v)), revision, q, v, b);
    RunAppend(key, s, t, stored, UpdateMany("w", b - v));
  }

  lemma EntryGetsOld(key: Key, t: Sys, u: Sys, revision: nat, q: Query, v: nat, b: nat)
    requires v < b && EntryStored(key, t, revision, q, v) && UpdatedBy(t, u, "w", b - v)
    ensures OldEntry(key, u, q, v, b)
  {
  }

  lemma {:induction false} UpdatesAskNothing(w: string, n: nat)
    ensures forall ev :: ev in UpdateMany(w, n) ==> !ev.Ask? && ev != EvictVersion
    decreases n
  {
    if n > 0 { UpdatesAskNothing(w, n - 1); }
  }

  /** A request that went on with version v, after bump b, and its answer is older than that bump. */
  predicate StaleRun(key: Key, revision: nat, events: seq<Event>, q: Query, v: nat, b: nat, ok: bool) {
    var s := Run(key, Start(revision), events);
    && Asks(events, {q}) && Answered(s, "late", "w")
    && s.writers["w"].bump == b <= s.readers["late"].start
    && s.readers["late"].versionRead == Some(VersionRead(ok, v)) && !Fresh(s, "late", "w")
  }

  /** An old entry of version v, and a request that goes on with v after bump b. */
  predicate ReadyForStale(key: Key, u: Sys, q: Query, v: nat, b: nat) {
    && "late" !in u.readers && key(v, q) in u.cache && b <= |u.bumps|
    && "w" in u.writers && u.writers["w"].Bumped? && u.writers["w"].bump == b
    && u.cache[key(v, q)].rows.revision < u.writers["w"].revision
  }

  function LateEvents(q: Query, ok: bool): seq<Event> { [Ask("late", q), Read("late", ok), Read("late", true)] }

  lemma LateIsStale(key: Key, revision: nat, events: seq<Event>, u: Sys, q: Query, v: nat, b: nat, ok: bool)
    requires Run(key, Start(revision), events) == u && Asks(events, {q})
    requires ReadyForStale(key, u, q, v, b) && v == if ok then VersionOf(u) else 0
    ensures StaleRun(key, revision, events + LateEvents(q, ok), q, v, b, ok)
  {
    LateRequest(key, u, q, v, ok);
    RunAppend(key, Start(revision), u, events, LateEvents(q, ok));
  }

  lemma OldEntryAsks(q: Query, v: nat, b: nat)
    requires v < b
    ensures Asks(OldEntryEvents(q, v, b), {q}) && EvictVersion !in OldEntryEvents(q, v, b)
  {
    UpdatesAskNothing("w", v);
    UpdatesAskNothing("w", b - v);
  }

  /** A failed version read: the request falls back to version 0 and its old entries. */
  lemma FailedVersionReadIsStale(key: Key, revision: nat, q: Query, b: nat) returns (events: seq<Event>)
    requires b > 0
    ensures StaleRun(key, revision, events, q, 0, b, false) && EvictVersion !in events
  {
    var before := OldEntryEvents(q, 0, b);
    OldEntryReached(key, revision, q, 0, b);
    OldEntryAsks(q, 0, b);
    LateIsStale(key, revision, before, Run(key, Start(revision), before), q, 0, b, false);
    events := before + LateEvents(q, false);
  }

  /** The version key, evicted, has counted up again to v. */
  lemma EvictedCountsUp(key: Key, u: Sys, t: Sys, q: Query, v: nat, b: nat)
    requires OldEntry(key, u, q, v, b) && UpdatedBy(u.(version := None), t, "x", v)
    ensures ReadyForStale(key, t, q, v, b) && VersionOf(t) == v
  {
  }

  /** An evicted version key counts up again from zero, and a request reads an old version without error. */
  lemma EvictedVersionIsStale(key: Key, revision: nat, q: Query, v: nat, b: nat) returns (events: seq<Event>)
    requires v < b
    ensures StaleRun(key, revision, events, q, v, b, true)
  {
    var s, before, again := Start(revision), OldEntryEvents(q, v, b), UpdateMany("x", v);
    OldEntryReached(key, revision, q, v, b);
    OldEntryAsks(q, v, b);
    UpdatesAskNothing("x", v);
    var u := Run(key, s, before);
    RunSnoc(key, s, before, EvictVersion);
    ManyUpdates(key, u.(version := None), "x", v);
    var t := Run(key, u.(version := None), again);
    RunAppend(key, s, u.(version := None), before + [EvictVersion], again);
    EvictedCountsUp(key, u, t, q, v, b);
    LateIsStale(key, revision, before + [EvictVersion] + again, t, q, v, b, true);
    events := before + [EvictVersion] + again + LateEvents(q, true);
  }

  /** The runs in which r went on with version v and arrived after w made bump b. */
  predicate Case(key: Key, qs: set<Query>, revision: nat, events: seq<Event>, r: string, w: string, v: nat, b: nat) {
    var s := Run(key, Start(revision), events);
    && Asks(events, qs) && Answered(s, r, w)
    && s.readers[r].versionRead.value.taken == v && s.writers[w].bump == b <= s.readers[r].start
  }

  ghost predicate AlwaysFresh(key: Key, qs: set<Query>, revision: nat, v: nat, b: nat) {
    forall events, r, w :: Case(key, qs, revision, events, r, w, v, b)
        ==> Fresh(Run(key, Start(revision), events), r, w)
  }

  /**
   Exactly how fresh lists are: a request that went on with version v shows bump b, made before it arrived,
   in all runs exactly when b <= v; otherwise the version read failed or the version key was evicted.
   */
  lemma FreshExactly(key: Key, qs: set<Query>, revision: nat, q: Query, v: nat, b: nat)
    requires DistinctKeys(key, qs) && q in qs
    ensures AlwaysFresh(key, qs, revision, v, b) <==> b <= v
  {
    if b <= v {
      forall events, r, w | Case(key, qs, revision, events, r, w, v, b)
        ensures Fresh(Run(key, Start(revision), events), r, w)
      {
        NoOlderThanTaken(key, qs, revision, events, r, w);
      }
    } else {
      var events := EvictedVersionIsStale(key, revision, q, v, b);
      assert Case(key, qs, revision, events, "late", "w", v, b);
    }
  }

  // ------------------------------------------------------------------ the code

  /** The handler, over a database and a cache; `faults` counts the calls to either that failed or reported an error. */
  class ProductHandler {
    ghost var faults: nat
    const key: Key
    ghost const qs: set<Query>
    var revision: nat
    var version: Option<nat>
    var cache: map<string, Page>
    var bumps: seq<nat>

    constructor (k: Key, ghost queries: set<Query>)
      requires DistinctKeys(k, queries)
      ensures Valid() && qs == queries && cache == map[] && version == None
    {
      qs := queries;
      faults := 0;
      key, revision, version, cache, bumps := k, 0, None, map[], [];
    }

    ghost function View(): Sys
      reads this
    {
      Sys(revision, version, bumps, cache, map[], map[])
    }

    ghost predicate Valid()
      reads this
    {
      DistinctKeys(key, qs) && BumpsOk(View()) && VersionOf(View()) == |bumps| && CacheOk(key, qs, View())
    }

    /** What one call to Redis or the database did. */
    method Call() returns (outcome: Outcome)
      modifies `faults
      ensures faults == old(faults) + if outcome == Fine then 0 else 1
    {
      var lost, unsure := *, *;
      outcome := if lost then Lost else if unsure then Unsure else Fine;
      if outcome != Fine { faults := faults + 1; }
    }

    method ProductListCacheVersion() returns (v: nat, ghost ok: bool)
      requires Valid()
      modifies `faults
      ensures v == if ok then |bumps| else 0
      ensures faults == old(faults) + if ok then 0 else 1
    {
      var call := Call();
      ok := call == Fine;
      v := if call == Fine && version.Some? then version.value else 0;
    }

    /**
     A request that reads the version gets a page no older than the last bump; every page answers its query.
     What is cached is served, and what is not is read now and cached, unless a call fails.
     */
    method ListProducts(q: Query) returns (answer: Option<Page>, ghost ok: bool)
      requires Valid() && q in qs
      modifies `cache, `faults
      ensures Valid()
      ensures answer.Some? ==> PageSince(View(), answer.value, if ok then |bumps| else 0, q)
      ensures answer.None? || !ok ==> faults > old(faults)
      ensures faults == old(faults) ==>
                var name, now := key(|bumps|, q), Stamp(revision, |bumps|);
                && answer == Some(if name in old(cache) then old(cache)[name] else Page(q, now, now))
                && cache == old(cache)[name := answer.value]
    {
      var v;
      v, ok := ProductListCacheVersion();
      var name := key(v, q);
      var get := Call();
      if get == Fine && name in cache {
        return Some(cache[name]), ok;
      }
      var count := Call();
      if count != Fine { return None, ok; }
      var rows := Call();
      if rows != Fine { return None, ok; }
      var now := Stamp(revision, |bumps|);
      var page := Page(q, now, now);
      answer := Some(page);
      var store := Call();
      if store != Lost {
        ghost var before := View();
        NowIsSince(before, v);
        NowIsSince(before, |bumps|);
        cache := cache[name := page];
        StoreKeepsCache(key, qs, before, View(), v, q, page);
      }
    }

    /** INCR of the version key after a committed create or update. */
    method InvalidateProductLists() returns (ok: bool)
      requires Valid()
      modifies `version, `bumps, `faults
      ensures Valid()
      ensures bumps == old(bumps) || (bumps == old(bumps) + [revision] && version == Some(|bumps|))
      ensures ok ==> bumps != old(bumps)
      ensures bumps == old(bumps) ==> version == old(version)
      ensures faults == old(faults) + if ok then 0 else 1
    {
      ghost var before := View();
      var call := Call();
      if call != Lost {
        version := Some(1 + if version.Some? then version.value else 0);
        bumps := bumps + [revision];
        CacheStays(key, qs, before, View());
      }
      ok := call == Fine;
    }

    /**
     An update that succeeds is bumped at its revision unless Redis failed; one that is reported as failed may
     have been committed, and then no bump follows it.
     */
    method UpdateProduct() returns (ok: bool)
      requires Valid()
      modifies `revision, `version, `bumps, `faults
      ensures Valid()
      ensures ok ==> revision == old(revision) + 1
      ensures ok ==> bumps == old(bumps) || bumps == old(bumps) + [revision]
      ensures ok && faults == old(faults) ==> bumps == old(bumps) + [revision] && version == Some(|bumps|)
      ensures !ok ==> revision == old(revision) || revision == old(revision) + 1
      ensures !ok ==> bumps == old(bumps) && version == old(version) && faults > old(faults)
    {
      ghost var before := View();
      var update := Call();
      if update == Lost { return false; }
      revision := revision + 1;
      CacheStays(key, qs, before, View());
      if update == Unsure { return false; }
      var bumped := InvalidateProductLists();
      ok := true;
    }
  }
}

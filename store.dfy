/**
 * The memory store: four indexes over one logical record, kept in a
 * key-value backend, plus a counter hash and the time of the last decay sweep.
 *
 *   entries   the per-id record hash
 *   all       the importance sorted set (id to score)
 *   cats      the per-category membership sets
 *   accessed  the recency sorted set (id to last access time)
 *   stats     the counter hash
 *   lastDecay the time of the last decay sweep, if one ran
 *
 * The backend is modelled as maps held in one object; the clock and the id
 * generator are parameters.
 */
module MemoryStore {
  import opened Wrappers
  import opened Strings
  import opened Schema
  import opened Sorting
  import opened SortedSets

  /** Importance added by one access. */
  const BOOST_AMOUNT := 8.0

  /** How many ids the recency set keeps after a boost. */
  const RECENT_LIMIT := 100

  /** The defaults callers of the store get when they omit an argument. */
  const DEFAULT_CONFIDENCE := 80.0
  const DEFAULT_BOOST := true
  const CATEGORY_LIMIT := 20
  const SEARCH_LIMIT := 10
  const PRUNE_THRESHOLD := 10.0

  /** How many of the most important ids a search examines. */
  const SEARCH_WINDOW := 100

  /** Milliseconds in a day: 1000 * 60 * 60 * 24. */
  const MS_PER_DAY := 86400000

  // Counter names in the stats hash.
  const TOTAL_MEMORIES := "total_memories"
  const TOTAL_ACCESSES := "total_accesses"
  const DELETED_MEMORIES := "deleted_memories"
  const PRUNED_MEMORIES := "pruned_memories"
  const LAST_DECAY_STAT := "last_decay"

  /** The per-category counter `category_<name>`. */
  function CategoryStat(category: string): (key: string)
    ensures |key| == 9 + |category| && key[..9] == "category_" && key[9..] == category
  {
    "category_" + category
  }

  /** The category counters never collide with the fixed counters. */
  lemma {:induction false} CategoryStatIsSeparate(category: string)
    ensures CategoryStat(category) != TOTAL_MEMORIES
    ensures CategoryStat(category) != TOTAL_ACCESSES
    ensures CategoryStat(category) != DELETED_MEMORIES
    ensures CategoryStat(category) != PRUNED_MEMORIES
    ensures CategoryStat(category) != LAST_DECAY_STAT
  {
    assert CategoryStat(category)[0] == 'c';
    assert CategoryStat(category)[1] == 'a';
    assert CategoryStat(category)[2] == 't';
  }

  /** How the `pinned` flag is written into the record hash. */
  function EncodePinned(pinned: bool): (s: string)
    ensures DecodePinned(s) == pinned
  {
    if pinned then "true" else "false"
  }

  /** How the `pinned` flag is read back: only the text `true` means pinned. */
  function DecodePinned(s: string): bool {
    s == "true"
  }

  /** A counter's value, 0 when it was never incremented (`HINCRBY` on a missing field). */
  function StatOr0(stats: map<string, int>, key: string): int {
    if key in stats then stats[key] else 0
  }

  /** The counters after `HINCRBY key amount`. */
  function Bump(stats: map<string, int>, key: string, amount: int): (r: map<string, int>)
    ensures r.Keys == stats.Keys + {key}
    ensures StatOr0(r, key) == StatOr0(stats, key) + amount
    ensures forall k | k in stats && k != key :: r[k] == stats[k]
  {
    stats[key := StatOr0(stats, key) + amount]
  }

  /** The members of a category set; a missing set reads as empty (`SMEMBERS`, `SCARD`). */
  function Members(cats: map<string, set<string>>, category: string): set<string> {
    if category in cats then cats[category] else {}
  }

  /** `ZSCORE key id`: the score of a member, or nothing (`null`) for a non-member. */
  function ZScore(scores: map<string, real>, id: string): (r: Option<real>)
    ensures r.Some? <==> id in scores
    ensures r.Some? ==> r.value == scores[id]
  {
    if id in scores then Some(scores[id]) else None
  }

  /** `scores[id] || 0`: a missing or null score sorts as 0. */
  function ScoreOr0(scores: map<string, Option<real>>, id: string): real {
    if id in scores && scores[id].Some? then scores[id].value else 0.0
  }

  /** `Math.min(100, importance + 8)`. */
  function Boosted(importance: real): (r: real)
    ensures r <= 100.0
    ensures importance <= 100.0 ==> importance <= r
    ensures importance + BOOST_AMOUNT <= 100.0 ==> r == importance + BOOST_AMOUNT
    ensures importance + BOOST_AMOUNT >= 100.0 ==> r == 100.0
  {
    if importance + BOOST_AMOUNT < 100.0 then importance + BOOST_AMOUNT else 100.0
  }

  /** `Math.pow(rate, days)` for a whole number of days, exactly. */
  function Pow(rate: real, days: nat): real {
    if days == 0 then 1.0 else rate * Pow(rate, days - 1)
  }

  /** A rate in [0, 1] raised to any power stays in [0, 1]. */
  lemma {:induction false} PowInUnit(rate: real, days: nat)
    requires 0.0 <= rate <= 1.0
    ensures 0.0 <= Pow(rate, days) <= 1.0
  {
    if days > 0 {
      var p := Pow(rate, days - 1);
      PowInUnit(rate, days - 1);
      assert 0.0 <= rate * p by {
        assert 0.0 <= rate && 0.0 <= p;
      }
      assert rate * p <= p by {
        assert (1.0 - rate) * p >= 0.0;
      }
    }
  }

  /** `score * Math.pow(rate, days)`: the importance after `days` days of decay. */
  function Decayed(score: real, rate: real, days: nat): real {
    score * Pow(rate, days)
  }

  /** With a rate in [0, 1], decay never raises an importance and never makes it negative. */
  lemma {:induction false} DecayNeverRaises(score: real, rate: real, days: nat)
    requires 0.0 <= score && 0.0 <= rate <= 1.0
    ensures 0.0 <= Decayed(score, rate, days) <= score
  {
    PowInUnit(rate, days);
    assert score * Pow(rate, days) <= score * 1.0;
  }

  /**
   * `Math.max(1, Math.floor((now - last) / MS_PER_DAY))`, where `last` is the
   * stored time of the previous sweep, or `now` when no sweep ran. Dafny's `/`
   * rounds toward negative infinity for a positive divisor, as `Math.floor` does.
   */
  function DaysPassed(now: int, lastDecay: Option<int>): (d: nat)
    ensures d >= 1
    ensures lastDecay.None? ==> d == 1
    ensures lastDecay.Some? && now - lastDecay.value >= MS_PER_DAY ==>
              d * MS_PER_DAY <= now - lastDecay.value < (d + 1) * MS_PER_DAY
    ensures lastDecay.Some? && now - lastDecay.value < 2 * MS_PER_DAY ==> d == 1
  {
    var last := lastDecay.GetOr(now);
    var days := (now - last) / MS_PER_DAY;
    if days < 1 then 1 else days
  }

  /**
   * The fields an update may carry: `{ ...existing, ...updates }` takes each
   * field from the update when it is present and from the record otherwise.
   */
  datatype Updates = Updates(
    id: Option<string>,
    content: Option<string>,
    category: Option<string>,
    importance: Option<real>,
    confidence: Option<real>,
    createdAt: Option<int>,
    lastAccessed: Option<int>,
    accessCount: Option<int>,
    decayRate: Option<real>,
    relatedIds: Option<seq<string>>,
    pinned: Option<bool>)

  /** An update that carries no field. */
  const NO_UPDATES := Updates(None, None, None, None, None, None, None, None, None, None, None)

  /** `{ ...existing, ...updates }`. */
  function Merge(m: Memory, u: Updates): Memory {
    Memory(
      id := u.id.GetOr(m.id),
      content := u.content.GetOr(m.content),
      category := u.category.GetOr(m.category),
      importance := u.importance.GetOr(m.importance),
      confidence := u.confidence.GetOr(m.confidence),
      createdAt := u.createdAt.GetOr(m.createdAt),
      lastAccessed := u.lastAccessed.GetOr(m.lastAccessed),
      accessCount := u.accessCount.GetOr(m.accessCount),
      decayRate := u.decayRate.GetOr(m.decayRate),
      relatedIds := u.relatedIds.GetOr(m.relatedIds),
      pinned := u.pinned.GetOr(m.pinned))
  }

  /** An empty update leaves the record as it is; applying an update twice is applying it once. */
  lemma {:induction false} MergeLaws(m: Memory, u: Updates)
    ensures Merge(m, NO_UPDATES) == m
    ensures Merge(Merge(m, u), u) == Merge(m, u)
  {
  }

  /** Why an update was refused. */
  datatype UpdateError = NotFound | Invalid(errors: seq<string>)

  /** The text of the error an update throws. */
  function UpdateErrorMessage(e: UpdateError): (msg: string)
    ensures e.NotFound? ==> msg == "Memory not found"
    ensures e.Invalid? ==> "Invalid memory: " <= msg
    ensures e.Invalid? ==> msg[|"Invalid memory: "|..] == Join(e.errors, ", ")
  {
    match e
    case NotFound => "Memory not found"
    case Invalid(errors) => "Invalid memory: " + Join(errors, ", ")
  }

  /** A search result: the record and how well it matched. */
  datatype Hit = Hit(memory: Memory, relevance: real)

  /** Search results are ordered by relevance, then by importance, highest first. */
  function HitRank(h: Hit): Rank {
    Rank(h.relevance, h.memory.importance)
  }

  /** The lowered record content, or else its lowered category, contains the lowered query. */
  predicate IsMatch(m: Memory, query: string) {
    Contains(Lower(m.content), Lower(query)) || Contains(Lower(m.category), Lower(query))
  }

  /** `h` is the result a search for `query` makes of `m`: relevance 1 for a content match, else 0.5. */
  predicate IsHitFor(h: Hit, m: Memory, query: string) {
    && h.memory == m
    && IsMatch(m, query)
    && h.relevance == (if Contains(Lower(m.content), Lower(query)) then 1.0 else 0.5)
  }

  /** The result a search makes of a matching record: `{ ...mem, relevance }`. */
  function HitOf(m: Memory, query: string): (h: Hit)
    ensures IsMatch(m, query) ==> IsHitFor(h, m, query)
  {
    Hit(m, if Contains(Lower(m.content), Lower(query)) then 1.0 else 0.5)
  }

  /** The results a search collects from `ids`, in order: one per id whose record matches. */
  function HitsOf(entries: map<string, Memory>, ids: seq<string>, query: string): (r: seq<Hit>)
    ensures |r| <= |ids|
    ensures forall k | 0 <= k < |r| :: IsHitFor(r[k], r[k].memory, query)
  {
    if ids == [] then []
    else
      var last := ids[|ids| - 1];
      HitsOf(entries, ids[..|ids| - 1], query)
        + (if last in entries && IsMatch(entries[last], query) then [HitOf(entries[last], query)] else [])
  }

  /** Looking at one more id adds its result, if it has one. */
  lemma {:induction false} HitsStep(entries: map<string, Memory>, ids: seq<string>, i: nat, query: string)
    requires i < |ids|
    ensures HitsOf(entries, ids[..i + 1], query) == HitsOf(entries, ids[..i], query)
              + (if ids[i] in entries && IsMatch(entries[ids[i]], query) then [HitOf(entries[ids[i]], query)] else [])
  {
    assert ids[..i + 1][..i] == ids[..i];
  }

  /** Every record of `ids` that matches is among the results. */
  lemma {:induction false} HitsComplete(entries: map<string, Memory>, ids: seq<string>, query: string, x: string)
    requires x in ids && x in entries && IsMatch(entries[x], query)
    ensures HitOf(entries[x], query) in HitsOf(entries, ids, query)
  {
    var init := ids[..|ids| - 1];
    if x != ids[|ids| - 1] {
      assert ids == init + [ids[|ids| - 1]];
      HitsComplete(entries, init, query, x);
    }
  }

  /** Every result is the record of one of `ids`. */
  lemma {:induction false} HitsSound(entries: map<string, Memory>, ids: seq<string>, query: string, k: nat)
    requires k < |HitsOf(entries, ids, query)|
    ensures exists x | x in ids :: x in entries && HitsOf(entries, ids, query)[k] == HitOf(entries[x], query)
  {
    var init := ids[..|ids| - 1];
    if k < |HitsOf(entries, init, query)| {
      HitsSound(entries, init, query, k);
      var x :| x in init && x in entries && HitsOf(entries, init, query)[k] == HitOf(entries[x], query);
      assert x in ids;
    } else {
      assert ids[|ids| - 1] in ids;
    }
  }

  /** What the statistics call reports. */
  datatype Stats = Stats(
    totalMemories: nat,
    hotMemories: nat,
    counters: map<string, int>,
    categories: map<string, nat>)

  /** What a decay sweep reports. */
  datatype DecayReport = DecayReport(decayed: nat, daysPassed: nat)

  /** `recent` keeps the `limit` latest of `before` (`ZREMRANGEBYRANK key 0 -(limit+1)`). */
  ghost predicate KeepsLatest(recent: map<string, int>, before: map<string, int>, limit: nat) {
    && recent.Keys <= before.Keys
    && (forall id | id in recent :: recent[id] == before[id])
    && |recent| == (if |before| <= limit then |before| else limit)
    && forall kept, gone | kept in recent && gone in before && gone !in recent :: before[gone] <= before[kept]
  }

  /** The records a decay sweep leaves: every record not pinned has its score decayed, if it has one. */
  function DecayedEntries(entries: map<string, Memory>, all: map<string, real>, days: nat, done: set<string>): map<string, Memory> {
    map id | id in entries ::
      if id in done && id in all && !entries[id].pinned
      then entries[id].(importance := Decayed(all[id], entries[id].decayRate, days))
      else entries[id]
  }

  /** The scores a decay sweep leaves. */
  function DecayedScores(entries: map<string, Memory>, all: map<string, real>, days: nat, done: set<string>): map<string, real> {
    map id | id in all ::
      if id in done && id in entries && !entries[id].pinned
      then Decayed(all[id], entries[id].decayRate, days)
      else all[id]
  }

  /** The ids a decay sweep over `done` changes. */
  function Unpinned(entries: map<string, Memory>, all: map<string, real>, done: set<string>): set<string> {
    set id | id in done && id in all && id in entries && !entries[id].pinned
  }

  /** The ids a prune sweep with `threshold` removes. */
  function Below(all: map<string, real>, threshold: real): set<string> {
    set id | id in all && all[id] < threshold
  }

  /**
   * The cross-index invariant: the importance set and the record hash hold
   * the same ids, each score is its record's importance, each id lies in the
   * set of its record's category and in no other, and the recency set only
   * holds ids that have a record.
   */
  ghost predicate Coherent(entries: map<string, Memory>, all: map<string, real>, cats: map<string, set<string>>, accessed: map<string, int>) {
    && entries.Keys == all.Keys
    && accessed.Keys <= entries.Keys
    && (forall id | id in all :: all[id] == entries[id].importance)
    && (forall id | id in entries :: entries[id].category in cats && id in cats[entries[id].category])
    && (forall c, id | c in cats && id in cats[c] :: id in entries && entries[id].category == c)
  }

  /** Every stored importance lies in [0, 100]. */
  ghost predicate ImportancesBounded(entries: map<string, Memory>) {
    forall id | id in entries :: 0.0 <= entries[id].importance <= 100.0
  }

  /** Every stored decay rate lies in [0, 1]. */
  ghost predicate RatesInUnit(entries: map<string, Memory>) {
    forall id | id in entries :: 0.0 <= entries[id].decayRate <= 1.0
  }

  /** Writing one record keeps the bounds when the record is within them. */
  lemma {:induction false} PutKeepsBounds(entries: map<string, Memory>, id: string, m: Memory)
    ensures ImportancesBounded(entries) && 0.0 <= m.importance <= 100.0 ==> ImportancesBounded(entries[id := m])
    ensures RatesInUnit(entries) && 0.0 <= m.decayRate <= 1.0 ==> RatesInUnit(entries[id := m])
  {
  }

  /** Adding a record under a fresh id, in all four indexes, keeps the indexes coherent. */
  lemma {:induction false} AddKeepsCoherent(entries: map<string, Memory>, all: map<string, real>, cats: map<string, set<string>>, accessed: map<string, int>,
                         id: string, m: Memory, now: int)
    requires Coherent(entries, all, cats, accessed) && id !in entries
    ensures Coherent(entries[id := m], all[id := m.importance], cats[m.category := Members(cats, m.category) + {id}], accessed[id := now])
  {
    var cats' := cats[m.category := Members(cats, m.category) + {id}];
    forall c, x | c in cats' && x in cats'[c]
      ensures x in entries[id := m] && entries[id := m][x].category == c
    {
      if x != id {
        assert x in cats[c];
      }
    }
  }

  /**
   * Rewriting one record in place, with the same category, writing its new
   * importance into the importance set and shrinking the recency set at most,
   * keeps the indexes coherent.
   */
  lemma {:induction false} RescoreKeepsCoherent(entries: map<string, Memory>, all: map<string, real>, cats: map<string, set<string>>, accessed: map<string, int>,
                             id: string, m: Memory, accessed': map<string, int>)
    requires Coherent(entries, all, cats, accessed) && id in entries
    requires m.category == entries[id].category
    requires accessed'.Keys <= entries.Keys
    ensures Coherent(entries[id := m], all[id := m.importance], cats, accessed')
  {
  }

  /** Replacing the recency set by one over stored ids keeps the indexes coherent. */
  lemma {:induction false} RecentKeepsCoherent(entries: map<string, Memory>, all: map<string, real>, cats: map<string, set<string>>, accessed: map<string, int>,
                            accessed': map<string, int>)
    requires Coherent(entries, all, cats, accessed) && accessed'.Keys <= entries.Keys
    ensures Coherent(entries, all, cats, accessed')
  {
  }

  /** Rewriting one record with a new category, moving its id between the category sets, keeps the indexes coherent. */
  lemma {:induction false} MoveKeepsCoherent(entries: map<string, Memory>, all: map<string, real>, cats: map<string, set<string>>, accessed: map<string, int>,
                          id: string, m: Memory)
    requires Coherent(entries, all, cats, accessed) && id in entries
    requires m.category != entries[id].category
    ensures Coherent(entries[id := m], all[id := m.importance],
                     cats[entries[id].category := cats[entries[id].category] - {id}][m.category := Members(cats, m.category) + {id}],
                     accessed)
  {
    var was := entries[id].category;
    var cats1 := cats[was := cats[was] - {id}];
    var cats' := cats1[m.category := Members(cats1, m.category) + {id}];
    assert Members(cats1, m.category) == Members(cats, m.category);
    var entries' := entries[id := m];
    forall c, x | c in cats' && x in cats'[c]
      ensures x in entries' && entries'[x].category == c
    {
      if x != id {
        assert x in cats[c];
      }
    }
    forall x | x in entries'
      ensures entries'[x].category in cats' && x in cats'[entries'[x].category]
    {
      if x != id {
        assert x in cats[entries[x].category];
      }
    }
  }

  /** Decaying one more id changes only that id's record and score, and counts it when it is not pinned. */
  lemma {:induction false} DecayStep(entries: map<string, Memory>, all: map<string, real>, days: nat, done: set<string>, id: string)
    requires id in all && id !in done
    ensures DecayedEntries(entries, all, days, done + {id}) ==
              if id in entries && !entries[id].pinned
              then DecayedEntries(entries, all, days, done)[id := entries[id].(importance := Decayed(all[id], entries[id].decayRate, days))]
              else DecayedEntries(entries, all, days, done)
    ensures DecayedScores(entries, all, days, done + {id}) ==
              if id in entries && !entries[id].pinned
              then DecayedScores(entries, all, days, done)[id := Decayed(all[id], entries[id].decayRate, days)]
              else DecayedScores(entries, all, days, done)
    ensures Unpinned(entries, all, done + {id}) ==
              Unpinned(entries, all, done) + (if id in entries && !entries[id].pinned then {id} else {})
    ensures id !in Unpinned(entries, all, done)
  {
  }

  /** The loop of a decay sweep, over any listing of the scored ids that names each once. */
  method DecayLoop(entries: map<string, Memory>, all: map<string, real>, days: nat, ids: seq<string>)
    returns (e: map<string, Memory>, a: map<string, real>, decayed: nat)
    requires Enumerates(ids, all.Keys)
    ensures e == DecayedEntries(entries, all, days, all.Keys)
    ensures a == DecayedScores(entries, all, days, all.Keys)
    ensures decayed == |Unpinned(entries, all, all.Keys)|
  {
    e, a, decayed := entries, all, 0;
    ghost var done: set<string> := {};
    for i := 0 to |ids|
      invariant e == DecayedEntries(entries, all, days, done)
      invariant a == DecayedScores(entries, all, days, done)
      invariant decayed == |Unpinned(entries, all, done)|
      invariant forall k | 0 <= k < i :: ids[k] in done
      invariant forall k | i <= k < |ids| :: ids[k] !in done
      invariant done <= all.Keys
    {
      var id := ids[i];
      var current := all[id];
      DecayStep(entries, all, days, done, id);
      if id in e && !e[id].pinned {
        var newImportance := Decayed(current, e[id].decayRate, days);
        e, a := e[id := e[id].(importance := newImportance)], a[id := newImportance];
        decayed := decayed + 1;
      }
      done := done + {id};
    }
    assert done == all.Keys;
  }

  /** A decay sweep keeps the indexes coherent: it rewrites an importance in the record and the score together. */
  lemma {:induction false} DecayKeepsCoherent(entries: map<string, Memory>, all: map<string, real>, cats: map<string, set<string>>, accessed: map<string, int>,
                           days: nat, done: set<string>)
    requires Coherent(entries, all, cats, accessed)
    ensures Coherent(DecayedEntries(entries, all, days, done), DecayedScores(entries, all, days, done), cats, accessed)
  {
  }

  /**
   * With every stored importance in [0, 100] and every rate in [0, 1], a decay
   * sweep only lowers importances, keeps them in [0, 100], leaves the rates
   * alone and leaves every pinned record as it was.
   */
  lemma {:induction false} DecayLowers(entries: map<string, Memory>, all: map<string, real>, cats: map<string, set<string>>, accessed: map<string, int>,
                    days: nat, done: set<string>)
    requires Coherent(entries, all, cats, accessed) && ImportancesBounded(entries) && RatesInUnit(entries)
    ensures forall id | id in entries :: DecayedEntries(entries, all, days, done)[id].importance <= entries[id].importance
    ensures ImportancesBounded(DecayedEntries(entries, all, days, done))
    ensures RatesInUnit(DecayedEntries(entries, all, days, done))
    ensures forall id | id in entries && entries[id].pinned :: DecayedEntries(entries, all, days, done)[id] == entries[id]
  {
    var after := DecayedEntries(entries, all, days, done);
    forall id | id in entries
      ensures 0.0 <= after[id].importance <= entries[id].importance
    {
      DecayNeverRaises(entries[id].importance, entries[id].decayRate, days);
    }
  }

  /** A decay sweep keeps the cross-index invariant, and keeps the bounds when they held before. */
  lemma {:induction false} DecayKeepsInvariants(entries: map<string, Memory>, all: map<string, real>, cats: map<string, set<string>>, accessed: map<string, int>,
                             days: nat, done: set<string>)
    requires Coherent(entries, all, cats, accessed)
    ensures Coherent(DecayedEntries(entries, all, days, done), DecayedScores(entries, all, days, done), cats, accessed)
    ensures ImportancesBounded(entries) && RatesInUnit(entries) ==>
              ImportancesBounded(DecayedEntries(entries, all, days, done)) && RatesInUnit(DecayedEntries(entries, all, days, done))
  {
    DecayKeepsCoherent(entries, all, cats, accessed, days, done);
    if ImportancesBounded(entries) && RatesInUnit(entries) {
      DecayLowers(entries, all, cats, accessed, days, done);
    }
  }

  /** The category sets with the ids of `gone` taken out. */
  function Without(cats: map<string, set<string>>, gone: set<string>): (r: map<string, set<string>>)
    ensures r.Keys == cats.Keys
  {
    map c | c in cats :: cats[c] - gone
  }

  /** Taking one more id out of its own category set takes it out of every set, under the invariant. */
  lemma {:induction false} WithoutStep(entries: map<string, Memory>, all: map<string, real>, cats: map<string, set<string>>, accessed: map<string, int>,
                    gone: set<string>, id: string)
    requires Coherent(entries, all, cats, accessed) && id in entries
    ensures Without(cats, gone)[entries[id].category := Without(cats, gone)[entries[id].category] - {id}] == Without(cats, gone + {id})
  {
    var c := entries[id].category;
    var before := Without(cats, gone);
    var lhs := before[c := before[c] - {id}];
    var rhs := Without(cats, gone + {id});
    assert c in cats;
    assert lhs.Keys == rhs.Keys;
    forall d | d in rhs
      ensures lhs[d] == rhs[d]
    {
      if d != c {
        assert id !in cats[d];
      }
    }
  }

  /** Taking nothing out leaves the category sets as they are. */
  lemma {:induction false} WithoutNothing(cats: map<string, set<string>>)
    ensures Without(cats, {}) == cats
  {
    forall c | c in cats
      ensures Without(cats, {})[c] == cats[c]
    {
    }
  }

  /** Taking out `gone` and then `id` is taking out both. */
  lemma {:induction false} MinusAgain<V>(m: map<string, V>, gone: set<string>, id: string)
    ensures (m - gone) - {id} == m - (gone + {id})
  {
  }

  /** Counting `n` and then one more is counting `n + 1`. */
  lemma {:induction false} BumpAgain(stats: map<string, int>, key: string, n: int)
    ensures Bump(Bump(stats, key, n), key, 1) == Bump(stats, key, n + 1)
  {
  }

  /** Taking any set of ids out of all four indexes keeps the indexes coherent. */
  lemma {:induction false} RemoveAllKeepsCoherent(entries: map<string, Memory>, all: map<string, real>, cats: map<string, set<string>>, accessed: map<string, int>,
                               gone: set<string>)
    requires Coherent(entries, all, cats, accessed)
    ensures Coherent(entries - gone, all - gone, Without(cats, gone), accessed - gone)
  {
    var cats' := Without(cats, gone);
    forall c, x | c in cats' && x in cats'[c]
      ensures x in entries - gone && (entries - gone)[x].category == c
    {
      assert x in cats[c];
    }
  }

  /** Removing an id from all four indexes keeps them coherent. */
  lemma {:induction false} RemoveKeepsCoherent(entries: map<string, Memory>, all: map<string, real>, cats: map<string, set<string>>, accessed: map<string, int>,
                            id: string)
    requires Coherent(entries, all, cats, accessed) && id in entries
    ensures Coherent(entries - {id}, all - {id}, cats[entries[id].category := cats[entries[id].category] - {id}], accessed - {id})
  {
    var cats' := cats[entries[id].category := cats[entries[id].category] - {id}];
    forall c, x | c in cats' && x in cats'[c]
      ensures x in entries - {id} && (entries - {id})[x].category == c
    {
      assert x in cats[c];
    }
  }

  /** The records of those `ids` that have one, in order. */
  function Present(entries: map<string, Memory>, ids: seq<string>): (r: seq<Memory>)
    ensures |r| <= |ids|
  {
    if ids == [] then []
    else
      var last := ids[|ids| - 1];
      Present(entries, ids[..|ids| - 1]) + (if last in entries then [entries[last]] else [])
  }

  /** When every id has a record, the records found are exactly theirs, one per id. */
  lemma {:induction false} PresentAll(entries: map<string, Memory>, ids: seq<string>)
    requires forall k | 0 <= k < |ids| :: ids[k] in entries
    ensures |Present(entries, ids)| == |ids|
    ensures forall k | 0 <= k < |ids| :: Present(entries, ids)[k] == entries[ids[k]]
  {
    if ids != [] {
      PresentAll(entries, ids[..|ids| - 1]);
    }
  }

  /** Under the invariant, the members of a category set are records of that category, scored by their importance. */
  lemma {:induction false} CategoryScored(entries: map<string, Memory>, all: map<string, real>, cats: map<string, set<string>>, accessed: map<string, int>,
                       c: string, ids: seq<string>, scores: map<string, Option<real>>)
    requires Coherent(entries, all, cats, accessed)
    requires forall x | x in Members(cats, c) :: x in ids
    requires forall k | 0 <= k < |ids| :: ids[k] in scores
    requires forall x | x in scores :: scores[x] == ZScore(all, x)
    ensures forall x | x in Members(cats, c) ::
              x in entries && entries[x].category == c && ScoreOr0(scores, x) == entries[x].importance
  {
    forall x | x in Members(cats, c)
      ensures x in entries && entries[x].category == c && ScoreOr0(scores, x) == entries[x].importance
    {
      assert c in cats && x in cats[c];
      var p :| 0 <= p < |ids| && ids[p] == x;
      assert x in scores;
    }
  }

  /** The top of a sort of a category listing holds only ids with a record. */
  lemma {:induction false} ListedInCategory(entries: map<string, Memory>, cats: map<string, set<string>>, c: string,
                         ids: seq<string>, key: string -> Rank, sorted: seq<string>)
    requires Enumerates(ids, Members(cats, c))
    requires forall x | x in Members(cats, c) :: x in entries
    requires sorted <= SortBy(ids, key)
    ensures forall k | 0 <= k < |sorted| :: sorted[k] in entries
  {
    TopOfSort(ids, key, sorted);
    forall k | 0 <= k < |sorted|
      ensures sorted[k] in entries
    {
      assert sorted[k] in ids;
    }
  }

  /** The top of a sort of a listing without repeats has no repeats. */
  lemma {:induction false} SortedTopDistinct(ids: seq<string>, key: string -> Rank, sorted: seq<string>)
    requires Distinct(ids) && sorted <= SortBy(ids, key)
    ensures Distinct(sorted)
  {
    SortByPermutes(ids, key);
    PermutationDistinct(ids, SortBy(ids, key));
    PrefixDistinct(SortBy(ids, key), sorted);
  }

  /**
   * What the category listing returns: when `ids` lists a category set whose
   * members are records of that category scored by importance, the top of the
   * sort by score is a run of distinct records of that category, most
   * important first, outranking every record left out.
   */
  lemma {:induction false} CategoryTop(entries: map<string, Memory>, cats: map<string, set<string>>,
                    c: string, ids: seq<string>, scores: map<string, Option<real>>, sorted: seq<string>, r: seq<Memory>)
    requires Enumerates(ids, Members(cats, c))
    requires forall x | x in Members(cats, c) ::
               x in entries && entries[x].category == c && ScoreOr0(scores, x) == entries[x].importance
    requires sorted <= SortBy(ids, (id: string) => Rank(ScoreOr0(scores, id), 0.0))
    requires |r| == |sorted| && forall k | 0 <= k < |r| :: sorted[k] in entries && r[k] == entries[sorted[k]]
    ensures |sorted| == |r| && Distinct(sorted)
    ensures forall k | 0 <= k < |r| :: sorted[k] in entries && r[k] == entries[sorted[k]]
    ensures forall k | 0 <= k < |r| :: r[k].category == c
    ensures forall i, j | 0 <= i < j < |r| :: r[j].importance <= r[i].importance
    ensures forall x, k | x in Members(cats, c) && x !in sorted && 0 <= k < |r| :: entries[x].importance <= r[k].importance
  {
    var key := (id: string) => Rank(ScoreOr0(scores, id), 0.0);
    TopOfSort(ids, key, sorted);
    SortedTopDistinct(ids, key, sorted);
    forall k | 0 <= k < |sorted|
      ensures sorted[k] in Members(cats, c)
    {
      assert sorted[k] in ids;
    }
    forall i, j | 0 <= i < j < |r|
      ensures r[j].importance <= r[i].importance
    {
      assert !Outranks(key(sorted[j]), key(sorted[i]));
      assert key(sorted[j]).primary == r[j].importance && key(sorted[i]).primary == r[i].importance;
    }
  }

  /**
   * Part way through a prune sweep: `e`, `a`, `c`, `r` and `st` are the
   * indexes and counters `entries`, `all`, `cats`, `accessed` and `stats`
   * with the `pruned` ids of `done` deleted one by one.
   */
  ghost predicate PruneProgress(entries: map<string, Memory>, all: map<string, real>, cats: map<string, set<string>>, accessed: map<string, int>,
                                stats: map<string, int>,
                                e: map<string, Memory>, a: map<string, real>, c: map<string, set<string>>, r: map<string, int>,
                                st: map<string, int>, done: set<string>, pruned: nat) {
    && e == entries - done && a == all - done && r == accessed - done
    && c == Without(cats, done)
    && st == (if pruned == 0 then stats else Bump(stats, DELETED_MEMORIES, pruned))
    && pruned == |done|
  }

  /** Deleting one more id with a record (`deleteMemory`'s writes) makes progress. */
  lemma {:induction false} PruneStep(entries: map<string, Memory>, all: map<string, real>, cats: map<string, set<string>>, accessed: map<string, int>,
                  stats: map<string, int>,
                  e: map<string, Memory>, a: map<string, real>, c: map<string, set<string>>, r: map<string, int>,
                  st: map<string, int>, done: set<string>, pruned: nat, id: string)
    requires Coherent(entries, all, cats, accessed)
    requires PruneProgress(entries, all, cats, accessed, stats, e, a, c, r, st, done, pruned)
    requires id in a
    ensures id in e && e[id].category in c
    ensures PruneProgress(entries, all, cats, accessed, stats,
                          e - {id}, a - {id}, c[e[id].category := c[e[id].category] - {id}], r - {id},
                          Bump(st, DELETED_MEMORIES, 1), done + {id}, pruned + 1)
  {
    assert id in entries && id !in done;
    WithoutStep(entries, all, cats, accessed, done, id);
    BumpAgain(stats, DELETED_MEMORIES, pruned);
    MinusAgain(entries, done, id);
    MinusAgain(all, done, id);
    MinusAgain(accessed, done, id);
  }

  /** At the end of a prune sweep the survivors keep the bounds the records had. */
  lemma {:induction false} PruneDone(entries: map<string, Memory>, all: map<string, real>, cats: map<string, set<string>>, accessed: map<string, int>,
                  stats: map<string, int>,
                  e: map<string, Memory>, a: map<string, real>, c: map<string, set<string>>, r: map<string, int>,
                  st: map<string, int>, done: set<string>, pruned: nat)
    requires PruneProgress(entries, all, cats, accessed, stats, e, a, c, r, st, done, pruned)
    ensures ImportancesBounded(entries) ==> ImportancesBounded(e)
    ensures RatesInUnit(entries) ==> RatesInUnit(e)
  {
  }

  /** Every record files under one of the fixed categories. */
  ghost predicate Categorized(entries: map<string, Memory>) {
    forall id | id in entries :: entries[id].category in CATEGORIES
  }

  /** The per-category counts `SCARD` reports for the categories of `cs`, added up. */
  function CountSum(counts: map<string, nat>, cs: seq<string>): nat {
    if cs == [] then 0
    else CountSum(counts, cs[..|cs| - 1]) + (if cs[|cs| - 1] in counts then counts[cs[|cs| - 1]] else 0)
  }

  /** The records filed under one of the categories of `cs`. */
  ghost function FiledUnder(entries: map<string, Memory>, cs: seq<string>): set<string> {
    set id | id in entries && entries[id].category in cs
  }

  /** The sizes of the category sets of `cs`, added up. */
  function SizeSum(cats: map<string, set<string>>, cs: seq<string>): nat {
    if cs == [] then 0 else SizeSum(cats, cs[..|cs| - 1]) + |Members(cats, cs[|cs| - 1])|
  }

  /**
   * Across categories listed once each, the category set sizes add up to the
   * number of records filed under them.
   */
  lemma {:induction false} CountsAddUp(entries: map<string, Memory>, all: map<string, real>, cats: map<string, set<string>>,
                                       accessed: map<string, int>, cs: seq<string>)
    requires Coherent(entries, all, cats, accessed) && Distinct(cs)
    ensures SizeSum(cats, cs) == |FiledUnder(entries, cs)|
  {
    if cs != [] {
      var init := cs[..|cs| - 1];
      PrefixDistinct(cs, init);
      CountsAddUp(entries, all, cats, accessed, init);
      FiledSplit(entries, all, cats, accessed, cs);
    }
  }

  /** The records filed under `cs` are those filed under all but its last category, plus that category's set. */
  lemma {:induction false} FiledSplit(entries: map<string, Memory>, all: map<string, real>, cats: map<string, set<string>>,
                   accessed: map<string, int>, cs: seq<string>)
    requires Coherent(entries, all, cats, accessed) && Distinct(cs) && cs != []
    ensures FiledUnder(entries, cs) == FiledUnder(entries, cs[..|cs| - 1]) + Members(cats, cs[|cs| - 1])
    ensures FiledUnder(entries, cs[..|cs| - 1]) * Members(cats, cs[|cs| - 1]) == {}
  {
    var init, c := cs[..|cs| - 1], cs[|cs| - 1];
    assert c !in init by {
      forall k | 0 <= k < |init|
        ensures init[k] != c
      {
        assert init[k] == cs[k];
      }
    }
    assert forall x | x in cs :: x in init || x == c;
    assert forall x | x in init :: x in cs;
  }

  /** Counts that are the category set sizes add up to the same sum. */
  lemma {:induction false} CountSumSizes(counts: map<string, nat>, cats: map<string, set<string>>, cs: seq<string>)
    requires forall k | 0 <= k < |cs| :: cs[k] in counts && counts[cs[k]] == |Members(cats, cs[k])|
    ensures CountSum(counts, cs) == SizeSum(cats, cs)
  {
    if cs != [] {
      CountSumSizes(counts, cats, cs[..|cs| - 1]);
    }
  }

  /** With every record filed under a fixed category, the category counts add up to the total. */
  lemma {:induction false} CategoryCountsTotal(entries: map<string, Memory>, all: map<string, real>, cats: map<string, set<string>>, accessed: map<string, int>)
    requires Coherent(entries, all, cats, accessed) && Categorized(entries)
    ensures SizeSum(cats, CATEGORIES) == |all|
  {
    CategoriesDistinct();
    CountsAddUp(entries, all, cats, accessed, CATEGORIES);
    assert FiledUnder(entries, CATEGORIES) == all.Keys;
  }

  /**
   * A prune sweep over the ascending listing `ids` that deleted exactly the
   * first `i` ids, each below the threshold, and then met an id that is not
   * (or the end), deleted exactly the ids below the threshold.
   */
  lemma {:induction false} PruneStops(ids: seq<string>, all: map<string, real>, threshold: real, done: set<string>, i: nat)
    requires Ranked(ids, all, true) && i <= |ids|
    requires forall k | 0 <= k < i :: ids[k] in done
    requires done <= Below(all, threshold)
    requires i < |ids| ==> all[ids[i]] >= threshold
    ensures done == Below(all, threshold)
  {
    forall x | x in Below(all, threshold)
      ensures x in done
    {
      var k :| 0 <= k < |ids| && ids[k] == x;
      if k >= i {
        assert InOrder(all[ids[i]], all[ids[k]], true) || k == i;
      }
    }
  }

  class Store {
    var entries: map<string, Memory>
    var all: map<string, real>
    var cats: map<string, set<string>>
    var accessed: map<string, int>
    var stats: map<string, int>
    var lastDecay: Option<int>

    /** The indexes agree with each other. */
    ghost predicate Valid()
      reads this
    {
      Coherent(entries, all, cats, accessed)
    }

    ghost predicate Bounded()
      reads this
    {
      ImportancesBounded(entries)
    }

    ghost predicate RatesBounded()
      reads this
    {
      RatesInUnit(entries)
    }

    ghost predicate Filed()
      reads this
    {
      Categorized(entries)
    }

    /** An empty backend. */
    constructor ()
      ensures Valid() && Bounded() && RatesBounded()
      ensures entries == map[] && all == map[] && cats == map[] && accessed == map[]
      ensures stats == map[] && lastDecay == None
    {
      entries, all, cats, accessed := map[], map[], map[], map[];
      stats, lastDecay := map[], None;
    }

    /** `getMemory(id, false)`: the stored record, or nothing for an unknown id. */
    function Peek(id: string): (r: Option<Memory>)
      reads this
      ensures r.Some? <==> id in entries
      ensures r.Some? ==> r.value == entries[id]
    {
      if id in entries then Some(entries[id]) else None
    }

    /** `incrementStat(key, amount)`. */
    method IncrementStat(key: string, amount: int)
      modifies this
      ensures stats == Bump(old(stats), key, amount)
      ensures entries == old(entries) && all == old(all) && cats == old(cats) && accessed == old(accessed) && lastDecay == old(lastDecay)
    {
      stats := stats[key := StatOr0(stats, key) + amount];
    }

    /**
     * `addMemory`: builds the record (never pinned) and writes it into all four
     * indexes, then counts it in the totals and in its category.
     */
    method Add(id: string, content: string, category: string, confidence: real, now: int) returns (m: Memory)
      requires Valid() && id !in entries
      modifies this
      ensures Valid()
      ensures m == CreateMemory(id, content, category, confidence, false, now)
      ensures entries == old(entries)[id := m]
      ensures all == old(all)[id := m.importance]
      ensures cats == old(cats)[m.category := Members(old(cats), m.category) + {id}]
      ensures accessed == old(accessed)[id := now]
      ensures stats == Bump(Bump(old(stats), TOTAL_MEMORIES, 1), CategoryStat(m.category), 1)
      ensures lastDecay == old(lastDecay)
      ensures old(Bounded()) ==> Bounded()
      ensures old(RatesBounded()) ==> RatesBounded()
      ensures old(Filed()) ==> Filed()
    {
      m := CreateMemory(id, content, category, confidence, false, now);
      Insert(id, m, now);
    }

    /** The writes `addMemory` makes for a record already built. */
    method Insert(id: string, m: Memory, now: int)
      requires Valid() && id !in entries
      modifies this
      ensures Valid()
      ensures entries == old(entries)[id := m]
      ensures all == old(all)[id := m.importance]
      ensures cats == old(cats)[m.category := Members(old(cats), m.category) + {id}]
      ensures accessed == old(accessed)[id := now]
      ensures stats == Bump(Bump(old(stats), TOTAL_MEMORIES, 1), CategoryStat(m.category), 1)
      ensures lastDecay == old(lastDecay)
      ensures old(Bounded()) && 0.0 <= m.importance <= 100.0 ==> Bounded()
      ensures old(RatesBounded()) && 0.0 <= m.decayRate <= 1.0 ==> RatesBounded()
    {
      AddKeepsCoherent(entries, all, cats, accessed, id, m, now);
      PutKeepsBounds(entries, id, m);
      entries, all, cats, accessed, stats :=
        entries[id := m], all[id := m.importance], cats[m.category := Members(cats, m.category) + {id}],
        accessed[id := now], Bump(Bump(stats, TOTAL_MEMORIES, 1), CategoryStat(m.category), 1);
    }

    /**
     * `boostMemory(id, memory)`: raises the importance of `memory` by 8 up to
     * 100, stamps the access and counts it, writes the new importance into the
     * record and the importance set, and trims the recency set to its 100
     * latest ids.
     */
    method Boost(id: string, memory: Memory, now: int)
      requires Valid() && id in entries
      modifies this
      ensures Valid()
      ensures entries == old(entries)[id := old(entries)[id].(
                importance := Boosted(memory.importance),
                lastAccessed := now,
                accessCount := memory.accessCount + 1)]
      ensures all == old(all)[id := Boosted(memory.importance)]
      ensures KeepsLatest(accessed, old(accessed)[id := now], RECENT_LIMIT)
      ensures stats == Bump(old(stats), TOTAL_ACCESSES, 1)
      ensures cats == old(cats) && lastDecay == old(lastDecay)
      ensures old(Bounded()) && 0.0 <= memory.importance ==> Bounded()
      ensures old(RatesBounded()) ==> RatesBounded()
      ensures old(Filed()) ==> Filed()
    {
      var m := entries[id].(importance := Boosted(memory.importance), lastAccessed := now, accessCount := memory.accessCount + 1);
      Rescore(id, m);
      Touch(id, now);
      IncrementStat(TOTAL_ACCESSES, 1);
    }

    /** Writes a record back under its id, with its category unchanged, and its importance into the importance set. */
    method Rescore(id: string, m: Memory)
      requires Valid() && id in entries && m.category == entries[id].category
      modifies this
      ensures Valid()
      ensures cats == old(cats) && accessed == old(accessed) && stats == old(stats) && lastDecay == old(lastDecay)
      ensures entries == old(entries)[id := m] && all == old(all)[id := m.importance]
      ensures old(Bounded()) && 0.0 <= m.importance <= 100.0 ==> Bounded()
      ensures old(RatesBounded()) && 0.0 <= m.decayRate <= 1.0 ==> RatesBounded()
    {
      RescoreKeepsCoherent(entries, all, cats, accessed, id, m, accessed);
      PutKeepsBounds(entries, id, m);
      entries, all := entries[id := m], all[id := m.importance];
    }

    /** Stamps an access in the recency set and trims the set to its latest ids. */
    method Touch(id: string, now: int)
      requires Valid() && id in entries
      modifies this
      ensures Valid()
      ensures entries == old(entries) && all == old(all) && cats == old(cats) && stats == old(stats) && lastDecay == old(lastDecay)
      ensures KeepsLatest(accessed, old(accessed)[id := now], RECENT_LIMIT)
    {
      var recent := LatestOf(accessed[id := now], RECENT_LIMIT);
      RecentKeepsCoherent(entries, all, cats, accessed, recent);
      accessed := recent;
    }

    /**
     * `getMemory(id, boost)`: the record as stored before any boost, or nothing
     * for an unknown id; with `boost`, a known record is boosted after it is read.
     */
    method Get(id: string, boost: bool, now: int) returns (r: Option<Memory>)
      requires Valid()
      modifies this
      ensures Valid()
      ensures r == old(Peek(id))
      ensures r.None? || !boost ==> unchanged(this)
      ensures r.Some? && boost ==>
                && entries == old(entries)[id := r.value.(
                     importance := Boosted(r.value.importance),
                     lastAccessed := now,
                     accessCount := r.value.accessCount + 1)]
                && all == old(all)[id := Boosted(r.value.importance)]
                && KeepsLatest(accessed, old(accessed)[id := now], RECENT_LIMIT)
                && stats == Bump(old(stats), TOTAL_ACCESSES, 1)
                && cats == old(cats) && lastDecay == old(lastDecay)
      ensures old(Bounded()) ==> Bounded()
      ensures old(RatesBounded()) ==> RatesBounded()
      ensures old(Filed()) ==> Filed()
    {
      r := Peek(id);
      if r.Some? && boost {
        Boost(id, r.value, now);
      }
    }

    /**
     * `getMemoriesByCategory(category, limit)`: the records of the normalized
     * category, most important first, cut to `limit` (`slice(0, limit)`, so a
     * negative limit drops that many from the end). `listed` are their ids.
     */
    method GetByCategory(category: string, limit: int) returns (r: seq<Memory>, ghost listed: seq<string>)
      requires Valid()
      ensures |listed| == |r| && Distinct(listed)
      ensures forall k | 0 <= k < |r| :: listed[k] in entries && r[k] == entries[listed[k]]
      ensures forall k | 0 <= k < |r| :: r[k].category == NormalizeCategory(category)
      ensures |r| == SliceLength(|Members(cats, NormalizeCategory(category))|, limit)
      ensures forall i, j | 0 <= i < j < |r| :: r[j].importance <= r[i].importance
      ensures forall x, k | x in Members(cats, NormalizeCategory(category)) && x !in listed && 0 <= k < |r| ::
                entries[x].importance <= r[k].importance
    {
      var normalized := NormalizeCategory(category);
      var ids := SMembers(Members(cats, normalized));
      EnumerationSize(ids, Members(cats, normalized));
      if |ids| == 0 {
        return [], [];
      }
      var scores := ScoresOf(ids);
      var key := (id: string) => Rank(ScoreOr0(scores, id), 0.0);
      var sorted := Take(SortBy(ids, key), limit);
      r := FetchAll(sorted);
      listed := sorted;
      CategoryScored(entries, all, cats, accessed, normalized, ids, scores);
      ListedInCategory(entries, cats, normalized, ids, key, sorted);
      PresentAll(entries, sorted);
      CategoryTop(entries, cats, normalized, ids, scores, sorted, r);
    }

    /** `ZSCORE` of each id in turn. */
    method ScoresOf(ids: seq<string>) returns (scores: map<string, Option<real>>)
      ensures forall k | 0 <= k < |ids| :: ids[k] in scores
      ensures forall x | x in scores :: scores[x] == ZScore(all, x)
    {
      scores := map[];
      for i := 0 to |ids|
        invariant forall k | 0 <= k < i :: ids[k] in scores
        invariant forall x | x in scores :: scores[x] == ZScore(all, x)
      {
        scores := scores[ids[i] := ZScore(all, ids[i])];
      }
    }

    /** `getMemory(id, false)` of each id in turn, keeping the records found. */
    method FetchAll(ids: seq<string>) returns (r: seq<Memory>)
      ensures r == Present(entries, ids)
    {
      r := [];
      for k := 0 to |ids|
        invariant r == Present(entries, ids[..k])
      {
        assert ids[..k + 1][..k] == ids[..k];
        var mem := Peek(ids[k]);
        if mem.Some? {
          r := r + [mem.value];
        }
      }
      assert ids[..|ids|] == ids;
    }

    /**
     * `searchMemories(query, limit)`: looks through the 100 most important ids
     * (`window`) in order, collecting each record whose lowered content or
     * category contains the lowered query, and stops as soon as it holds
     * `limit` results (after the first record, when `limit` is not positive).
     * `examined` is the part of the window it looked at. The results are
     * sorted by relevance, then importance, highest first.
     */
    method Search(query: string, limit: int) returns (hits: seq<Hit>, ghost window: seq<string>, ghost examined: seq<string>)
      requires Valid()
      ensures Distinct(window) && |window| == SliceLength(|all|, SEARCH_WINDOW)
      ensures forall k | 0 <= k < |window| :: window[k] in all
      ensures forall x, k | x in all && x !in window && 0 <= k < |window| :: all[x] <= all[window[k]]
      ensures examined <= window
      ensures forall p | 0 < p < |examined| :: |HitsOf(entries, examined[..p], query)| < limit
      ensures examined != window ==> examined != [] && |HitsOf(entries, examined, query)| >= limit
      ensures hits == SortBy(HitsOf(entries, examined, query), HitRank)
      ensures SortedBy(hits, HitRank) && multiset(hits) == multiset(HitsOf(entries, examined, query))
      ensures |hits| <= if limit < 1 then 1 else limit
    {
      var ranking := ZRange(all, false);
      EnumerationSize(ranking, all.Keys);
      var top := Take(ranking, SEARCH_WINDOW);
      RankedTop(ranking, all, false, top);
      var results, n := Scan(top, query, limit);
      window, examined := top, top[..n];
      hits := SortBy(results, HitRank);
      SortBySorted(results, HitRank);
      SortByPermutes(results, HitRank);
    }

    /** The loop of `searchMemories`: collects matches from `ids` in order until it holds `limit`; `n` ids were looked at. */
    method Scan(ids: seq<string>, query: string, limit: int) returns (results: seq<Hit>, n: nat)
      requires forall k | 0 <= k < |ids| :: ids[k] in entries
      ensures n <= |ids| && results == HitsOf(entries, ids[..n], query)
      ensures forall p | 0 < p < n :: |HitsOf(entries, ids[..n][..p], query)| < limit
      ensures n < |ids| ==> n > 0 && |results| >= limit
      ensures |results| <= if limit < 1 then 1 else limit
    {
      results, n := [], 0;
      while n < |ids|
        invariant n <= |ids|
        invariant results == HitsOf(entries, ids[..n], query)
        invariant forall p | 0 < p <= n :: |HitsOf(entries, ids[..p], query)| < limit
        invariant n == 0 ==> results == []
      {
        HitsStep(entries, ids, n, query);
        var mem := Peek(ids[n]);
        n := n + 1;
        // An id without a record is skipped before the limit is checked.
        if mem.Some? {
          var m := mem.value;
          var contentMatch := Contains(Lower(m.content), Lower(query));
          var categoryMatch := Contains(Lower(m.category), Lower(query));
          if contentMatch || categoryMatch {
            results := results + [Hit(m, if contentMatch then 1.0 else 0.5)];
          }
          if |results| >= limit {
            break;
          }
        }
      }
      assert forall p | 0 < p < n :: ids[..n][..p] == ids[..p];
    }

    /**
     * `updateMemory(id, updates)`: merges the update into the stored record,
     * validates the result and writes it back. The importance set is rewritten
     * only when the update carries an importance, and the id moves between
     * category sets only when the update carries a non-empty category other
     * than the old one.
     */
    method Update(id: string, u: Updates) returns (r: Result<Memory, UpdateError>)
      requires Valid()
      modifies this
      ensures Valid()
      ensures id !in old(entries) ==> r == Err(NotFound)
      ensures id in old(entries) && !ValidateMemory(Merge(old(entries)[id], u)).valid ==>
                r == Err(Invalid(ValidateMemory(Merge(old(entries)[id], u)).errors))
      ensures r.Err? ==> unchanged(this)
      ensures id in old(entries) && ValidateMemory(Merge(old(entries)[id], u)).valid ==>
                && r == Ok(Merge(old(entries)[id], u))
                && entries == old(entries)[id := r.value]
                && all == (if u.importance.Some? then old(all)[id := r.value.importance] else old(all))
                && cats == (if u.category.Some? && u.category.value != "" && u.category.value != old(entries)[id].category
                            then old(cats)[old(entries)[id].category := old(cats)[old(entries)[id].category] - {id}]
                                          [r.value.category := Members(old(cats), r.value.category) + {id}]
                            else old(cats))
                && accessed == old(accessed) && stats == old(stats) && lastDecay == old(lastDecay)
      ensures old(Bounded()) ==> Bounded()
      ensures old(Filed()) ==> Filed()
    {
      var existing := Peek(id);
      if existing.None? {
        return Err(NotFound);
      }
      var old_ := existing.value;
      var updated := Merge(old_, u);
      var validation := ValidateMemory(updated);
      if !validation.valid {
        return Err(Invalid(validation.errors));
      }
      var moves := u.category.Some? && u.category.value != "" && u.category.value != old_.category;
      assert u.importance.None? ==> all[id := updated.importance] == all;
      if moves {
        Move(id, updated);
      } else {
        assert "" !in CATEGORIES;
        Rescore(id, updated);
      }
      r := Ok(updated);
    }

    /** Writes a record back under its id with a new category, moving the id between the category sets. */
    method Move(id: string, m: Memory)
      requires Valid() && id in entries && m.category != entries[id].category
      modifies this
      ensures Valid()
      ensures entries == old(entries)[id := m] && all == old(all)[id := m.importance]
      ensures cats == old(cats)[old(entries)[id].category := old(cats)[old(entries)[id].category] - {id}]
                               [m.category := Members(old(cats), m.category) + {id}]
      ensures accessed == old(accessed) && stats == old(stats) && lastDecay == old(lastDecay)
      ensures old(Bounded()) && 0.0 <= m.importance <= 100.0 ==> Bounded()
    {
      MoveKeepsCoherent(entries, all, cats, accessed, id, m);
      PutKeepsBounds(entries, id, m);
      var was := entries[id].category;
      var cats1 := cats[was := cats[was] - {id}];
      assert Members(cats1, m.category) == Members(cats, m.category);
      entries, all, cats := entries[id := m], all[id := m.importance], cats1[m.category := Members(cats1, m.category) + {id}];
    }

    /**
     * `applyDecay()`: every record not pinned has its importance multiplied by
     * its decay rate once per whole day since the last sweep (at least one),
     * in the record and the importance set; the sweep time is stored and
     * reported with the number of records decayed.
     */
    method ApplyDecay(now: int) returns (report: DecayReport)
      requires Valid()
      modifies this
      ensures Valid()
      ensures report.daysPassed == DaysPassed(now, old(lastDecay))
      ensures report.decayed == |Unpinned(old(entries), old(all), old(all).Keys)|
      ensures entries == DecayedEntries(old(entries), old(all), report.daysPassed, old(all).Keys)
      ensures all == DecayedScores(old(entries), old(all), report.daysPassed, old(all).Keys)
      ensures cats == old(cats) && accessed == old(accessed)
      ensures lastDecay == Some(now) && stats == old(stats)[LAST_DECAY_STAT := now]
      ensures old(Bounded()) && old(RatesBounded()) ==> Bounded() && RatesBounded()
      ensures old(Filed()) ==> Filed()
    {
      var days := DaysPassed(now, lastDecay);
      var e, a, decayed := Sweep(days);
      DecayKeepsInvariants(entries, all, cats, accessed, days, all.Keys);
      entries, all, lastDecay, stats := e, a, Some(now), stats[LAST_DECAY_STAT := now];
      report := DecayReport(decayed, days);
    }

    /** The loop of `applyDecay`: goes through the importance set in ascending order, decaying each record not pinned. */
    method Sweep(days: nat) returns (e: map<string, Memory>, a: map<string, real>, decayed: nat)
      ensures e == DecayedEntries(entries, all, days, all.Keys)
      ensures a == DecayedScores(entries, all, days, all.Keys)
      ensures decayed == |Unpinned(entries, all, all.Keys)|
    {
      var ids := ZRange(all, true);
      e, a, decayed := DecayLoop(entries, all, days, ids);
    }

    /**
     * `pruneMemories(threshold)`: deletes records in ascending order of
     * importance while their score is below `threshold`, stopping at the first
     * one that is not; then counts the deletions as pruned.
     */
    method Prune(threshold: real) returns (pruned: nat)
      requires Valid()
      modifies this
      ensures Valid()
      ensures pruned == |Below(old(all), threshold)|
      ensures entries == old(entries) - Below(old(all), threshold)
      ensures all == old(all) - Below(old(all), threshold)
      ensures cats == Without(old(cats), Below(old(all), threshold))
      ensures accessed == old(accessed) - Below(old(all), threshold)
      ensures stats == Bump(if pruned == 0 then old(stats) else Bump(old(stats), DELETED_MEMORIES, pruned), PRUNED_MEMORIES, pruned)
      ensures lastDecay == old(lastDecay)
      ensures forall id | id in all :: threshold <= all[id]
      ensures old(Bounded()) ==> Bounded()
      ensures old(RatesBounded()) ==> RatesBounded()
      ensures old(Filed()) ==> Filed()
    {
      var e, a, c, r, st;
      e, a, c, r, st, pruned := PruneSweep(entries, all, cats, accessed, stats, threshold);
      entries, all, cats, accessed, stats := e, a, c, r, Bump(st, PRUNED_MEMORIES, pruned);
    }

    /**
     * `deleteMemory(id)`: false and no change for an unknown id; otherwise the
     * id leaves all four indexes, the deletion is counted, and the result is true.
     */
    method Delete(id: string) returns (deleted: bool)
      requires Valid()
      modifies this
      ensures Valid()
      ensures deleted <==> id in old(entries)
      ensures !deleted ==> unchanged(this)
      ensures deleted ==>
                && entries == old(entries) - {id}
                && all == old(all) - {id}
                && cats == old(cats)[old(entries)[id].category := old(cats)[old(entries)[id].category] - {id}]
                && accessed == old(accessed) - {id}
                && stats == Bump(old(stats), DELETED_MEMORIES, 1)
                && lastDecay == old(lastDecay)
      ensures old(Bounded()) ==> Bounded()
      ensures old(RatesBounded()) ==> RatesBounded()
      ensures old(Filed()) ==> Filed()
    {
      var mem := Peek(id);
      if mem.None? {
        return false;
      }
      Remove(id);
      deleted := true;
    }

    /** The writes `deleteMemory` makes for an id that has a record. */
    method Remove(id: string)
      requires Valid() && id in entries
      modifies this
      ensures Valid()
      ensures entries == old(entries) - {id}
      ensures all == old(all) - {id}
      ensures cats == old(cats)[old(entries)[id].category := old(cats)[old(entries)[id].category] - {id}]
      ensures accessed == old(accessed) - {id}
      ensures stats == Bump(old(stats), DELETED_MEMORIES, 1)
      ensures lastDecay == old(lastDecay)
      ensures old(Bounded()) ==> Bounded()
      ensures old(RatesBounded()) ==> RatesBounded()
    {
      RemoveKeepsCoherent(entries, all, cats, accessed, id);
      var category := entries[id].category;
      entries, all, cats, accessed, stats :=
        entries - {id}, all - {id}, cats[category := cats[category] - {id}], accessed - {id},
        Bump(stats, DELETED_MEMORIES, 1);
    }

    /**
     * `getStats()`: the number of records and of recently accessed ids, the
     * counter hash, and the size of each fixed category's set.
     */
    method GetStats() returns (r: Stats)
      requires Valid()
      ensures r.totalMemories == |all| && r.hotMemories == |accessed|
      ensures r.hotMemories <= r.totalMemories
      ensures r.counters == stats
      ensures forall c :: c in r.categories <==> c in CATEGORIES
      ensures forall c | c in r.categories :: r.categories[c] == |Members(cats, c)|
      ensures Categorized(entries) ==> CountSum(r.categories, CATEGORIES) == r.totalMemories
    {
      var counts: map<string, nat> := map[];
      for i := 0 to |CATEGORIES|
        invariant forall c :: c in counts <==> c in CATEGORIES[..i]
        invariant forall c | c in counts :: counts[c] == |Members(cats, c)|
      {
        assert CATEGORIES[..i + 1] == CATEGORIES[..i] + [CATEGORIES[i]];
        counts := counts[CATEGORIES[i] := |Members(cats, CATEGORIES[i])|];
      }
      assert CATEGORIES[..|CATEGORIES|] == CATEGORIES;
      assert accessed.Keys <= all.Keys;
      SubsetSize(accessed.Keys, all.Keys);
      if Categorized(entries) {
        CountSumSizes(counts, cats, CATEGORIES);
        CategoryCountsTotal(entries, all, cats, accessed);
      }
      r := Stats(|all|, |accessed|, stats, counts);
    }
  }

  /**
   * A delete followed by a read and a second delete: the read finds nothing
   * and the second delete reports false, and the indexes stay coherent.
   */
  method DeleteThenGet(s: Store, id: string, now: int) returns (deleted: bool, found: Option<Memory>, again: bool)
    requires s.Valid()
    modifies s
    ensures s.Valid()
    ensures deleted <==> id in old(s.entries)
    ensures found.None? && !again
    ensures id !in s.entries && id !in s.all && id !in s.accessed
    ensures forall c | c in s.cats :: id !in s.cats[c]
  {
    deleted := s.Delete(id);
    found := s.Get(id, true, now);
    again := s.Delete(id);
  }

  /** The record a new "Active Projects" fact starts as, read back once with a boost: 90 rises to 98. */
  lemma {:induction false} BoostScenario(id: string, content: string, now: int)
    ensures CreateMemory(id, content, ACTIVE_PROJECTS, 85.0, false, now).importance == 90.0
    ensures Boosted(CreateMemory(id, content, ACTIVE_PROJECTS, 85.0, false, now).importance) == 98.0
    ensures Boosted(98.0) == 100.0 && Boosted(100.0) == 100.0
  {
  }

  /** A sweep run again within the same day still decays for one day: 100 at rate 0.95 becomes 95. */
  lemma {:induction false} DecayScenario(now: int, last: int)
    requires 0 <= now - last < MS_PER_DAY
    ensures DaysPassed(now, Some(last)) == 1
    ensures Decayed(100.0, 0.95, DaysPassed(now, Some(last))) == 95.0
  {
  }

  /** A subset is no larger than its superset. */
  lemma {:induction false} SubsetSize<T>(a: set<T>, b: set<T>)
    requires a <= b
    ensures |a| <= |b|
    decreases |b|
  {
    if a != {} {
      var x :| x in a;
      SubsetSize(a - {x}, b - {x});
    }
  }

  /** Drops the oldest ids of a recency set until at most `limit` remain. */
  method LatestOf(times: map<string, int>, limit: nat) returns (recent: map<string, int>)
    ensures KeepsLatest(recent, times, limit)
  {
    recent := times;
    while |recent| > limit
      invariant recent.Keys <= times.Keys
      invariant forall id | id in recent :: recent[id] == times[id]
      invariant |recent| == |times| || limit <= |recent|
      invariant |times| <= limit ==> recent == times
      invariant forall kept, gone | kept in recent && gone in times && gone !in recent :: times[gone] <= times[kept]
      decreases |recent|
    {
      OldestExists(recent);
      var oldest :| oldest in recent && forall id | id in recent :: recent[oldest] <= recent[id];
      recent := recent - {oldest};
    }
  }

  /** A non-empty recency set has an oldest id. */
  lemma {:induction false} OldestExists(times: map<string, int>)
    requires |times| > 0
    ensures exists oldest :: oldest in times && forall id | id in times :: times[oldest] <= times[id]
    decreases |times|
  {
    var x :| x in times;
    var rest := times - {x};
    assert rest.Keys == times.Keys - {x};
    if |rest| == 0 {
      assert times.Keys == {x};
    } else {
      OldestExists(rest);
      var y :| y in rest && forall id | id in rest :: rest[y] <= rest[id];
      assert forall z | z in times :: z == x || z in rest;
      if times[x] <= times[y] {
        assert forall id | id in times :: times[x] <= times[id];
      } else {
        assert forall id | id in times :: times[y] <= times[id];
      }
    }
  }

  /**
   * The loop of `pruneMemories`: a store's four indexes and the counters after
   * applying `deleteMemory`'s writes to each id, in ascending order of
   * importance, while its score is below `threshold`.
   */
  method PruneSweep(entries: map<string, Memory>, all: map<string, real>, cats: map<string, set<string>>,
                    accessed: map<string, int>, stats: map<string, int>, threshold: real)
    returns (e: map<string, Memory>, a: map<string, real>, c: map<string, set<string>>, r: map<string, int>,
             st: map<string, int>, pruned: nat)
    requires Coherent(entries, all, cats, accessed)
    ensures Coherent(e, a, c, r)
    ensures pruned == |Below(all, threshold)|
    ensures e == entries - Below(all, threshold) && a == all - Below(all, threshold)
    ensures c == Without(cats, Below(all, threshold)) && r == accessed - Below(all, threshold)
    ensures st == if pruned == 0 then stats else Bump(stats, DELETED_MEMORIES, pruned)
    ensures forall id | id in a :: threshold <= a[id]
    ensures ImportancesBounded(entries) ==> ImportancesBounded(e)
    ensures RatesInUnit(entries) ==> RatesInUnit(e)
  {
    var ids := ZRange(all, true);
    ghost var done, stop;
    e, a, c, r, st, pruned, done, stop := PruneLoop(entries, all, cats, accessed, stats, ids, threshold);
    PruneStops(ids, all, threshold, done, stop);
    RemoveAllKeepsCoherent(entries, all, cats, accessed, done);
    PruneDone(entries, all, cats, accessed, stats, e, a, c, r, st, done, pruned);
  }

  /**
   * The loop itself, over any listing of scored ids without repeats: the ids
   * taken are a prefix of the listing, all below `threshold`, and the loop
   * stops at the end or at an id whose score is not below it.
   */
  method PruneLoop(entries: map<string, Memory>, all: map<string, real>, cats: map<string, set<string>>,
                   accessed: map<string, int>, stats: map<string, int>, ids: seq<string>, threshold: real)
    returns (e: map<string, Memory>, a: map<string, real>, c: map<string, set<string>>, r: map<string, int>,
             st: map<string, int>, pruned: nat, ghost done: set<string>, ghost stop: nat)
    requires Coherent(entries, all, cats, accessed)
    requires Distinct(ids) && forall k | 0 <= k < |ids| :: ids[k] in all
    ensures PruneProgress(entries, all, cats, accessed, stats, e, a, c, r, st, done, pruned)
    ensures stop <= |ids| && forall k | 0 <= k < stop :: ids[k] in done
    ensures done <= Below(all, threshold)
    ensures stop < |ids| ==> all[ids[stop]] >= threshold
  {
    e, a, c, r, st, pruned := entries, all, cats, accessed, stats, 0;
    done := {};
    WithoutNothing(cats);
    var i := 0;
    while i < |ids|
      invariant 0 <= i <= |ids|
      invariant PruneProgress(entries, all, cats, accessed, stats, e, a, c, r, st, done, pruned)
      invariant forall k | 0 <= k < i :: ids[k] in done
      invariant forall k | i <= k < |ids| :: ids[k] !in done
      invariant done <= Below(all, threshold)
    {
      var score := ZScore(a, ids[i]);
      if score.Some? && score.value < threshold {
        var id := ids[i];
        PruneStep(entries, all, cats, accessed, stats, e, a, c, r, st, done, pruned, id);
        var category := e[id].category;
        e, a, c, r, st := e - {id}, a - {id}, c[category := c[category] - {id}], r - {id}, Bump(st, DELETED_MEMORIES, 1);
        pruned, done, i := pruned + 1, done + {id}, i + 1;
      } else {
        break;
      }
    }
    stop := i;
  }
}

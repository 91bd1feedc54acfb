/** The spawn budget policy: per-type and total entity caps per biome, a
    per-frame spawn limit, and a bounded queue of deferred spawns that is
    drained in priority order. Counters are unbounded naturals; the `u32`
    and `u64` widths of the engine are not modelled. */
module SpawnBudget {
  import opened Common

  datatype EntityType = Building | Vehicle | Npc | Tree | Particle

  datatype BiomeType = Urban | Suburban | Rural | Industrial

  /** Declared in this order, so `Critical` sorts first. */
  datatype SpawnPriority = Critical | High | Medium | Low

  function PriorityRank(p: SpawnPriority): nat
  {
    match p
    case Critical => 0
    case High => 1
    case Medium => 2
    case Low => 3
  }

  datatype SpawnData =
    | BuildingData(position: Vec3, buildingType: string)
    | VehicleData(position: Vec3, vehicleType: string)
    | NpcData(position: Vec3, npcType: string)
    | TreeData(position: Vec3, treeType: string)
    | ParticleData(position: Vec3, effectType: string)

  datatype EntityCounts = EntityCounts(buildings: nat, vehicles: nat, npcs: nat, trees: nat, particles: nat, total: nat)

  const ZeroCounts := EntityCounts(0, 0, 0, 0, 0, 0)

  datatype EntityBudget = EntityBudget(buildings: nat, vehicles: nat, npcs: nat, trees: nat, particles: nat, totalCap: nat)

  datatype BiomeBudgetCaps = BiomeBudgetCaps(urban: EntityBudget, suburban: EntityBudget, rural: EntityBudget,
                                             industrial: EntityBudget, default: EntityBudget)

  /** The shipped caps; `default` is not selected by any biome. */
  const DefaultCaps := BiomeBudgetCaps(
    EntityBudget(120, 30, 5, 50, 75, 280),
    EntityBudget(60, 25, 3, 150, 40, 278),
    EntityBudget(20, 10, 1, 200, 20, 251),
    EntityBudget(80, 40, 2, 20, 100, 242),
    EntityBudget(80, 20, 2, 100, 50, 252))

  datatype FrameLimits = FrameLimits(maxSpawnsPerFrame: nat, maxDespawnsPerFrame: nat, timeBudgetMs: real, priorityThreshold: real)

  const DefaultFrameLimits := FrameLimits(50, 100, 16.67, 0.5)

  const DefaultMaxQueueLength: nat := 1000

  datatype PendingSpawn = PendingSpawn(entityType: EntityType, biome: BiomeType, priority: SpawnPriority,
                                       spawnData: SpawnData, queuedAt: real)

  datatype BudgetMetrics = BudgetMetrics(totalSpawnRequests: nat, successfulSpawns: nat, rejectedSpawns: nat,
                                         queuedSpawns: nat, averageQueueTime: real, budgetUtilization: real,
                                         frameTimeImpact: real)

  const ZeroMetrics := BudgetMetrics(0, 0, 0, 0, 0.0, 0.0, 0.0)

  datatype RejectionReason = EntityCapExceeded(entityType: EntityType) | TotalCapExceeded | FrameLimitExceeded
                           | QueueOverflow | TimeBudgetExceeded

  datatype SpawnResult = Approved | Queued | Rejected(reason: RejectionReason)

  function BudgetFor(caps: BiomeBudgetCaps, biome: BiomeType): EntityBudget
  {
    match biome
    case Urban => caps.urban
    case Suburban => caps.suburban
    case Rural => caps.rural
    case Industrial => caps.industrial
  }

  function CountOf(c: EntityCounts, t: EntityType): nat
  {
    match t
    case Building => c.buildings
    case Vehicle => c.vehicles
    case Npc => c.npcs
    case Tree => c.trees
    case Particle => c.particles
  }

  function CapOf(b: EntityBudget, t: EntityType): nat
  {
    match t
    case Building => b.buildings
    case Vehicle => b.vehicles
    case Npc => b.npcs
    case Tree => b.trees
    case Particle => b.particles
  }

  /** `can_spawn`: room for one more of the type and one more in total. */
  function CanSpawnWith(c: EntityCounts, caps: BiomeBudgetCaps, t: EntityType, biome: BiomeType): bool
  {
    CountOf(c, t) < CapOf(BudgetFor(caps, biome), t) && c.total < BudgetFor(caps, biome).totalCap
  }

  /** The counts after `record_spawn`. */
  function WithSpawn(c: EntityCounts, t: EntityType): (r: EntityCounts)
    ensures CountOf(r, t) == CountOf(c, t) + 1 && r.total == c.total + 1
    ensures forall u :: u != t ==> CountOf(r, u) == CountOf(c, u)
  {
    var c' := match t
      case Building => c.(buildings := c.buildings + 1)
      case Vehicle => c.(vehicles := c.vehicles + 1)
      case Npc => c.(npcs := c.npcs + 1)
      case Tree => c.(trees := c.trees + 1)
      case Particle => c.(particles := c.particles + 1);
    c'.(total := c.total + 1)
  }

  /** The counts after `record_despawn`: saturating decrements. */
  function WithDespawn(c: EntityCounts, t: EntityType): (r: EntityCounts)
    ensures CountOf(r, t) == SatSub(CountOf(c, t), 1) && r.total == SatSub(c.total, 1)
    ensures forall u :: u != t ==> CountOf(r, u) == CountOf(c, u)
  {
    var c' := match t
      case Building => c.(buildings := SatSub(c.buildings, 1))
      case Vehicle => c.(vehicles := SatSub(c.vehicles, 1))
      case Npc => c.(npcs := SatSub(c.npcs, 1))
      case Tree => c.(trees := SatSub(c.trees, 1))
      case Particle => c.(particles := SatSub(c.particles, 1));
    c'.(total := SatSub(c.total, 1))
  }

  /** A despawn undoes a spawn of the same type. */
  lemma DespawnUndoesSpawn(c: EntityCounts, t: EntityType)
    ensures WithDespawn(WithSpawn(c, t), t) == c
  {
  }

  /** Every count is pointwise at least the other's. */
  predicate AtLeast(c: EntityCounts, d: EntityCounts)
  {
    c.buildings >= d.buildings && c.vehicles >= d.vehicles && c.npcs >= d.npcs
    && c.trees >= d.trees && c.particles >= d.particles && c.total >= d.total
  }

  /** More entities never make a refused spawn possible. */
  lemma CanSpawnAntitone(c: EntityCounts, d: EntityCounts, caps: BiomeBudgetCaps, t: EntityType, biome: BiomeType)
    requires AtLeast(d, c)
    ensures CanSpawnWith(d, caps, t, biome) ==> CanSpawnWith(c, caps, t, biome)
  {
    assert CountOf(d, t) >= CountOf(c, t);
  }

  /** An approved spawn keeps the type and the total within the biome's caps. */
  lemma ApprovedSpawnStaysWithinCaps(c: EntityCounts, caps: BiomeBudgetCaps, t: EntityType, biome: BiomeType)
    requires CanSpawnWith(c, caps, t, biome)
    ensures CountOf(WithSpawn(c, t), t) <= CapOf(BudgetFor(caps, biome), t)
    ensures WithSpawn(c, t).total <= BudgetFor(caps, biome).totalCap
  {
  }

  // ---------------------------------------------------------------------
  // The queue order

  function OfPriority(q: seq<PendingSpawn>, p: SpawnPriority): (r: seq<PendingSpawn>)
    ensures forall k :: 0 <= k < |r| ==> r[k].priority == p
    ensures |r| <= |q|
  {
    if q == [] then []
    else if q[0].priority == p then [q[0]] + OfPriority(q[1..], p)
    else OfPriority(q[1..], p)
  }

  /** `sort_by_key(priority)`: a stable sort with four key values is the
      concatenation of the entries of each priority, in their queue order. */
  function SortByPriority(q: seq<PendingSpawn>): seq<PendingSpawn>
  {
    OfPriority(q, Critical) + OfPriority(q, High) + OfPriority(q, Medium) + OfPriority(q, Low)
  }

  ghost predicate PrioritySorted(q: seq<PendingSpawn>)
  {
    forall i, j :: 0 <= i < j < |q| ==> PriorityRank(q[i].priority) <= PriorityRank(q[j].priority)
  }

  lemma {:induction false} OfPriorityCount(q: seq<PendingSpawn>, p: SpawnPriority)
    ensures forall e :: multiset(OfPriority(q, p))[e] == if e.priority == p then multiset(q)[e] else 0
  {
    if q != [] {
      OfPriorityCount(q[1..], p);
      assert q == [q[0]] + q[1..];
    }
  }

  lemma OfPriorityPartition(q: seq<PendingSpawn>)
    ensures multiset(OfPriority(q, Critical)) + multiset(OfPriority(q, High))
          + multiset(OfPriority(q, Medium)) + multiset(OfPriority(q, Low)) == multiset(q)
  {
    OfPriorityCount(q, Critical);
    OfPriorityCount(q, High);
    OfPriorityCount(q, Medium);
    OfPriorityCount(q, Low);
  }

  /** The sorted queue is ordered by priority and is a permutation of the queue. */
  lemma SortByPriorityCorrect(q: seq<PendingSpawn>)
    ensures PrioritySorted(SortByPriority(q))
    ensures multiset(SortByPriority(q)) == multiset(q)
  {
    OfPriorityPartition(q);
    var s := SortByPriority(q);
    var a, b, c := |OfPriority(q, Critical)|, |OfPriority(q, High)|, |OfPriority(q, Medium)|;
    forall k | 0 <= k < |s|
      ensures PriorityRank(s[k].priority) == if k < a then 0 else if k < a + b then 1 else if k < a + b + c then 2 else 3
    {
      if k < a { assert s[k] == OfPriority(q, Critical)[k]; }
      else if k < a + b { assert s[k] == OfPriority(q, High)[k - a]; }
      else if k < a + b + c { assert s[k] == OfPriority(q, Medium)[k - a - b]; }
      else { assert s[k] == OfPriority(q, Low)[k - a - b - c]; }
    }
  }

  /** The counts after spawning each entry of `ps` in turn. */
  function SpawnAll(c: EntityCounts, ps: seq<PendingSpawn>): EntityCounts
    decreases |ps|
  {
    if ps == [] then c else SpawnAll(WithSpawn(c, ps[0].entityType), ps[1..])
  }

  lemma {:induction false} SpawnAllAppend(c: EntityCounts, ps: seq<PendingSpawn>, p: PendingSpawn)
    ensures SpawnAll(c, ps + [p]) == WithSpawn(SpawnAll(c, ps), p.entityType)
    decreases |ps|
  {
    if ps == [] {
      assert ps + [p] == [p];
    } else {
      assert (ps + [p])[1..] == ps[1..] + [p];
      SpawnAllAppend(WithSpawn(c, ps[0].entityType), ps[1..], p);
    }
  }

  /** Spawning `n` entries raises the total by exactly `n` and lowers no count. */
  lemma {:induction false} SpawnAllGrows(c: EntityCounts, ps: seq<PendingSpawn>)
    ensures SpawnAll(c, ps).total == c.total + |ps|
    ensures AtLeast(SpawnAll(c, ps), c)
    decreases |ps|
  {
    if ps != [] {
      SpawnAllGrows(WithSpawn(c, ps[0].entityType), ps[1..]);
      assert AtLeast(WithSpawn(c, ps[0].entityType), c) by {
        assert CountOf(WithSpawn(c, ps[0].entityType), Building) >= c.buildings;
        assert CountOf(WithSpawn(c, ps[0].entityType), Vehicle) >= c.vehicles;
        assert CountOf(WithSpawn(c, ps[0].entityType), Npc) >= c.npcs;
        assert CountOf(WithSpawn(c, ps[0].entityType), Tree) >= c.trees;
        assert CountOf(WithSpawn(c, ps[0].entityType), Particle) >= c.particles;
      }
    }
  }

  /** Each spawned entry fitted the budget left by those spawned before it. */
  ghost predicate EachFitted(c0: EntityCounts, caps: BiomeBudgetCaps, taken: seq<PendingSpawn>)
  {
    forall k :: 0 <= k < |taken| ==> CanSpawnWith(SpawnAll(c0, taken[..k]), caps, taken[k].entityType, taken[k].biome)
  }

  /** What a drain leaves in the queue and what it spawns, in spawn order. */
  datatype DrainResult = DrainResult(kept: seq<PendingSpawn>, spawned: seq<PendingSpawn>)

  /** The drain as the engine performs it, entry by entry from the front:
      while allowance is left, an entry that fits the budget at its turn is
      spawned (and counted before the next entry is tried), and one that
      does not stays in the queue in its place. The result is the queue
      left behind and the spawned entries in spawn order. */
  function GreedyDrain(q: seq<PendingSpawn>, c: EntityCounts, caps: BiomeBudgetCaps, allowance: nat): (r: DrainResult)
    ensures |r.spawned| <= allowance && |r.kept| + |r.spawned| == |q|
    ensures allowance == 0 ==> r == DrainResult(q, [])
    decreases |q|
  {
    if |q| == 0 || allowance == 0 then DrainResult(q, [])
    else if CanSpawnWith(c, caps, q[0].entityType, q[0].biome) then
      var rest := GreedyDrain(q[1..], WithSpawn(c, q[0].entityType), caps, allowance - 1);
      DrainResult(rest.kept, [q[0]] + rest.spawned)
    else
      var rest := GreedyDrain(q[1..], c, caps, allowance);
      DrainResult([q[0]] + rest.kept, rest.spawned)
  }

  /** The drain loop's position: the first `i` entries of `q` were refused
      and stay, the rest of `q` is still to be tried against the counts `c`
      with `remaining` spawns left, and together with the entries already
      `taken` this gives the whole drain of `q0`. */
  ghost predicate GreedySoFar(q0: seq<PendingSpawn>, c0: EntityCounts, caps: BiomeBudgetCaps, allowance: nat,
                              q: seq<PendingSpawn>, i: nat, c: EntityCounts, remaining: nat, taken: seq<PendingSpawn>)
    requires i <= |q|
  {
    var rest := GreedyDrain(q[i..], c, caps, remaining);
    GreedyDrain(q0, c0, caps, allowance) == DrainResult(q[..i] + rest.kept, taken + rest.spawned)
  }

  /** Spawning the entry at `i` moves it from the part still to be tried to
      the spawned list and leaves the drain as a whole the same. */
  lemma GreedySpawnStep(q0: seq<PendingSpawn>, c0: EntityCounts, caps: BiomeBudgetCaps, allowance: nat,
                        q: seq<PendingSpawn>, i: nat, c: EntityCounts, remaining: nat, taken: seq<PendingSpawn>)
    requires i < |q| && remaining > 0
    requires CanSpawnWith(c, caps, q[i].entityType, q[i].biome)
    requires GreedySoFar(q0, c0, caps, allowance, q, i, c, remaining, taken)
    ensures GreedySoFar(q0, c0, caps, allowance, q[..i] + q[i + 1..], i, WithSpawn(c, q[i].entityType),
                        remaining - 1, taken + [q[i]])
  {
    var q' := q[..i] + q[i + 1..];
    assert q'[..i] == q[..i];
    assert q'[i..] == q[i + 1..];
    assert q[i..][1..] == q[i + 1..];
    var rest := GreedyDrain(q[i + 1..], WithSpawn(c, q[i].entityType), caps, remaining - 1);
    assert GreedyDrain(q[i..], c, caps, remaining) == DrainResult(rest.kept, [q[i]] + rest.spawned);
    assert taken + ([q[i]] + rest.spawned) == (taken + [q[i]]) + rest.spawned;
  }

  /** Refusing the entry at `i` moves it to the part that stays. */
  lemma GreedySkipStep(q0: seq<PendingSpawn>, c0: EntityCounts, caps: BiomeBudgetCaps, allowance: nat,
                       q: seq<PendingSpawn>, i: nat, c: EntityCounts, remaining: nat, taken: seq<PendingSpawn>)
    requires i < |q| && remaining > 0
    requires !CanSpawnWith(c, caps, q[i].entityType, q[i].biome)
    requires GreedySoFar(q0, c0, caps, allowance, q, i, c, remaining, taken)
    ensures GreedySoFar(q0, c0, caps, allowance, q, i + 1, c, remaining, taken)
  {
    assert q[i..][1..] == q[i + 1..];
    var rest := GreedyDrain(q[i + 1..], c, caps, remaining);
    assert GreedyDrain(q[i..], c, caps, remaining) == DrainResult([q[i]] + rest.kept, rest.spawned);
    assert q[..i] + ([q[i]] + rest.kept) == q[..i + 1] + rest.kept;
  }

  /** Where the loop stops (the queue walked to its end, or no allowance
      left) the queue and the spawned list are exactly the drain's. */
  lemma GreedyDone(q0: seq<PendingSpawn>, c0: EntityCounts, caps: BiomeBudgetCaps, allowance: nat,
                   q: seq<PendingSpawn>, i: nat, c: EntityCounts, remaining: nat, taken: seq<PendingSpawn>)
    requires i <= |q| && (i == |q| || remaining == 0)
    requires GreedySoFar(q0, c0, caps, allowance, q, i, c, remaining, taken)
    ensures GreedyDrain(q0, c0, caps, allowance) == DrainResult(q, taken)
  {
    var rest := GreedyDrain(q[i..], c, caps, remaining);
    if i == |q| {
      assert q[i..] == [] && q[..i] == q;
      assert rest == DrainResult([], []);
    } else {
      assert rest == DrainResult(q[i..], []);
    }
    assert q[..i] + rest.kept == q;
    assert taken + rest.spawned == taken;
  }

  /** Before the loop nothing was tried: the whole drain is still ahead. */
  lemma GreedyStart(q0: seq<PendingSpawn>, c0: EntityCounts, caps: BiomeBudgetCaps, allowance: nat)
    ensures GreedySoFar(q0, c0, caps, allowance, q0, 0, c0, allowance, [])
  {
    assert q0[0..] == q0 && q0[..0] == [];
    var rest := GreedyDrain(q0, c0, caps, allowance);
    assert [] + rest.kept == rest.kept && [] + rest.spawned == rest.spawned;
  }

  /** The case of a full queue and a single spawn left: the first entry,
      when it fits, is the one spawned, and everything after it stays in
      order, whatever its priority. */
  lemma GreedyTakesFront(q: seq<PendingSpawn>, c: EntityCounts, caps: BiomeBudgetCaps)
    requires |q| > 0 && CanSpawnWith(c, caps, q[0].entityType, q[0].biome)
    ensures GreedyDrain(q, c, caps, 1) == DrainResult(q[1..], [q[0]])
  {
    var rest := GreedyDrain(q[1..], WithSpawn(c, q[0].entityType), caps, 0);
    assert rest == DrainResult(q[1..], []);
    assert [q[0]] + rest.spawned == [q[0]];
  }

  /** The drain's exact outcome: `q` and `taken` are what `GreedyDrain` of
      `q0` leaves and spawns, the counts are the start counts with every
      taken entry recorded, and the metrics count one successful request per
      taken entry. */
  ghost predicate DrainedExactly(q0: seq<PendingSpawn>, c0: EntityCounts, caps: BiomeBudgetCaps, allowance: nat,
                                 m0: BudgetMetrics, q: seq<PendingSpawn>, c: EntityCounts, m: BudgetMetrics,
                                 taken: seq<PendingSpawn>)
  {
    && GreedyDrain(q0, c0, caps, allowance) == DrainResult(q, taken)
    && c == SpawnAll(c0, taken)
    && m.successfulSpawns == m0.successfulSpawns + |taken|
    && m.totalSpawnRequests == m0.totalSpawnRequests + |taken|
    && m.rejectedSpawns == m0.rejectedSpawns && m.queuedSpawns == m0.queuedSpawns
  }

  /** What one drain of the sorted queue `q0` achieves: at most `allowance`
      entries are taken; the taken entries and the remaining queue `q` are
      a partition of `q0`, and `q` stays sorted; each taken entry fitted the
      budget at its turn; and unless the allowance was used up, nothing left
      in the queue can spawn. */
  ghost predicate Drained(q0: seq<PendingSpawn>, c0: EntityCounts, caps: BiomeBudgetCaps, allowance: nat,
                          m0: BudgetMetrics, q: seq<PendingSpawn>, c: EntityCounts, m: BudgetMetrics,
                          taken: seq<PendingSpawn>)
  {
    && DrainedExactly(q0, c0, caps, allowance, m0, q, c, m, taken)
    && |taken| <= allowance
    && multiset(q) + multiset(taken) == multiset(q0)
    && PrioritySorted(q)
    && EachFitted(c0, caps, taken)
    && (|taken| < allowance ==> forall k :: 0 <= k < |q| ==> !CanSpawnWith(c, caps, q[k].entityType, q[k].biome))
  }

  /** The drain loses and invents no entry: what stays and what is spawned
      together are the queue. */
  lemma {:induction false} GreedyPermutes(q: seq<PendingSpawn>, c: EntityCounts, caps: BiomeBudgetCaps, allowance: nat)
    ensures multiset(GreedyDrain(q, c, caps, allowance).kept) + multiset(GreedyDrain(q, c, caps, allowance).spawned)
            == multiset(q)
    decreases |q|
  {
    if |q| > 0 && allowance > 0 {
      assert q == [q[0]] + q[1..];
      if CanSpawnWith(c, caps, q[0].entityType, q[0].biome) {
        GreedyPermutes(q[1..], WithSpawn(c, q[0].entityType), caps, allowance - 1);
      } else {
        GreedyPermutes(q[1..], c, caps, allowance);
      }
    }
  }

  /** What stays of a priority-ordered queue is still priority-ordered. */
  lemma {:induction false} GreedyKeepsSorted(q: seq<PendingSpawn>, c: EntityCounts, caps: BiomeBudgetCaps, allowance: nat)
    requires PrioritySorted(q)
    ensures PrioritySorted(GreedyDrain(q, c, caps, allowance).kept)
    decreases |q|
  {
    if |q| > 0 && allowance > 0 {
      if CanSpawnWith(c, caps, q[0].entityType, q[0].biome) {
        GreedyKeepsSorted(q[1..], WithSpawn(c, q[0].entityType), caps, allowance - 1);
      } else {
        var rest := GreedyDrain(q[1..], c, caps, allowance);
        GreedyKeepsSorted(q[1..], c, caps, allowance);
        GreedyPermutes(q[1..], c, caps, allowance);
        forall k | 0 <= k < |rest.kept| ensures PriorityRank(q[0].priority) <= PriorityRank(rest.kept[k].priority) {
          var x := rest.kept[k];
          assert x in multiset(rest.kept);
          assert x in multiset(q[1..]);
          var j :| 0 <= j < |q[1..]| && q[1..][j] == x;
          assert q[j + 1] == x;
        }
        SortedCons(q[0], rest.kept);
      }
    }
  }

  /** An entry ranked no lower than any of a sorted queue can go in front of it. */
  lemma SortedCons(x: PendingSpawn, s: seq<PendingSpawn>)
    requires PrioritySorted(s)
    requires forall k :: 0 <= k < |s| ==> PriorityRank(x.priority) <= PriorityRank(s[k].priority)
    ensures PrioritySorted([x] + s)
  {
    var t := [x] + s;
    forall a, b | 0 <= a < b < |t| ensures PriorityRank(t[a].priority) <= PriorityRank(t[b].priority) {
      assert t[b] == s[b - 1];
      if a > 0 {
        assert t[a] == s[a - 1];
      }
    }
  }

  /** Every spawned entry fitted the budget left by those spawned before it. */
  lemma {:induction false} GreedyEachFitted(q: seq<PendingSpawn>, c: EntityCounts, caps: BiomeBudgetCaps, allowance: nat)
    ensures EachFitted(c, caps, GreedyDrain(q, c, caps, allowance).spawned)
    decreases |q|
  {
    if |q| > 0 && allowance > 0 && CanSpawnWith(c, caps, q[0].entityType, q[0].biome) {
      var c' := WithSpawn(c, q[0].entityType);
      var s := GreedyDrain(q[1..], c', caps, allowance - 1).spawned;
      GreedyEachFitted(q[1..], c', caps, allowance - 1);
      var t := [q[0]] + s;
      forall k | 0 <= k < |t| ensures CanSpawnWith(SpawnAll(c, t[..k]), caps, t[k].entityType, t[k].biome) {
        if k == 0 {
          assert t[..k] == [];
        } else {
          var p := t[..k];
          assert p[0] == q[0] && p[1..] == s[..k - 1];
          assert SpawnAll(c, p) == SpawnAll(c', s[..k - 1]);
          assert t[k] == s[k - 1];
        }
      }
    } else if |q| > 0 && allowance > 0 {
      GreedyEachFitted(q[1..], c, caps, allowance);
    }
  }

  /** Unless the allowance ran out, no entry that stays fits the budget
      left once the spawned entries are counted. */
  lemma {:induction false} GreedyRefusesRest(q: seq<PendingSpawn>, c: EntityCounts, caps: BiomeBudgetCaps, allowance: nat)
    ensures var r := GreedyDrain(q, c, caps, allowance);
            |r.spawned| < allowance ==>
              forall k :: 0 <= k < |r.kept| ==> !CanSpawnWith(SpawnAll(c, r.spawned), caps, r.kept[k].entityType, r.kept[k].biome)
    decreases |q|
  {
    if |q| > 0 && allowance > 0 {
      if CanSpawnWith(c, caps, q[0].entityType, q[0].biome) {
        var c' := WithSpawn(c, q[0].entityType);
        var rest := GreedyDrain(q[1..], c', caps, allowance - 1);
        GreedyRefusesRest(q[1..], c', caps, allowance - 1);
        var t := [q[0]] + rest.spawned;
        assert t[0] == q[0] && t[1..] == rest.spawned;
        assert SpawnAll(c, t) == SpawnAll(c', rest.spawned);
      } else {
        var rest := GreedyDrain(q[1..], c, caps, allowance);
        GreedyRefusesRest(q[1..], c, caps, allowance);
        var d := SpawnAll(c, rest.spawned);
        SpawnAllGrows(c, rest.spawned);
        CanSpawnAntitone(c, d, caps, q[0].entityType, q[0].biome);
        var kept := [q[0]] + rest.kept;
        if |rest.spawned| < allowance {
          forall k | 0 <= k < |kept| ensures !CanSpawnWith(d, caps, kept[k].entityType, kept[k].biome) {
            if k > 0 {
              assert kept[k] == rest.kept[k - 1];
            }
          }
        }
      }
    }
  }

  /** The exact drain of a sorted queue has every property `Drained` names. */
  lemma ExactDrainIsDrained(q0: seq<PendingSpawn>, c0: EntityCounts, caps: BiomeBudgetCaps, allowance: nat,
                            m0: BudgetMetrics, q: seq<PendingSpawn>, c: EntityCounts, m: BudgetMetrics,
                            taken: seq<PendingSpawn>)
    requires PrioritySorted(q0)
    requires DrainedExactly(q0, c0, caps, allowance, m0, q, c, m, taken)
    ensures Drained(q0, c0, caps, allowance, m0, q, c, m, taken)
  {
    GreedyPermutes(q0, c0, caps, allowance);
    GreedyKeepsSorted(q0, c0, caps, allowance);
    GreedyEachFitted(q0, c0, caps, allowance);
    GreedyRefusesRest(q0, c0, caps, allowance);
  }

  /** The drain loop of `process_spawn_queue`, over the sorted queue: it
      walks the queue, removes and records every entry that fits the budget
      at its turn, and stops when the allowance is used up. */
  method DrainQueue(q0: seq<PendingSpawn>, c0: EntityCounts, caps: BiomeBudgetCaps, allowance: nat,
                    m0: BudgetMetrics, gameTime: real)
    returns (q: seq<PendingSpawn>, c: EntityCounts, m: BudgetMetrics, taken: seq<PendingSpawn>)
    ensures DrainedExactly(q0, c0, caps, allowance, m0, q, c, m, taken)
  {
    q, c, m, taken := q0, c0, m0, [];
    var remaining: nat := allowance;
    var i := 0;
    GreedyStart(q0, c0, caps, allowance);
    while i < |q| && remaining > 0
      invariant i <= |q|
      invariant c == SpawnAll(c0, taken)
      invariant m.successfulSpawns == m0.successfulSpawns + |taken|
      invariant m.totalSpawnRequests == m0.totalSpawnRequests + |taken|
      invariant m.rejectedSpawns == m0.rejectedSpawns && m.queuedSpawns == m0.queuedSpawns
      invariant GreedySoFar(q0, c0, caps, allowance, q, i, c, remaining, taken)
      decreases |q| - i
    {
      var spawn := q[i];
      if CanSpawnWith(c, caps, spawn.entityType, spawn.biome) {
        GreedySpawnStep(q0, c0, caps, allowance, q, i, c, remaining, taken);
        SpawnAllAppend(c0, taken, spawn);
        var queueTime := gameTime - spawn.queuedAt;
        q := q[..i] + q[i + 1..];
        c := WithSpawn(c, spawn.entityType);
        taken := taken + [spawn];
        remaining := remaining - 1;
        m := m.(totalSpawnRequests := m.totalSpawnRequests + 1, successfulSpawns := m.successfulSpawns + 1,
                averageQueueTime := m.averageQueueTime * 0.9 + queueTime * 0.1);
      } else {
        GreedySkipStep(q0, c0, caps, allowance, q, i, c, remaining, taken);
        i := i + 1;
      }
    }
    GreedyDone(q0, c0, caps, allowance, q, i, c, remaining, taken);
  }

  function Payload(p: PendingSpawn): (EntityType, SpawnData)
  {
    (p.entityType, p.spawnData)
  }

  function Payloads(ps: seq<PendingSpawn>): (r: seq<(EntityType, SpawnData)>)
    ensures |r| == |ps| && forall k :: 0 <= k < |ps| ==> r[k] == Payload(ps[k])
  {
    seq(|ps|, k requires 0 <= k < |ps| => Payload(ps[k]))
  }

  class SpawnBudgetPolicy {
    var counts: EntityCounts
    var caps: BiomeBudgetCaps
    var limits: FrameLimits
    var pendingSpawns: seq<PendingSpawn>
    var maxQueueLength: nat
    var currentFrameSpawns: nat
    var metrics: BudgetMetrics

    /** `SpawnBudgetPolicy::new`: zero counts, an empty queue of length 1000. */
    constructor (config: BiomeBudgetCaps, frameLimits: FrameLimits)
      ensures counts == ZeroCounts && caps == config && limits == frameLimits
      ensures pendingSpawns == [] && maxQueueLength == DefaultMaxQueueLength && currentFrameSpawns == 0
      ensures metrics == ZeroMetrics
    {
      counts := ZeroCounts;
      caps := config;
      limits := frameLimits;
      pendingSpawns := [];
      maxQueueLength := DefaultMaxQueueLength;
      currentFrameSpawns := 0;
      metrics := ZeroMetrics;
    }

    function CanSpawn(t: EntityType, biome: BiomeType): bool
      reads this
    {
      CanSpawnWith(counts, caps, t, biome)
    }

    /** `record_spawn`: one more of the type and in total, and one more request. */
    method RecordSpawn(t: EntityType)
      modifies this
      ensures counts == WithSpawn(old(counts), t)
      ensures metrics == old(metrics).(totalSpawnRequests := old(metrics).totalSpawnRequests + 1)
      ensures caps == old(caps) && limits == old(limits) && pendingSpawns == old(pendingSpawns)
      ensures maxQueueLength == old(maxQueueLength) && currentFrameSpawns == old(currentFrameSpawns)
    {
      counts := WithSpawn(counts, t);
      metrics := metrics.(totalSpawnRequests := metrics.totalSpawnRequests + 1);
    }

    /** `record_despawn`: saturating decrements of the type and the total. */
    method RecordDespawn(t: EntityType)
      modifies this`counts
      ensures counts == WithDespawn(old(counts), t)
    {
      counts := WithDespawn(counts, t);
    }

    method ResetFrameCounters()
      modifies this`currentFrameSpawns
      ensures currentFrameSpawns == 0
    {
      currentFrameSpawns := 0;
    }

    /** `request_spawn`: the frame limit is checked first; then an approved
        spawn is recorded at once, otherwise the request is queued. */
    method RequestSpawn(t: EntityType, biome: BiomeType, priority: SpawnPriority, data: SpawnData, gameTime: real)
      returns (r: SpawnResult)
      modifies this
      ensures caps == old(caps) && limits == old(limits) && maxQueueLength == old(maxQueueLength)
      ensures old(currentFrameSpawns) >= limits.maxSpawnsPerFrame ==>
                r == Rejected(FrameLimitExceeded) && counts == old(counts) && pendingSpawns == old(pendingSpawns)
                && currentFrameSpawns == old(currentFrameSpawns) && metrics == old(metrics)
      ensures old(currentFrameSpawns) < limits.maxSpawnsPerFrame && CanSpawnWith(old(counts), caps, t, biome) ==>
                r == Approved && counts == WithSpawn(old(counts), t) && pendingSpawns == old(pendingSpawns)
                && currentFrameSpawns == old(currentFrameSpawns) + 1
                && metrics == old(metrics).(totalSpawnRequests := old(metrics).totalSpawnRequests + 1,
                                            successfulSpawns := old(metrics).successfulSpawns + 1)
      ensures old(currentFrameSpawns) < limits.maxSpawnsPerFrame && !CanSpawnWith(old(counts), caps, t, biome) ==>
                counts == old(counts) && currentFrameSpawns == old(currentFrameSpawns)
                && QueueOutcome(r, old(pendingSpawns), old(metrics), old(maxQueueLength), PendingSpawn(t, biome, priority, data, gameTime))
    {
      if currentFrameSpawns >= limits.maxSpawnsPerFrame {
        return Rejected(FrameLimitExceeded);
      }
      if CanSpawn(t, biome) {
        RecordSpawn(t);
        currentFrameSpawns := currentFrameSpawns + 1;
        metrics := metrics.(successfulSpawns := metrics.successfulSpawns + 1);
        r := Approved;
      } else {
        r := QueueSpawn(t, biome, priority, data, gameTime);
      }
    }

    /** What `queue_spawn` leaves behind: overflow iff the queue is full;
        otherwise exactly the new entry is appended. */
    ghost predicate QueueOutcome(r: SpawnResult, q0: seq<PendingSpawn>, m0: BudgetMetrics, maxLen: nat, entry: PendingSpawn)
      reads this
    {
      if |q0| >= maxLen then
        r == Rejected(QueueOverflow) && pendingSpawns == q0 && metrics == m0.(rejectedSpawns := m0.rejectedSpawns + 1)
      else
        r == Queued && pendingSpawns == q0 + [entry] && metrics == m0.(queuedSpawns := m0.queuedSpawns + 1)
    }

    method QueueSpawn(t: EntityType, biome: BiomeType, priority: SpawnPriority, data: SpawnData, gameTime: real)
      returns (r: SpawnResult)
      modifies this`pendingSpawns, this`metrics
      ensures QueueOutcome(r, old(pendingSpawns), old(metrics), maxQueueLength, PendingSpawn(t, biome, priority, data, gameTime))
    {
      if |pendingSpawns| >= maxQueueLength {
        metrics := metrics.(rejectedSpawns := metrics.rejectedSpawns + 1);
        return Rejected(QueueOverflow);
      }
      pendingSpawns := pendingSpawns + [PendingSpawn(t, biome, priority, data, gameTime)];
      metrics := metrics.(queuedSpawns := metrics.queuedSpawns + 1);
      r := Queued;
    }

    /** `process_spawn_queue`: sort the queue by priority, then spawn queued
        entries that fit the budget, at most `max - current` of them, exactly
        as `GreedyDrain` of the sorted queue does; `ExactDrainIsDrained`
        gives what follows (the spawned entries leave the queue, the rest
        keep their order, and if the frame allowance is not used up no entry
        left can spawn). The caps, the frame limits and the queue's maximum
        length are outside its frame. */
    method ProcessSpawnQueue(gameTime: real) returns (spawned: seq<(EntityType, SpawnData)>, ghost taken: seq<PendingSpawn>)
      modifies this`pendingSpawns, this`counts, this`currentFrameSpawns, this`metrics
      ensures spawned == Payloads(taken)
      ensures multiset(SortByPriority(old(pendingSpawns))) == multiset(old(pendingSpawns))
      ensures DrainedExactly(SortByPriority(old(pendingSpawns)), old(counts), old(caps),
                      SatSub(old(limits).maxSpawnsPerFrame, old(currentFrameSpawns)), old(metrics),
                      pendingSpawns, counts, metrics, taken)
      ensures currentFrameSpawns == old(currentFrameSpawns) + |taken|
    {
      var allowance := SatSub(limits.maxSpawnsPerFrame, currentFrameSpawns);
      SortByPriorityCorrect(pendingSpawns);
      var q, c, m, t := DrainQueue(SortByPriority(pendingSpawns), counts, caps, allowance, metrics, gameTime);
      spawned, taken := Payloads(t), t;
      pendingSpawns, counts, currentFrameSpawns, metrics := q, c, currentFrameSpawns + |t|, m;
    }

    /** `get_budget_utilization`: the total as a percentage of the biome's
        total cap; `None` where the engine divides by a zero cap. */
    function BudgetUtilization(biome: BiomeType): (u: Option<real>)
      reads this
      ensures u.Some? <==> BudgetFor(caps, biome).totalCap > 0
      ensures u.Some? && counts.total <= BudgetFor(caps, biome).totalCap ==> 0.0 <= u.value <= 100.0
    {
      var cap := BudgetFor(caps, biome).totalCap;
      if cap == 0 then None else Some((counts.total as real) / (cap as real) * 100.0)
    }

    /** `get_queue_status`: length, maximum and fill percentage (`None` for
        a zero maximum). */
    function QueueStatus(): (st: (nat, nat, Option<real>))
      reads this
      ensures st.0 == |pendingSpawns| && st.1 == maxQueueLength
      ensures st.2.Some? <==> maxQueueLength > 0
      ensures st.2.Some? && |pendingSpawns| <= maxQueueLength ==> 0.0 <= st.2.value <= 100.0
    {
      (|pendingSpawns|, maxQueueLength,
       if maxQueueLength == 0 then None else Some((|pendingSpawns| as real) / (maxQueueLength as real) * 100.0))
    }
  }

  /** The unit test's figure: 60 of urban's total cap of 280 is about 21.43%. */
  lemma UrbanUtilizationExample()
    ensures 21.42 < (60 as real) / (280 as real) * 100.0 < 21.44
  {
  }
}

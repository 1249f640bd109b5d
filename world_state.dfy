/**
 * The world-state writer's delta filter: one write walks the non-skeletal
 * actor pool, the skeletal actor pool and the non-skeletal component pool in
 * that order. A stale entity is dropped from its pool; a live entity that
 * moved is emitted as an entity document and its stored pose becomes its
 * current pose; a live entity that did not move is left alone. A record
 * holding the timestamp and the emitted entities is inserted only when
 * something was emitted.
 */
module WorldState {
  import opened Wrappers

  datatype Vec = Vec(x: real, y: real, z: real)
  datatype Quat = Quat(x: real, y: real, z: real, w: real)
  datatype Pose = Pose(loc: Vec, rot: Quat)

  /** The pose of one bone of a skeletal actor, read for one entry of its bone-to-class map. */
  datatype BoneReading = BoneReading(bone: string, cls: string, pose: Pose)

  /**
   * A live entity at write time: its current pose and, for a skeletal actor,
   * the bone readings for its bone-to-class map, absent when the actor has no
   * map asset or no skeletal mesh component.
   */
  datatype Entity = Entity(pose: Pose, bones: Option<seq<BoneReading>>)

  /** One pool entry: the item's id and class, the entity (absent once stale) and the pose stored at the last emission. */
  datatype ItemState = ItemState(id: string, cls: string, entity: Option<Entity>, prevLoc: Vec, prevQuat: Quat)

  datatype PoolKind = NonSkeletalActors | SkeletalActors | NonSkeletalComponents

  /** A bson value as the writer builds it: documents keep their fields in insertion order. */
  datatype Bson =
    | BString(s: string)
    | BDouble(d: real)
    | BDocument(fields: seq<(string, Bson)>)
    | BArray(items: seq<Bson>)

  /**
   * The writer's settings: the squared distance step, the rotation step (which
   * the filter never reads), the quaternions' angular distance and the
   * conversion to the right-handed ROS frame, the last two given as functions.
   */
  datatype WriterConfig = WriterConfig(
    distanceStepSizeSquared: real,
    rotationStepSize: real,
    angularDistance: (Quat, Quat) -> real,
    toRos: Pose -> Pose)

  function DistSquared(a: Vec, b: Vec): real {
    (a.x - b.x) * (a.x - b.x) + (a.y - b.y) * (a.y - b.y) + (a.z - b.z) * (a.z - b.z)
  }

  /** The moved test as written: beyond the distance step, or any nonzero angular distance. */
  predicate Moved(cfg: WriterConfig, s: ItemState)
    requires s.entity.Some?
  {
    DistSquared(s.entity.value.pose.loc, s.prevLoc) > cfg.distanceStepSizeSquared
    || cfg.angularDistance(s.entity.value.pose.rot, s.prevQuat) != 0.0
  }

  /** The "loc" and "rot" fields a pose adds to a document. */
  function PoseFields(p: Pose): seq<(string, Bson)> {
    [("loc", BDocument([("x", BDouble(p.loc.x)), ("y", BDouble(p.loc.y)), ("z", BDouble(p.loc.z))])),
     ("rot", BDocument([("x", BDouble(p.rot.x)), ("y", BDouble(p.rot.y)), ("z", BDouble(p.rot.z)), ("w", BDouble(p.rot.w))]))]
  }

  function BoneDocs(cfg: WriterConfig, bones: Option<seq<BoneReading>>): seq<Bson> {
    match bones
    case None => []
    case Some(bs) =>
      seq(|bs|, i requires 0 <= i < |bs| =>
        BDocument([("bone", BString(bs[i].bone)), ("class", BString(bs[i].cls))] + PoseFields(cfg.toRos(bs[i].pose))))
  }

  /** The document of an emitted entity: id, class, pose in the ROS frame, and for a skeletal actor its bones. */
  function EntityDoc(cfg: WriterConfig, kind: PoolKind, s: ItemState): Bson
    requires s.entity.Some?
  {
    var e := s.entity.value;
    BDocument([("id", BString(s.id)), ("class", BString(s.cls))] + PoseFields(cfg.toRos(e.pose))
              + (if kind == SkeletalActors then [("bones", BArray(BoneDocs(cfg, e.bones)))] else []))
  }

  function Keys(fields: seq<(string, Bson)>): (r: seq<string>)
    ensures |r| == |fields| && forall i :: 0 <= i < |fields| ==> r[i] == fields[i].0
  {
    seq(|fields|, i requires 0 <= i < |fields| => fields[i].0)
  }

  /**
   * An entity document has the fields id, class, loc (x, y, z) and rot
   * (x, y, z, w), then, for a skeletal actor only, a bones array with one
   * entry per bone reading, empty without a map asset or mesh.
   */
  lemma EntityDocLayout(cfg: WriterConfig, kind: PoolKind, s: ItemState)
    requires s.entity.Some?
    ensures var d := EntityDoc(cfg, kind, s);
      var p := cfg.toRos(s.entity.value.pose);
      && d.BDocument?
      && Keys(d.fields) == ["id", "class", "loc", "rot"] + (if kind == SkeletalActors then ["bones"] else [])
      && d.fields[0].1 == BString(s.id) && d.fields[1].1 == BString(s.cls)
      && d.fields[2].1 == BDocument([("x", BDouble(p.loc.x)), ("y", BDouble(p.loc.y)), ("z", BDouble(p.loc.z))])
      && d.fields[3].1 == BDocument([("x", BDouble(p.rot.x)), ("y", BDouble(p.rot.y)), ("z", BDouble(p.rot.z)), ("w", BDouble(p.rot.w))])
      && (kind == SkeletalActors ==>
            d.fields[4].1.BArray?
            && |d.fields[4].1.items| == (if s.entity.value.bones.Some? then |s.entity.value.bones.value| else 0))
  {
  }

  /** One entry's effect: dropped when stale, emitted with its stored pose refreshed when moved, kept as is otherwise. */
  function ItemStep(cfg: WriterConfig, kind: PoolKind, s: ItemState): (seq<ItemState>, seq<Bson>) {
    if s.entity.None? then ([], [])
    else if Moved(cfg, s) then
      ([s.(prevLoc := s.entity.value.pose.loc, prevQuat := s.entity.value.pose.rot)], [EntityDoc(cfg, kind, s)])
    else ([s], [])
  }

  /** The pool after one pass and the documents the pass emitted, in pool order. */
  function FilterPool(cfg: WriterConfig, kind: PoolKind, pool: seq<ItemState>): (seq<ItemState>, seq<Bson>)
    decreases |pool|
  {
    if pool == [] then ([], [])
    else
      var before := FilterPool(cfg, kind, pool[..|pool| - 1]);
      var last := ItemStep(cfg, kind, pool[|pool| - 1]);
      (before.0 + last.0, before.1 + last.1)
  }

  /** The live entries of a pool, in order. */
  function LiveItems(pool: seq<ItemState>): (r: seq<ItemState>)
    ensures forall j :: 0 <= j < |r| ==> r[j].entity.Some? && r[j] in pool
    decreases |pool|
  {
    if pool == [] then []
    else LiveItems(pool[..|pool| - 1]) + (if pool[|pool| - 1].entity.Some? then [pool[|pool| - 1]] else [])
  }

  /** The live entries that moved, in order. */
  function MovedItems(cfg: WriterConfig, pool: seq<ItemState>): (r: seq<ItemState>)
    ensures forall j :: 0 <= j < |r| ==> r[j].entity.Some? && Moved(cfg, r[j]) && r[j] in pool
    decreases |pool|
  {
    if pool == [] then []
    else
      var s := pool[|pool| - 1];
      MovedItems(cfg, pool[..|pool| - 1]) + (if s.entity.Some? && Moved(cfg, s) then [s] else [])
  }

  /** A live entry after the pass: its stored pose is the current one if it moved and unchanged otherwise. */
  function Refreshed(cfg: WriterConfig, s: ItemState): (r: ItemState)
    requires s.entity.Some?
    ensures r.id == s.id && r.cls == s.cls && r.entity == s.entity
    ensures Moved(cfg, s) ==> r.prevLoc == s.entity.value.pose.loc && r.prevQuat == s.entity.value.pose.rot
    ensures !Moved(cfg, s) ==> r == s
  {
    if Moved(cfg, s) then s.(prevLoc := s.entity.value.pose.loc, prevQuat := s.entity.value.pose.rot) else s
  }

  /**
   * The pool keeps exactly its live entries, in order, each refreshed: stale
   * entries are removed and live ones never are.
   */
  lemma {:induction false} FilterPoolKeepsLive(cfg: WriterConfig, kind: PoolKind, pool: seq<ItemState>)
    ensures var kept := FilterPool(cfg, kind, pool).0;
      && |kept| == |LiveItems(pool)|
      && forall j :: 0 <= j < |kept| ==> kept[j] == Refreshed(cfg, LiveItems(pool)[j])
    decreases |pool|
  {
    if pool != [] {
      FilterPoolKeepsLive(cfg, kind, pool[..|pool| - 1]);
    }
  }

  /** The pass emits exactly the live entries that moved, in order, each as its entity document. */
  lemma {:induction false} FilterPoolEmitsMoved(cfg: WriterConfig, kind: PoolKind, pool: seq<ItemState>)
    ensures var emitted := FilterPool(cfg, kind, pool).1;
      && |emitted| == |MovedItems(cfg, pool)|
      && forall j :: 0 <= j < |emitted| ==> emitted[j] == EntityDoc(cfg, kind, MovedItems(cfg, pool)[j])
    decreases |pool|
  {
    if pool != [] {
      FilterPoolEmitsMoved(cfg, kind, pool[..|pool| - 1]);
    }
  }

  /** The rotation step is never consulted: changing it changes nothing in the pass. */
  lemma {:induction false} RotationStepUnused(cfg: WriterConfig, rotationStepSize: real, kind: PoolKind, pool: seq<ItemState>)
    ensures FilterPool(cfg.(rotationStepSize := rotationStepSize), kind, pool) == FilterPool(cfg, kind, pool)
    decreases |pool|
  {
    if pool != [] {
      RotationStepUnused(cfg, rotationStepSize, kind, pool[..|pool| - 1]);
    }
  }

  /**
   * A live entity whose rotation changed by any nonzero angular distance is
   * emitted, however small the change and whether or not it moved at all.
   */
  lemma RotationChangeEmits(cfg: WriterConfig, kind: PoolKind, s: ItemState)
    requires s.entity.Some? && cfg.angularDistance(s.entity.value.pose.rot, s.prevQuat) != 0.0
    ensures FilterPool(cfg, kind, [s]).1 == [EntityDoc(cfg, kind, s)]
  {
    assert [s][..0] == [];
  }

  /** A second pass over the same live, unmoved state emits nothing when the angular distance of a rotation to itself is zero. */
  lemma {:induction false} SecondPassQuiet(cfg: WriterConfig, kind: PoolKind, pool: seq<ItemState>)
    requires forall q :: cfg.angularDistance(q, q) == 0.0
    requires cfg.distanceStepSizeSquared >= 0.0
    ensures FilterPool(cfg, kind, FilterPool(cfg, kind, pool).0).1 == []
    decreases |pool|
  {
    FilterPoolKeepsLive(cfg, kind, pool);
    var kept := FilterPool(cfg, kind, pool).0;
    forall j | 0 <= j < |kept|
      ensures kept[j].entity.Some? && !Moved(cfg, kept[j])
    {
      var s := LiveItems(pool)[j];
      if Moved(cfg, s) {
        assert DistSquared(kept[j].entity.value.pose.loc, kept[j].prevLoc) == 0.0;
      } else {
        assert !Moved(cfg, kept[j]);
      }
    }
    NothingMovedEmitsNothing(cfg, kind, kept);
  }

  lemma {:induction false} NothingMovedEmitsNothing(cfg: WriterConfig, kind: PoolKind, pool: seq<ItemState>)
    requires forall j :: 0 <= j < |pool| ==> pool[j].entity.Some? && !Moved(cfg, pool[j])
    ensures FilterPool(cfg, kind, pool).1 == []
    decreases |pool|
  {
    if pool != [] {
      NothingMovedEmitsNothing(cfg, kind, pool[..|pool| - 1]);
    }
  }

  /** The record one write inserts: the timestamp, then the entities array. */
  function WorldStateRecord(timestamp: real, entities: seq<Bson>): Bson {
    BDocument([("timestamp", BDouble(timestamp)), ("entities", BArray(entities))])
  }

  /** The writer's three pools and the records inserted into its collection. */
  class WorldStateWriter {
    const config: WriterConfig
    var nonSkeletalActorPool: seq<ItemState>
    var skeletalActorPool: seq<ItemState>
    var nonSkeletalComponentPool: seq<ItemState>
    var records: seq<Bson>

    constructor (config: WriterConfig, nonSkeletalActors: seq<ItemState>, skeletalActors: seq<ItemState>, components: seq<ItemState>)
      ensures this.config == config && records == []
      ensures nonSkeletalActorPool == nonSkeletalActors && skeletalActorPool == skeletalActors
      ensures nonSkeletalComponentPool == components
    {
      this.config := config;
      nonSkeletalActorPool, skeletalActorPool, nonSkeletalComponentPool := nonSkeletalActors, skeletalActors, components;
      records := [];
    }

    /** One pass over a pool, entry by entry, as the iterator loops do. */
    static method FilterLoop(cfg: WriterConfig, kind: PoolKind, pool: seq<ItemState>) returns (kept: seq<ItemState>, emitted: seq<Bson>)
      ensures (kept, emitted) == FilterPool(cfg, kind, pool)
    {
      kept, emitted := [], [];
      var i := 0;
      while i < |pool|
        invariant 0 <= i <= |pool|
        invariant (kept, emitted) == FilterPool(cfg, kind, pool[..i])
      {
        var s := pool[i];
        assert pool[..i + 1][..i] == pool[..i] && pool[..i + 1][i] == s;
        ghost var step := ItemStep(cfg, kind, s);
        ghost var k0, e0 := kept, emitted;
        assert FilterPool(cfg, kind, pool[..i + 1]) == (kept + step.0, emitted + step.1);
        if s.entity.Some? {
          var e := s.entity.value;
          if DistSquared(e.pose.loc, s.prevLoc) > cfg.distanceStepSizeSquared || cfg.angularDistance(e.pose.rot, s.prevQuat) != 0.0 {
            kept := kept + [s.(prevLoc := e.pose.loc, prevQuat := e.pose.rot)];
            emitted := emitted + [EntityDoc(cfg, kind, s)];
            assert Moved(cfg, s);
            assert kept == k0 + step.0;
            assert emitted == e0 + step.1;
          } else {
            kept := kept + [s];
            assert kept == k0 + step.0;
            assert emitted == e0 + step.1;
          }
        } else {
          assert step == ([], []);
          assert kept + step.0 == kept && emitted + step.1 == emitted;
        }
        i := i + 1;
      }
      assert pool[..i] == pool;
    }

    method AddNonSkeletalActors(out: seq<Bson>) returns (out': seq<Bson>)
      modifies this`nonSkeletalActorPool
      ensures nonSkeletalActorPool == FilterPool(config, NonSkeletalActors, old(nonSkeletalActorPool)).0
      ensures out' == out + FilterPool(config, NonSkeletalActors, old(nonSkeletalActorPool)).1
    {
      var kept, emitted := FilterLoop(config, NonSkeletalActors, nonSkeletalActorPool);
      nonSkeletalActorPool := kept;
      out' := out + emitted;
    }

    method AddSkeletalActors(out: seq<Bson>) returns (out': seq<Bson>)
      modifies this`skeletalActorPool
      ensures skeletalActorPool == FilterPool(config, SkeletalActors, old(skeletalActorPool)).0
      ensures out' == out + FilterPool(config, SkeletalActors, old(skeletalActorPool)).1
    {
      var kept, emitted := FilterLoop(config, SkeletalActors, skeletalActorPool);
      skeletalActorPool := kept;
      out' := out + emitted;
    }

    method AddNonSkeletalComponents(out: seq<Bson>) returns (out': seq<Bson>)
      modifies this`nonSkeletalComponentPool
      ensures nonSkeletalComponentPool == FilterPool(config, NonSkeletalComponents, old(nonSkeletalComponentPool)).0
      ensures out' == out + FilterPool(config, NonSkeletalComponents, old(nonSkeletalComponentPool)).1
    {
      var kept, emitted := FilterLoop(config, NonSkeletalComponents, nonSkeletalComponentPool);
      nonSkeletalComponentPool := kept;
      out' := out + emitted;
    }

    /** Filters the three pools in order: actors, then skeletal actors, then components. */
    method CollectEntities() returns (entities: seq<Bson>)
      modifies this`nonSkeletalActorPool, this`skeletalActorPool, this`nonSkeletalComponentPool
      ensures nonSkeletalActorPool == FilterPool(config, NonSkeletalActors, old(nonSkeletalActorPool)).0
      ensures skeletalActorPool == FilterPool(config, SkeletalActors, old(skeletalActorPool)).0
      ensures nonSkeletalComponentPool == FilterPool(config, NonSkeletalComponents, old(nonSkeletalComponentPool)).0
      ensures entities == FilterPool(config, NonSkeletalActors, old(nonSkeletalActorPool)).1
                        + FilterPool(config, SkeletalActors, old(skeletalActorPool)).1
                        + FilterPool(config, NonSkeletalComponents, old(nonSkeletalComponentPool)).1
    {
      entities := AddNonSkeletalActors([]);
      entities := AddSkeletalActors(entities);
      entities := AddNonSkeletalComponents(entities);
    }

    /**
     * Filters the three pools and inserts one record of everything emitted,
     * unless nothing was emitted.
     */
    method Write(timestamp: real)
      modifies this`nonSkeletalActorPool, this`skeletalActorPool, this`nonSkeletalComponentPool, this`records
      ensures nonSkeletalActorPool == FilterPool(config, NonSkeletalActors, old(nonSkeletalActorPool)).0
      ensures skeletalActorPool == FilterPool(config, SkeletalActors, old(skeletalActorPool)).0
      ensures nonSkeletalComponentPool == FilterPool(config, NonSkeletalComponents, old(nonSkeletalComponentPool)).0
      ensures var entities := FilterPool(config, NonSkeletalActors, old(nonSkeletalActorPool)).1
                            + FilterPool(config, SkeletalActors, old(skeletalActorPool)).1
                            + FilterPool(config, NonSkeletalComponents, old(nonSkeletalComponentPool)).1;
        records == old(records) + (if entities == [] then [] else [WorldStateRecord(timestamp, entities)])
    {
      var entities := CollectEntities();
      if entities != [] {
        records := records + [WorldStateRecord(timestamp, entities)];
      }
    }
  }
}

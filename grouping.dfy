/**
 * Grouping of the dashboard's entities by the device that owns them: the
 * `forEach` that fills an insertion-ordered `Set` of device ids and a `Map`
 * from device id to that device's entities.
 */
module DeviceGrouping {
  import opened Common

  /** One entity of the search response, after camel-casing. */
  datatype Entity = Entity(
    entityId: ApiKey, entityKey: string, entityName: string,
    deviceId: Option<ApiKey>, unit: Option<string>)

  /** The entity names a device (its `deviceId` is truthy). */
  predicate Linked(e: Entity) {
    TruthyOpt(e.deviceId)
  }

  /** No element occurs twice. */
  predicate Distinct<T(==)>(s: seq<T>) {
    forall i, j :: 0 <= i < j < |s| ==> s[i] != s[j]
  }

  /**
   * `Array.from(deviceIdSet)` once the loop has seen `es`: a device id is
   * added the first time a linked entity names it.
   */
  function DeviceIdsOf(es: seq<Entity>): (ids: seq<ApiKey>)
    ensures forall k :: 0 <= k < |ids| ==> Truthy(ids[k])
  {
    if es == [] then []
    else
      var ids := DeviceIdsOf(es[..|es| - 1]);
      var e := es[|es| - 1];
      if Linked(e) && e.deviceId.value !in ids then ids + [e.deviceId.value] else ids
  }

  /** `entityMap.get(d)` once the loop has seen `es`: the entities naming `d`, in input order. */
  function DeviceEntities(es: seq<Entity>, d: ApiKey): seq<Entity> {
    if es == [] then []
    else
      var e := es[|es| - 1];
      DeviceEntities(es[..|es| - 1], d) + (if e.deviceId == Some(d) then [e] else [])
  }

  /** One more entity: how the set grows. */
  lemma DeviceIdsSnoc(pre: seq<Entity>, e: Entity)
    ensures DeviceIdsOf(pre + [e]) ==
      if Linked(e) && e.deviceId.value !in DeviceIdsOf(pre) then DeviceIdsOf(pre) + [e.deviceId.value]
      else DeviceIdsOf(pre)
  {
    assert (pre + [e])[..|pre|] == pre;
  }

  /** One more entity: how the groups grow. */
  lemma DeviceEntitiesSnoc(pre: seq<Entity>, e: Entity)
    ensures forall d ::
      DeviceEntities(pre + [e], d) == DeviceEntities(pre, d) + (if e.deviceId == Some(d) then [e] else [])
  {
    assert (pre + [e])[..|pre|] == pre;
  }

  /** The set never holds a device id twice. */
  lemma {:induction false} DeviceIdsDistinct(es: seq<Entity>)
    ensures Distinct(DeviceIdsOf(es))
  {
    if es != [] {
      var pre, e := es[..|es| - 1], es[|es| - 1];
      assert es == pre + [e];
      DeviceIdsDistinct(pre);
      DeviceIdsSnoc(pre, e);
    }
  }

  /** The device of every entity with a truthy device id is in the set. */
  lemma {:induction false} DeviceIdsComplete(es: seq<Entity>, j: nat)
    requires j < |es| && Linked(es[j])
    ensures es[j].deviceId.value in DeviceIdsOf(es)
  {
    var pre, e := es[..|es| - 1], es[|es| - 1];
    assert es == pre + [e];
    DeviceIdsSnoc(pre, e);
    if j < |pre| {
      assert es[j] == pre[j];
      DeviceIdsComplete(pre, j);
    }
  }

  /** A device's group holds exactly the entities naming that device. */
  lemma {:induction false} DeviceEntitiesMembers(es: seq<Entity>, d: ApiKey)
    ensures forall e :: e in DeviceEntities(es, d) <==> e in es && e.deviceId == Some(d)
  {
    if es != [] {
      var pre, e := es[..|es| - 1], es[|es| - 1];
      assert es == pre + [e];
      DeviceEntitiesMembers(pre, d);
    }
  }

  /** One more entity: the map gains it in its own device's list, starting that list if needed. */
  lemma MapStep(pre: seq<Entity>, e: Entity, m: map<ApiKey, seq<Entity>>, m': map<ApiKey, seq<Entity>>)
    requires forall d :: d in m <==> d in DeviceIdsOf(pre)
    requires forall d :: d in m ==> m[d] == DeviceEntities(pre, d)
    requires Linked(e) ==>
      m' == m[e.deviceId.value := (if e.deviceId.value in m then m[e.deviceId.value] else []) + [e]]
    requires !Linked(e) ==> m' == m
    ensures forall d :: d in m' <==> d in DeviceIdsOf(pre + [e])
    ensures forall d :: d in m' ==> m'[d] == DeviceEntities(pre + [e], d)
  {
    DeviceIdsSnoc(pre, e);
    DeviceEntitiesSnoc(pre, e);
    if Linked(e) {
      var did := e.deviceId.value;
      if did !in m {
        NoGroupYet(pre, did);
      }
      forall d | d in m' ensures m'[d] == DeviceEntities(pre + [e], d) {
        if d != did {
          assert m'[d] == m[d];
        }
      }
    }
  }

  /**
   * The loop at the heart of the grouping. The `Set` is an insertion-ordered
   * sequence without repetitions; the `Map` holds a key exactly for the ids
   * in it.
   */
  method GroupByDevice(es: seq<Entity>) returns (deviceIds: seq<ApiKey>, entityMap: map<ApiKey, seq<Entity>>)
    ensures deviceIds == DeviceIdsOf(es)
    ensures forall d :: d in entityMap <==> d in deviceIds
    ensures forall d :: d in entityMap ==> entityMap[d] == DeviceEntities(es, d)
  {
    deviceIds, entityMap := [], map[];
    for i := 0 to |es|
      invariant deviceIds == DeviceIdsOf(es[..i])
      invariant forall d :: d in entityMap <==> d in deviceIds
      invariant forall d :: d in entityMap ==> entityMap[d] == DeviceEntities(es[..i], d)
    {
      var entity := es[i];
      assert es[..i + 1] == es[..i] + [entity];
      DeviceIdsSnoc(es[..i], entity);
      ghost var before := entityMap;
      var did := entity.deviceId;
      if TruthyOpt(did) {
        var d := did.value;
        if d !in deviceIds {
          deviceIds := deviceIds + [d];
        }
        if d !in entityMap {
          entityMap := entityMap[d := []];
        }
        entityMap := entityMap[d := entityMap[d] + [entity]];
      }
      MapStep(es[..i], entity, before, entityMap);
    }
    assert es[..|es|] == es;
  }

  /** A device not (yet) in the set has no entities (yet). */
  lemma {:induction false} NoGroupYet(es: seq<Entity>, d: ApiKey)
    requires Truthy(d) && d !in DeviceIdsOf(es)
    ensures DeviceEntities(es, d) == []
  {
    if es != [] {
      var pre, e := es[..|es| - 1], es[|es| - 1];
      assert es == pre + [e];
      DeviceIdsSnoc(pre, e);
      NoGroupYet(pre, d);
    }
  }

  /** Index of the first entity naming `d`, or `|es|` when there is none. */
  function FirstIndexOf(es: seq<Entity>, d: ApiKey): (i: nat)
    ensures i <= |es|
    ensures i < |es| ==> es[i].deviceId == Some(d)
    ensures forall j :: 0 <= j < i ==> es[j].deviceId != Some(d)
  {
    if es == [] then 0
    else if es[0].deviceId == Some(d) then 0
    else 1 + FirstIndexOf(es[1..], d)
  }

  lemma FirstIndexOfSnoc(es: seq<Entity>, e: Entity, d: ApiKey)
    ensures FirstIndexOf(es + [e], d) ==
      if FirstIndexOf(es, d) < |es| then FirstIndexOf(es, d)
      else if e.deviceId == Some(d) then |es| else |es| + 1
  {
    var i, i' := FirstIndexOf(es, d), FirstIndexOf(es + [e], d);
    assert forall j :: 0 <= j < |es| ==> (es + [e])[j] == es[j];
    if i < |es| {
      assert (es + [e])[i] == es[i];
    } else if e.deviceId == Some(d) {
      assert (es + [e])[|es|] == e;
    }
  }

  /** A device new to the set is first named by the entity just added. */
  lemma NewDeviceFirstAt(pre: seq<Entity>, e: Entity)
    requires Linked(e) && e.deviceId.value !in DeviceIdsOf(pre)
    ensures FirstIndexOf(pre + [e], e.deviceId.value) == |pre|
  {
    var d := e.deviceId.value;
    FirstIndexOfSnoc(pre, e, d);
    var i := FirstIndexOf(pre, d);
    if i < |pre| {
      DeviceIdsComplete(pre, i);
    }
  }

  /** Every id of the set is named by some entity of the input. */
  lemma {:induction false} DeviceIdsAppear(es: seq<Entity>)
    ensures forall k :: 0 <= k < |DeviceIdsOf(es)| ==> FirstIndexOf(es, DeviceIdsOf(es)[k]) < |es|
  {
    if es != [] {
      var pre, e := es[..|es| - 1], es[|es| - 1];
      assert es == pre + [e];
      DeviceIdsAppear(pre);
      DeviceIdsSnoc(pre, e);
      var ids := DeviceIdsOf(pre);
      forall k | 0 <= k < |DeviceIdsOf(es)| ensures FirstIndexOf(es, DeviceIdsOf(es)[k]) < |es| {
        FirstIndexOfSnoc(pre, e, DeviceIdsOf(es)[k]);
        if k < |ids| {
          assert DeviceIdsOf(es)[k] == ids[k];
        }
      }
    }
  }

  /**
   * The device ids come in the order in which the devices first appear among
   * the entities.
   */
  lemma {:induction false} DeviceIdsInFirstOccurrenceOrder(es: seq<Entity>)
    ensures forall k :: 0 < k < |DeviceIdsOf(es)| ==>
              FirstIndexOf(es, DeviceIdsOf(es)[k - 1]) < FirstIndexOf(es, DeviceIdsOf(es)[k])
  {
    if es != [] {
      var pre, e := es[..|es| - 1], es[|es| - 1];
      assert es == pre + [e];
      DeviceIdsInFirstOccurrenceOrder(pre);
      DeviceIdsAppear(pre);
      DeviceIdsSnoc(pre, e);
      var ids, ids' := DeviceIdsOf(pre), DeviceIdsOf(es);
      forall k | 0 < k < |ids'|
        ensures FirstIndexOf(es, ids'[k - 1]) < FirstIndexOf(es, ids'[k])
      {
        FirstIndexOfSnoc(pre, e, ids'[k - 1]);
        FirstIndexOfSnoc(pre, e, ids'[k]);
        assert ids'[k - 1] == ids[k - 1];
        if k < |ids| {
          assert ids'[k] == ids[k];
        } else {
          NewDeviceFirstAt(pre, e);
        }
      }
    }
  }

  /** Every device id of the set has at least one entity in its group. */
  lemma {:induction false} GroupsNonEmpty(es: seq<Entity>, d: ApiKey)
    requires d in DeviceIdsOf(es)
    ensures DeviceEntities(es, d) != []
  {
    DeviceIdsAppear(es);
    var ids := DeviceIdsOf(es);
    var k :| 0 <= k < |ids| && ids[k] == d;
    var i := FirstIndexOf(es, d);
    DeviceEntitiesMembers(es, d);
    assert es[i] in es;
  }

  /** Splitting the input splits every group the same way: groups keep the input order. */
  lemma {:induction false} DeviceEntitiesAppend(a: seq<Entity>, b: seq<Entity>, d: ApiKey)
    ensures DeviceEntities(a + b, d) == DeviceEntities(a, d) + DeviceEntities(b, d)
    decreases |b|
  {
    if b != [] {
      var b', e := b[..|b| - 1], b[|b| - 1];
      assert (a + b)[..|a + b| - 1] == a + b';
      DeviceEntitiesAppend(a, b', d);
    } else {
      assert a + b == a;
    }
  }

  /** The entities that name a device, in input order. */
  function LinkedEntities(es: seq<Entity>): seq<Entity> {
    if es == [] then []
    else LinkedEntities(es[..|es| - 1]) + (if Linked(es[|es| - 1]) then [es[|es| - 1]] else [])
  }

  /** The groups of `ids`, one after the other. */
  function Concat(es: seq<Entity>, ids: seq<ApiKey>): seq<Entity> {
    if ids == [] then [] else Concat(es, ids[..|ids| - 1]) + DeviceEntities(es, ids[|ids| - 1])
  }

  lemma {:induction false} ConcatOther(es: seq<Entity>, e: Entity, ids: seq<ApiKey>)
    requires forall k :: 0 <= k < |ids| ==> e.deviceId != Some(ids[k])
    ensures Concat(es + [e], ids) == Concat(es, ids)
  {
    if ids != [] {
      var ids' := ids[..|ids| - 1];
      ConcatOther(es, e, ids');
      assert (es + [e])[..|es + [e]| - 1] == es;
    }
  }

  lemma {:induction false} ConcatOwn(es: seq<Entity>, e: Entity, ids: seq<ApiKey>)
    requires Distinct(ids)
    requires e.deviceId.Some? && e.deviceId.value in ids
    ensures multiset(Concat(es + [e], ids)) == multiset(Concat(es, ids)) + multiset{e}
  {
    var ids', d := ids[..|ids| - 1], ids[|ids| - 1];
    assert (es + [e])[..|es + [e]| - 1] == es;
    if e.deviceId == Some(d) {
      assert forall k :: 0 <= k < |ids'| ==> e.deviceId != Some(ids'[k]) by {
        forall k | 0 <= k < |ids'| ensures e.deviceId != Some(ids'[k]) {
          assert ids'[k] == ids[k];
        }
      }
      ConcatOther(es, e, ids');
    } else {
      assert e.deviceId.value in ids' by {
        var k :| 0 <= k < |ids| && ids[k] == e.deviceId.value;
        assert k < |ids'|;
        assert ids'[k] == ids[k];
      }
      ConcatOwn(es, e, ids');
    }
  }

  lemma LinkedEntitiesSnoc(pre: seq<Entity>, e: Entity)
    ensures LinkedEntities(pre + [e]) == LinkedEntities(pre) + (if Linked(e) then [e] else [])
  {
    assert (pre + [e])[..|pre + [e]| - 1] == pre;
  }

  /** Adding an entity whose device is new to the set opens a group holding just that entity. */
  lemma ConcatNewDevice(pre: seq<Entity>, e: Entity)
    requires Linked(e) && e.deviceId.value !in DeviceIdsOf(pre)
    ensures Concat(pre + [e], DeviceIdsOf(pre + [e])) == Concat(pre, DeviceIdsOf(pre)) + [e]
  {
    var ids, d := DeviceIdsOf(pre), e.deviceId.value;
    var es := pre + [e];
    assert es[..|es| - 1] == pre;
    assert DeviceIdsOf(es) == ids + [d];
    assert forall k :: 0 <= k < |ids| ==> e.deviceId != Some(ids[k]);
    ConcatOther(pre, e, ids);
    NoGroupYet(pre, d);
    assert DeviceEntities(es, d) == [e];
    assert (ids + [d])[..|ids + [d]| - 1] == ids;
  }

  /**
   * The grouping is a partition of the linked entities: putting the groups
   * one after the other gives back every linked entity exactly as often as
   * it occurs in the input, and no unlinked one.
   */
  lemma {:induction false} GroupingIsPartition(es: seq<Entity>)
    ensures multiset(Concat(es, DeviceIdsOf(es))) == multiset(LinkedEntities(es))
  {
    if es != [] {
      var pre, e := es[..|es| - 1], es[|es| - 1];
      assert es == pre + [e];
      GroupingIsPartition(pre);
      LinkedEntitiesSnoc(pre, e);
      var ids := DeviceIdsOf(pre);
      DeviceIdsSnoc(pre, e);
      if !Linked(e) {
        assert DeviceIdsOf(es) == ids;
        assert forall k :: 0 <= k < |ids| ==> e.deviceId != Some(ids[k]);
        ConcatOther(pre, e, ids);
      } else if e.deviceId.value in ids {
        assert DeviceIdsOf(es) == ids;
        DeviceIdsDistinct(pre);
        ConcatOwn(pre, e, ids);
      } else {
        ConcatNewDevice(pre, e);
      }
    }
  }
}

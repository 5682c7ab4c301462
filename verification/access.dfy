/**
 port_subscription.rs and entity_access.rs: the browse query, the access check
 it must agree with, and the loop that groups the query's rows by owner.

 Tables are sets of rows.  A comparison with NULL is not true, so it is a
 comparison with an absent option here.
 */
module Access {
  import opened Options

  type Id = nat

  datatype EntityRow = EntityRow(id: Id, user: Id, deleted: bool)

  datatype ConfigRow = ConfigRow(id: Id, entity: Id, enabled: bool, sortOrder: int, createdAt: int)

  datatype AccessRow = AccessRow(id: Id, owner: Id, config: Option<Id>, subjectType: string, subjectUser: Option<Id>,
    subjectEntity: Option<Id>)

  datatype SubscriptionRow = SubscriptionRow(id: Id, config: Id, subscriber: Id, localPort: int, enabled: bool)

  datatype Db = Db(entities: set<EntityRow>, configs: set<ConfigRow>, access: set<AccessRow>,
    subscriptions: set<SubscriptionRow>)

  /** Primary keys, and one subscription for each config and subscriber. */
  ghost predicate Keyed(db: Db) {
    && (forall a, b :: a in db.entities && b in db.entities && a.id == b.id ==> a == b)
    && (forall a, b :: a in db.configs && b in db.configs && a.id == b.id ==> a == b)
    && (forall a, b ::
      a in db.subscriptions && b in db.subscriptions && a.config == b.config && a.subscriber == b.subscriber ==> a == b)
  }

  // ------------------------------------------------------------- the check

  /** `EntityAccess::check_access`. */
  predicate CheckAccess(db: Db, target: Id, config: Option<Id>, client: Id, clientUser: Id, targetUser: Id) {
    clientUser == targetUser ||
    exists ea :: ea in db.access
      && ea.owner == target
      && (ea.config == None || (config.Some? && ea.config == config))
      && (|| ea.subjectType == "public_lite"
          || (ea.subjectType == "all_mine" && clientUser == targetUser)
          || (ea.subjectType == "all_user_entities" && ea.subjectUser == Some(clientUser))
          || (ea.subjectType == "entity" && ea.subjectEntity == Some(client)))
  }

  // ------------------------------------------------------------- the query

  /** The subject test the query repeats for whole-entity and for port-scoped grants. */
  predicate Admits(ea: AccessRow, e: EntityRow, subscriber: Id, user: Id) {
    || e.user == user
    || ea.subjectType == "public_lite"
    || (ea.subjectType == "all_user_entities" && ea.subjectUser == Some(user))
    || (ea.subjectType == "entity" && ea.subjectEntity == Some(subscriber))
  }

  function VisibleOwners(db: Db, subscriber: Id, user: Id): set<Id> {
    (set e, ea | e in db.entities && ea in db.access && ea.owner == e.id && ea.config == None && !e.deleted
      && Admits(ea, e, subscriber, user) :: e.id)
    + (set e | e in db.entities && !e.deleted && e.user == user && e.id != subscriber :: e.id)
  }

  function VisibleServices(db: Db, subscriber: Id, user: Id): set<Id> {
    (set pc | pc in db.configs && pc.entity in VisibleOwners(db, subscriber, user) && pc.enabled :: pc.id)
    + (set pc, ea, e | pc in db.configs && ea in db.access && e in db.entities
         && ea.owner == pc.entity && ea.config == Some(pc.id) && e.id == pc.entity
         && pc.enabled && !e.deleted && Admits(ea, e, subscriber, user) :: pc.id)
  }

  datatype Row = Row(owner: EntityRow, config: ConfigRow, subscription: Option<SubscriptionRow>)

  predicate SubscribedBy(db: Db, ps: SubscriptionRow, pc: ConfigRow, subscriber: Id) {
    ps in db.subscriptions && ps.config == pc.id && ps.subscriber == subscriber
  }

  /** One joined row: the left join gives a match, or nothing when there is none. */
  ghost predicate InResult(db: Db, subscriber: Id, user: Id, r: Row) {
    && r.config in db.configs && r.owner in db.entities && r.owner.id == r.config.entity
    && r.config.id in VisibleServices(db, subscriber, user)
    && r.config.entity != subscriber
    && (if r.subscription.Some? then SubscribedBy(db, r.subscription.value, r.config, subscriber)
        else forall ps :: !SubscribedBy(db, ps, r.config, subscriber))
  }

  predicate RowLess(a: Row, b: Row) {
    || a.owner.id < b.owner.id
    || (a.owner.id == b.owner.id && a.config.sortOrder < b.config.sortOrder)
    || (a.owner.id == b.owner.id && a.config.sortOrder == b.config.sortOrder && a.config.createdAt < b.config.createdAt)
  }

  /** A possible answer of the query: each joined row once, in the stated order; ties may fall either way. */
  ghost predicate Answer(db: Db, subscriber: Id, user: Id, rows: seq<Row>) {
    && (forall r :: r in rows <==> InResult(db, subscriber, user, r))
    && (forall i, j :: 0 <= i < j < |rows| ==> rows[i] != rows[j] && !RowLess(rows[j], rows[i]))
  }

  lemma OwnerVisible(db: Db, e: EntityRow, pc: ConfigRow, subscriber: Id, user: Id)
    requires Keyed(db) && e in db.entities && pc in db.configs && pc.entity == e.id && e.id != subscriber
    ensures pc.id in VisibleServices(db, subscriber, user) <==>
            pc.enabled && !e.deleted && CheckAccess(db, e.id, Some(pc.id), subscriber, user, e.user)
  {
    if pc.id in VisibleServices(db, subscriber, user) {
      VisibleMeansAllowed(db, e, pc, subscriber, user);
    }
    if pc.enabled && !e.deleted && CheckAccess(db, e.id, Some(pc.id), subscriber, user, e.user) {
      if e.user == user {
        assert e.id in VisibleOwners(db, subscriber, user);
      } else {
        var ea :| ea in db.access && ea.owner == e.id && (ea.config == None || ea.config == Some(pc.id))
          && Admits(ea, e, subscriber, user);
        if ea.config == None { assert e.id in VisibleOwners(db, subscriber, user); }
      }
    }
  }

  lemma VisibleMeansAllowed(db: Db, e: EntityRow, pc: ConfigRow, subscriber: Id, user: Id)
    requires Keyed(db) && e in db.entities && pc in db.configs && pc.entity == e.id
    requires pc.id in VisibleServices(db, subscriber, user)
    ensures pc.enabled && !e.deleted && CheckAccess(db, e.id, Some(pc.id), subscriber, user, e.user)
  {
    if pc' :| pc' in db.configs && pc'.entity in VisibleOwners(db, subscriber, user) && pc'.enabled && pc'.id == pc.id {
      assert pc' == pc;
      OwnerMeansAllowed(db, e, pc.id, subscriber, user);
    } else {
      var pc', ea, e' :| pc' in db.configs && ea in db.access && e' in db.entities
        && ea.owner == pc'.entity && ea.config == Some(pc'.id) && e'.id == pc'.entity
        && pc'.enabled && !e'.deleted && Admits(ea, e', subscriber, user) && pc'.id == pc.id;
      assert pc' == pc && e' == e;
    }
  }

  lemma OwnerMeansAllowed(db: Db, e: EntityRow, config: Id, subscriber: Id, user: Id)
    requires Keyed(db) && e in db.entities && e.id in VisibleOwners(db, subscriber, user)
    ensures !e.deleted && CheckAccess(db, e.id, Some(config), subscriber, user, e.user)
  {
    if e', ea :|
      e' in db.entities && ea in db.access && ea.owner == e'.id && ea.config == None && !e'.deleted
      && Admits(ea, e', subscriber, user) && e'.id == e.id
    {
      assert e' == e;
    } else {
      var e' :| e' in db.entities && !e'.deleted && e'.user == user && e'.id != subscriber && e'.id == e.id;
      assert e' == e;
    }
  }

  /**
   Browse and authorization agree: a service is in the answer exactly when it is
   enabled, its owner is not deleted and is not the subscriber, and the access
   check that bridging performs would pass; it is then there once, with exactly
   the subscriber's own subscription.
   */
  lemma BrowseIffAuthorized(db: Db, e: EntityRow, pc: ConfigRow, subscriber: Id, user: Id, rows: seq<Row>)
    requires Keyed(db) && e in db.entities && pc in db.configs && pc.entity == e.id
    requires Answer(db, subscriber, user, rows)
    ensures (exists i :: 0 <= i < |rows| && rows[i].config == pc) <==>
            pc.enabled && !e.deleted && e.id != subscriber
              && CheckAccess(db, e.id, Some(pc.id), subscriber, user, e.user)
    ensures forall i, j :: 0 <= i < j < |rows| ==> rows[i].config != rows[j].config
    ensures forall i :: 0 <= i < |rows| && rows[i].config == pc ==>
              rows[i].owner == e && forall ps ::
                SubscribedBy(db, ps, pc, subscriber) <==> rows[i].subscription == Some(ps)
  {
    if e.id != subscriber { OwnerVisible(db, e, pc, subscriber, user); }
    if i :| 0 <= i < |rows| && rows[i].config == pc {
      assert rows[i] in rows;
    }
    if e.id != subscriber && pc.id in VisibleServices(db, subscriber, user) {
      var r := SomeRow(db, e, pc, subscriber);
      assert r in rows;
    }
    forall i, j | 0 <= i < j < |rows| ensures rows[i].config != rows[j].config {
      assert rows[i] in rows && rows[j] in rows;
      if rows[i].config == rows[j].config { SameConfigSameRow(db, subscriber, user, rows[i], rows[j]); }
    }
    forall i | 0 <= i < |rows| && rows[i].config == pc
      ensures rows[i].owner == e && forall ps ::
            SubscribedBy(db, ps, pc, subscriber) <==> rows[i].subscription == Some(ps)
    {
      assert rows[i] in rows;
    }
  }

  lemma SomeRow(db: Db, e: EntityRow, pc: ConfigRow, subscriber: Id) returns (r: Row)
    ensures r.owner == e && r.config == pc
    ensures if r.subscription.Some? then SubscribedBy(db, r.subscription.value, pc, subscriber)
            else forall ps :: !SubscribedBy(db, ps, pc, subscriber)
  {
    if ps :| SubscribedBy(db, ps, pc, subscriber) {
      r := Row(e, pc, Some(ps));
    } else {
      r := Row(e, pc, None);
    }
  }

  lemma SameConfigSameRow(db: Db, subscriber: Id, user: Id, a: Row, b: Row)
    requires Keyed(db) && InResult(db, subscriber, user, a) && InResult(db, subscriber, user, b) && a.config == b.config
    ensures a == b
  {
    if a.subscription.Some? { assert SubscribedBy(db, a.subscription.value, b.config, subscriber); }
    if b.subscription.Some? { assert SubscribedBy(db, b.subscription.value, a.config, subscriber); }
  }

  // ------------------------------------------------------------- the grouping

  datatype Service = Service(config: ConfigRow, subscription: Option<SubscriptionRow>)

  datatype Owner = Owner(entity: EntityRow, services: seq<Service>)

  function IntoParts(r: Row): (EntityRow, Service) {
    (r.owner, Service(r.config, r.subscription))
  }

  /** The rows of one owner, in order. */
  function RowsOf(rows: seq<Row>, id: Id): seq<Row> {
    if rows == [] then [] else
      var n := |rows| - 1;
      if rows[n].owner.id == id then RowsOf(rows[..n], id) + [rows[n]] else RowsOf(rows[..n], id)
  }

  function Services(rows: seq<Row>): (r: seq<Service>)
    ensures |r| == |rows| && forall i :: 0 <= i < |rows| ==> r[i] == IntoParts(rows[i]).1
  {
    if rows == [] then [] else Services(rows[..|rows| - 1]) + [IntoParts(rows[|rows| - 1]).1]
  }

  /** Owner ids by first appearance. */
  function FirstSeen(rows: seq<Row>): seq<Id> {
    if rows == [] then [] else
      var n := |rows| - 1;
      if rows[n].owner.id in FirstSeen(rows[..n]) then FirstSeen(rows[..n])
        else FirstSeen(rows[..n]) + [rows[n].owner.id]
  }

  /** The map under construction holds, for every owner seen, its first row's entity and its services so far. */
  ghost predicate Grouped(rows: seq<Row>, order: seq<Id>, byOwner: map<Id, (EntityRow, seq<Service>)>) {
    && order == FirstSeen(rows)
    && (forall id :: id in byOwner <==> id in order)
    && (forall id :: id in byOwner ==> GroupOf(rows, id, byOwner[id]))
  }

  /** One row pushed onto its owner's group, which it opens if it is the first. */
  function Push(byOwner: map<Id, (EntityRow, seq<Service>)>, r: Row): map<Id, (EntityRow, seq<Service>)> {
    var (entity, service) := IntoParts(r);
    if r.owner.id in byOwner then byOwner[r.owner.id := (byOwner[r.owner.id].0, byOwner[r.owner.id].1 + [service])]
    else byOwner[r.owner.id := (entity, [service])]
  }

  ghost predicate GroupOf(rows: seq<Row>, id: Id, group: (EntityRow, seq<Service>)) {
    RowsOf(rows, id) != [] && group == (RowsOf(rows, id)[0].owner, Services(RowsOf(rows, id)))
  }

  /** Pushing a row keeps its own owner's group right. */
  lemma GroupGrows(rows: seq<Row>, r: Row, byOwner: map<Id, (EntityRow, seq<Service>)>)
    requires r.owner.id in byOwner <==> RowsOf(rows, r.owner.id) != []
    requires r.owner.id in byOwner ==> GroupOf(rows, r.owner.id, byOwner[r.owner.id])
    ensures GroupOf(rows + [r], r.owner.id, Push(byOwner, r)[r.owner.id])
  {
    var mine := RowsOf(rows, r.owner.id);
    assert (rows + [r])[..|rows|] == rows;
    assert RowsOf(rows + [r], r.owner.id) == mine + [r];
    ServicesSnoc(mine, r);
    if mine == [] {
      assert Services(mine) + [IntoParts(r).1] == [IntoParts(r).1];
      assert (mine + [r])[0] == r;
    } else {
      assert (mine + [r])[0] == mine[0];
    }
  }

  lemma GroupStep(rows: seq<Row>, r: Row, order: seq<Id>, byOwner: map<Id, (EntityRow, seq<Service>)>)
    requires Grouped(rows, order, byOwner)
    ensures Grouped(rows + [r], if r.owner.id in byOwner then order else order + [r.owner.id], Push(byOwner, r))
  {
    var next, byOwner' := rows + [r], Push(byOwner, r);
    assert next[..|rows|] == rows;
    SeenIffRows(rows, r.owner.id);
    GroupGrows(rows, r, byOwner);
    forall k | k in byOwner' ensures GroupOf(next, k, byOwner'[k]) {
      if k != r.owner.id {
        assert GroupOf(rows, k, byOwner[k]);
        assert RowsOf(next, k) == RowsOf(rows, k);
      }
    }
  }

  lemma ServicesSnoc(rows: seq<Row>, r: Row)
    ensures Services(rows + [r]) == Services(rows) + [IntoParts(r).1]
  {
  }

  lemma {:induction false} SeenIffRows(rows: seq<Row>, id: Id)
    ensures id in FirstSeen(rows) <==> RowsOf(rows, id) != []
  {
    if rows != [] { SeenIffRows(rows[..|rows| - 1], id); }
  }

  /** What the grouping returns: each owner once, by first appearance, with exactly its rows in order. */
  ghost predicate IsGrouping(rows: seq<Row>, owners: seq<Owner>) {
    && |owners| == |FirstSeen(rows)|
    && forall i :: 0 <= i < |owners| ==>
         var mine := RowsOf(rows, FirstSeen(rows)[i]);
         mine != [] && owners[i] == Owner(mine[0].owner, Services(mine))
  }

  lemma OneMoreRow(rows: seq<Row>, i: nat)
    requires i < |rows|
    ensures rows[..i + 1] == rows[..i] + [rows[i]]
  {
  }

  lemma AllRows(rows: seq<Row>)
    ensures rows[..|rows|] == rows
  {
  }

  method GroupByOwner(rows: seq<Row>) returns (owners: seq<Owner>)
    ensures IsGrouping(rows, owners)
  {
    var order: seq<Id> := [];
    var byOwner: map<Id, (EntityRow, seq<Service>)> := map[];
    for i := 0 to |rows|
      invariant Grouped(rows[..i], order, byOwner)
    {
      GroupStep(rows[..i], rows[i], order, byOwner);
      OneMoreRow(rows, i);
      var ownerId := rows[i].owner.id;
      if ownerId !in byOwner {
        order := order + [ownerId];
      }
      byOwner := Push(byOwner, rows[i]);
    }
    AllRows(rows);
    FirstSeenDistinct(rows);
    owners := TakeInOrder(order, byOwner);
  }

  /** The final pass: each owner's group is removed from the map as its turn comes. */
  method TakeInOrder(order: seq<Id>, groups: map<Id, (EntityRow, seq<Service>)>) returns (owners: seq<Owner>)
    requires forall i :: 0 <= i < |order| ==> order[i] in groups
    requires forall i, j :: 0 <= i < j < |order| ==> order[i] != order[j]
    ensures |owners| == |order| && forall i :: 0 <= i < |order| ==>
          owners[i] == Owner(groups[order[i]].0, groups[order[i]].1)
  {
    owners := [];
    var byOwner := groups;
    for i := 0 to |order|
      invariant |owners| == i
      invariant forall j :: 0 <= j < i ==> owners[j] == Owner(groups[order[j]].0, groups[order[j]].1)
      invariant forall j :: i <= j < |order| ==> order[j] in byOwner && byOwner[order[j]] == groups[order[j]]
    {
      if order[i] in byOwner {
        owners := owners + [Owner(byOwner[order[i]].0, byOwner[order[i]].1)];
        byOwner := byOwner - {order[i]};
      }
    }
  }

  lemma {:induction false} FirstSeenDistinct(rows: seq<Row>)
    ensures forall i, j :: 0 <= i < j < |FirstSeen(rows)| ==> FirstSeen(rows)[i] != FirstSeen(rows)[j]
  {
    if rows != [] { FirstSeenDistinct(rows[..|rows| - 1]); }
  }

  // ---------------------------------------------------- nothing lost or moved

  function Flatten(owners: seq<Owner>): seq<Service> {
    if owners == [] then [] else Flatten(owners[..|owners| - 1]) + owners[|owners| - 1].services
  }

  /** Rows of one owner stand together. */
  predicate Contiguous(rows: seq<Row>) {
    forall i, j, k :: 0 <= i < j < k < |rows| && rows[i].owner.id == rows[k].owner.id ==>
      rows[j].owner.id == rows[i].owner.id
  }

  lemma AnswerIsContiguous(db: Db, subscriber: Id, user: Id, rows: seq<Row>)
    requires Answer(db, subscriber, user, rows)
    ensures Contiguous(rows)
  {
  }

  /** Row lists of the owners seen, one after the other. */
  function Chunks(rows: seq<Row>, ids: seq<Id>): seq<Row> {
    if ids == [] then [] else Chunks(rows, ids[..|ids| - 1]) + RowsOf(rows, ids[|ids| - 1])
  }

  lemma {:induction false} ChunksElsewhere(rows: seq<Row>, r: Row, ids: seq<Id>)
    requires r.owner.id !in ids
    ensures Chunks(rows + [r], ids) == Chunks(rows, ids)
  {
    if ids != [] {
      ChunksElsewhere(rows, r, ids[..|ids| - 1]);
      assert (rows + [r])[..|rows|] == rows;
    }
  }

  lemma {:induction false} LastOwnerIsLast(rows: seq<Row>)
    requires Contiguous(rows) && rows != []
    ensures FirstSeen(rows) != [] && FirstSeen(rows)[|FirstSeen(rows)| - 1] == rows[|rows| - 1].owner.id
  {
    var n := |rows| - 1;
    if n > 0 {
      LastOwnerIsLast(rows[..n]);
      SeenIffRows(rows[..n], rows[n].owner.id);
      if rows[n].owner.id in FirstSeen(rows[..n]) {
        var i := SomeRowIndex(rows[..n], rows[n].owner.id);
        if i < n - 1 { assert rows[n - 1].owner.id == rows[i].owner.id; }
      }
    }
  }

  lemma {:induction false} SomeRowIndex(rows: seq<Row>, id: Id) returns (i: nat)
    requires RowsOf(rows, id) != []
    ensures i < |rows| && rows[i].owner.id == id
  {
    var n := |rows| - 1;
    if rows[n].owner.id == id { i := n; } else { i := SomeRowIndex(rows[..n], id); }
  }

  /** On contiguous rows, laying the groups end to end gives the rows back. */
  lemma {:induction false} ChunksAreRows(rows: seq<Row>)
    requires Contiguous(rows)
    ensures Chunks(rows, FirstSeen(rows)) == rows
  {
    if rows != [] {
      var n := |rows| - 1;
      var init, r := rows[..n], rows[n];
      var ids, before := FirstSeen(rows), FirstSeen(init);
      ChunksAreRows(init);
      LastOwnerIsLast(rows);
      FirstSeenDistinct(rows);
      var m := |ids| - 1;
      assert rows == init + [r];
      assert r.owner.id !in ids[..m];
      ChunksElsewhere(init, r, ids[..m]);
      if r.owner.id !in before {
        SeenIffRows(init, r.owner.id);
        assert ids[..m] == before;
      }
      assert (init + [r])[..n] == init;
    }
  }

  lemma {:induction false} ServicesConcat(a: seq<Row>, b: seq<Row>)
    ensures Services(a + b) == Services(a) + Services(b)
  {
  }

  lemma {:induction false} FlattenIsChunks(rows: seq<Row>, ids: seq<Id>, owners: seq<Owner>)
    requires |owners| == |ids| && forall i :: 0 <= i < |owners| ==> owners[i].services == Services(RowsOf(rows, ids[i]))
    ensures Flatten(owners) == Services(Chunks(rows, ids))
  {
    if ids != [] {
      var n := |ids| - 1;
      FlattenIsChunks(rows, ids[..n], owners[..n]);
      ServicesConcat(Chunks(rows, ids[..n]), RowsOf(rows, ids[n]));
    }
  }

  /**
   Grouping the query's answer loses, repeats and reorders no service: laid end to
   end, the groups carry each row's config and subscription, and every service of
   a group stands under the owner that its own row names.
   */
  lemma GroupingKeepsAnswer(db: Db, subscriber: Id, user: Id, rows: seq<Row>, owners: seq<Owner>)
    requires Answer(db, subscriber, user, rows) && IsGrouping(rows, owners)
    ensures |Flatten(owners)| == |rows|
    ensures forall i :: 0 <= i < |rows| ==>
      Flatten(owners)[i].config == rows[i].config && Flatten(owners)[i].subscription == rows[i].subscription
    ensures forall i, j :: 0 <= i < j < |owners| ==> owners[i].entity.id != owners[j].entity.id
    ensures forall i, k :: 0 <= i < |owners| && 0 <= k < |owners[i].services| ==>
      exists j :: (
        && 0 <= j < |rows| && rows[j].owner.id == owners[i].entity.id
        && rows[j].config == owners[i].services[k].config)
  {
    AnswerIsContiguous(db, subscriber, user, rows);
    ChunksAreRows(rows);
    FlattenIsChunks(rows, FirstSeen(rows), owners);
    FirstSeenDistinct(rows);
    forall i | 0 <= i < |owners| ensures owners[i].entity.id == FirstSeen(rows)[i] {
      RowsAreOwn(rows, FirstSeen(rows)[i]);
    }
    forall i, k | 0 <= i < |owners| && 0 <= k < |owners[i].services|
      ensures exists j :: (
        && 0 <= j < |rows| && rows[j].owner.id == owners[i].entity.id
        && rows[j].config == owners[i].services[k].config)
    {
      var j := RowBehind(rows, FirstSeen(rows)[i], k);
    }
  }

  lemma {:induction false} RowBehind(rows: seq<Row>, id: Id, k: nat) returns (j: nat)
    requires k < |RowsOf(rows, id)|
    ensures j < |rows| && rows[j] == RowsOf(rows, id)[k] && rows[j].owner.id == id
  {
    var n := |rows| - 1;
    if k < |RowsOf(rows[..n], id)| { j := RowBehind(rows[..n], id, k); } else { j := n; }
  }

  lemma {:induction false} RowsAreOwn(rows: seq<Row>, id: Id)
    ensures forall i :: 0 <= i < |RowsOf(rows, id)| ==> RowsOf(rows, id)[i].owner.id == id
  {
    if rows != [] { RowsAreOwn(rows[..|rows| - 1], id); }
  }

  predicate RowsInOrder(rows: seq<Row>) {
    forall i, j :: 0 <= i < j < |rows| ==> !RowLess(rows[j], rows[i])
  }

  lemma {:induction false} RowsOfInOrder(rows: seq<Row>, id: Id)
    requires RowsInOrder(rows)
    ensures RowsInOrder(RowsOf(rows, id))
  {
    if rows != [] {
      var n := |rows| - 1;
      RowsOfInOrder(rows[..n], id);
      var mine := RowsOf(rows[..n], id);
      forall k | 0 <= k < |mine| ensures !RowLess(rows[n], mine[k]) { var j := RowBehind(rows[..n], id, k); }
    }
  }

  lemma {:induction false} OwnersClimb(rows: seq<Row>)
    requires RowsInOrder(rows)
    ensures forall i, j :: 0 <= i < j < |FirstSeen(rows)| ==> FirstSeen(rows)[i] < FirstSeen(rows)[j]
  {
    if rows != [] {
      var n := |rows| - 1;
      var before := FirstSeen(rows[..n]);
      OwnersClimb(rows[..n]);
      if rows[n].owner.id !in before {
        forall i | 0 <= i < |before| ensures before[i] < rows[n].owner.id {
          SeenIffRows(rows[..n], before[i]);
          var j := SomeRowIndex(rows[..n], before[i]);
        }
      }
    }
  }

  /** The order of the answer survives: owners by id, each one's services by sort order, then by age. */
  lemma GroupsInOrder(db: Db, subscriber: Id, user: Id, rows: seq<Row>, owners: seq<Owner>)
    requires Answer(db, subscriber, user, rows) && IsGrouping(rows, owners)
    ensures forall i, j :: 0 <= i < j < |owners| ==> owners[i].entity.id < owners[j].entity.id
    ensures forall i, k, l :: 0 <= i < |owners| && 0 <= k < l < |owners[i].services| ==>
      ServiceOrder(owners[i].services[k].config, owners[i].services[l].config)
  {
    OwnersClimb(rows);
    forall i | 0 <= i < |owners| ensures owners[i].entity.id == FirstSeen(rows)[i] {
      RowsAreOwn(rows, FirstSeen(rows)[i]);
    }
    forall i, k, l | 0 <= i < |owners| && 0 <= k < l < |owners[i].services|
      ensures ServiceOrder(owners[i].services[k].config, owners[i].services[l].config)
    {
      var mine := RowsOf(rows, FirstSeen(rows)[i]);
      RowsOfInOrder(rows, FirstSeen(rows)[i]);
      RowsAreOwn(rows, FirstSeen(rows)[i]);
      assert !RowLess(mine[l], mine[k]);
    }
  }

  predicate ServiceOrder(a: ConfigRow, b: ConfigRow) {
    a.sortOrder < b.sortOrder || (a.sortOrder == b.sortOrder && a.createdAt <= b.createdAt)
  }
}

/** The geography service: node and closure tables changed in place, step by step. */
module GeographyService {
  import opened Common
  import opened GeographyForest

  /** What a report may cover: the nodes of one subtree, and the turfs and users placed on them. */
  datatype ReportingScope = ReportingScope(nodeIds: seq<Id>, turfIds: set<Id>, userIds: set<Id>)

  datatype PlacedUser = PlacedUser(node: Option<Id>, deleted: bool)

  class GeographiesService {
    var nodes: Nodes
    var links: Links

    function State(): Tables
      reads this
    {
      Tables(nodes, links)
    }

    constructor ()
      ensures State() == Empty && Valid(State())
    {
      nodes, links := map[], map[];
      new;
      RunKeepsValid([]);
    }

    method AddNode(scope: Scope, input: NodeInput, id: Id) returns (r: Result<Node, Error>)
      requires Valid(State())
      modifies this
      ensures Valid(State())
      ensures match Create(old(State()), scope, input, id)
              case Ok(t) => State() == t && r == Ok(t.nodes[id])
              case Err(e) => State() == old(State()) && r == Err(e)
    {
      NextKeepsValid(State(), CreateOp(scope, input, id));
      if scope.org.None? {
        return Err(NoOrganization);
      }
      var org := scope.org.value;
      if !CleanExternalId(input.externalId) {
        return Err(BadExternalId);
      }
      if input.name == "" {
        return Err(BlankName);
      }
      var found := FindParent(org, input.parent);
      if found.Err? {
        return Err(found.error);
      }
      var parent := found.value;
      if id in nodes || TakenExternalId(nodes, org, input.externalId) {
        return Err(UniqueViolation);
      }
      CheckedIsCreatable(State(), scope, input, id);
      var node := Node(org, input.externalId, input.kind, input.name, parent,
                       if parent.Some? then nodes[parent.value].depth + 1 else 0,
                       OrElse(input.sortOrder, 0), OrElse(input.active, true));
      CreateKeepsClosure(State(), id, node);
      var ancestorLinks := Above(links, parent);
      var created := map[id := Farther(ancestorLinks, 1)[id := 0]];
      nodes := nodes[id := node];
      InsertLinks(created);
      return Ok(node);
    }

    /** The parent that a reference names must be a node of the organisation. */
    method FindParent(org: Id, parent: ParentInput) returns (r: Result<Option<Id>, Error>)
      ensures r == LookUpParent(nodes, org, parent)
    {
      if !parent.Under? {
        return Ok(None);
      }
      if parent.id !in nodes || nodes[parent.id].org != org {
        return Err(ParentOutsideOrganization);
      }
      return Ok(Some(parent.id));
    }

    /** The node must be one of the organisation, and for supervisors one at or below their own. */
    method AssertVisible(scope: Scope, n: Id) returns (r: Result<Id, Error>)
      ensures r == Visible(State(), scope, n)
    {
      if scope.org.None? {
        return Err(NoOrganization);
      }
      if n !in nodes || nodes[n].org != scope.org.value {
        return Err(NodeNotFound);
      }
      if scope.role == Supervisor {
        if scope.geographyNode.None? {
          return Err(NoGeographyScope);
        }
        if !Has(links, scope.geographyNode.value, n) {
          return Err(OutsideScope);
        }
      }
      return Ok(n);
    }

    /** Inserts rows into the link table. The table's key constraint is the caller's to meet. */
    method InsertLinks(rows: Links)
      requires NoCollision(links, rows)
      modifies this`links
      ensures links == Union(old(links), rows)
    {
      links := Union(links, rows);
    }

    method UpdateNode(scope: Scope, n: Id, patch: NodePatch) returns (r: Result<Node, Error>)
      requires Valid(State())
      modifies this
      ensures Valid(State())
      ensures match Update(old(State()), scope, n, patch)
              case Ok(t) => State() == t && r == Ok(t.nodes[n])
              case Err(e) => State() == old(State()) && r == Err(e)
    {
      NextKeepsValid(State(), UpdateOp(scope, n, patch));
      if scope.org.None? {
        return Err(NoOrganization);
      }
      var existing := AssertVisible(scope, n);
      if existing.Err? {
        return Err(existing.error);
      }
      if patch.name == Some("") {
        return Err(BlankName);
      }
      if patch.parent == Under(n) {
        return Err(OwnParent);
      }
      var found := FindParent(scope.org.value, patch.parent);
      if found.Err? {
        return Err(found.error);
      }
      if found.value.Some? && Has(links, n, found.value.value) {
        return Err(BeneathDescendant);
      }
      assert CheckUpdate(State(), scope, n, patch) == Ok(found.value);
      if patch.parent.Blank? {
        return Err(InvalidReference);
      }
      CheckedIsMovable(State(), scope, n, patch);
      var parent := if patch.parent.Unset? then nodes[n].parent else found.value;
      if parent != nodes[n].parent {
        MovableIsReady(State(), n, parent);
        var nextDepth := if parent.Some? then nodes[parent.value].depth + 1 else 0;
        MoveBeneath(n, parent, nextDepth - nodes[n].depth);
      }
      nodes := nodes[n := Patched(nodes[n], patch, parent)];
      return Ok(nodes[n]);
    }

    /** Relinks the subtree and shifts the depth of each of its nodes. */
    method MoveBeneath(n: Id, parent: Option<Id>, depthDelta: int)
      requires n in nodes && ReadyToRelink(State(), n, parent)
      modifies this
      ensures links == MoveLinks(old(links), parent, n)
      ensures nodes == ShiftDepths(old(nodes), Subtree(old(links), n), depthDelta)
    {
      var subtreeIds := Subtree(links, n);
      Relink(Below(links, n), parent);
      ShiftAll(subtreeIds, depthDelta);
    }

    /** Deletes the links into the subtree from outside it, then inserts the links from the new ancestors. */
    method Relink(subtree: Row, parent: Option<Id>)
      requires NoCollision(WithoutCrossing(links, subtree.Keys), CrossProduct(Above(links, parent), subtree))
      requires Above(WithoutCrossing(links, subtree.Keys), parent) == Above(links, parent)
      modifies this`links
      ensures links == Relinked(old(links), subtree, parent)
    {
      links := WithoutCrossing(links, subtree.Keys);
      var newAncestors := Above(links, parent);
      InsertLinks(CrossProduct(newAncestors, subtree));
    }

    method ShiftAll(subtree: set<Id>, depthDelta: int)
      requires subtree <= nodes.Keys
      modifies this`nodes
      ensures nodes == ShiftDepths(old(nodes), subtree, depthDelta)
    {
      var rest := subtree;
      while rest != {}
        invariant rest <= subtree
        invariant nodes == ShiftDepths(old(nodes), subtree - rest, depthDelta)
        decreases rest
      {
        var d :| d in rest;
        nodes := nodes[d := nodes[d].(depth := nodes[d].depth + depthDelta)];
        rest := rest - {d};
      }
      assert subtree - rest == subtree;
    }

    /** The reporting filter lists exactly the subtree of its node, each node once and parents before children,
        and exactly the turfs and live users placed in it. */
    method ReportingFilter(scope: Scope, n: Id, turfs: map<Id, Option<Id>>, users: map<Id, PlacedUser>)
      returns (r: Result<ReportingScope, Error>)
      requires Valid(State())
      ensures r.Err? <==> Visible(State(), scope, n).Err?
      ensures r.Err? ==> r.error == Visible(State(), scope, n).error
      ensures r.Ok? ==> forall d :: d in r.value.nodeIds <==> Descends(nodes, d, n)
      ensures r.Ok? ==> forall i, j :: 0 <= i < j < |r.value.nodeIds| ==> r.value.nodeIds[i] != r.value.nodeIds[j]
      ensures r.Ok? ==> forall i :: 0 <= i < |r.value.nodeIds| ==> r.value.nodeIds[i] in nodes
      ensures r.Ok? ==> forall i, j :: 0 <= i < j < |r.value.nodeIds| ==>
                          nodes[r.value.nodeIds[i]].depth <= nodes[r.value.nodeIds[j]].depth
      ensures r.Ok? ==> forall t :: t in r.value.turfIds <==>
                          t in turfs && turfs[t].Some? && turfs[t].value in r.value.nodeIds
      ensures r.Ok? ==> forall u :: u in r.value.userIds <==>
                          u in users && !users[u].deleted && users[u].node.Some? && users[u].node.value in r.value.nodeIds
    {
      var visible := AssertVisible(scope, n);
      if visible.Err? {
        return Err(visible.error);
      }
      var below := Below(links, n);
      var nodeIds := Nearest(below);
      forall d ensures d in nodeIds <==> Descends(nodes, d, n) {
        CycleTestIsExact(State(), n, d);
      }
      forall i | 0 <= i < |nodeIds|
        ensures nodeIds[i] in nodes && nodes[nodeIds[i]].depth == nodes[n].depth + below[nodeIds[i]]
      {
        InSubtree(State(), n, nodeIds[i], 0);
        AncestorDepth(nodes, nodeIds[i], below[nodeIds[i]]);
      }
      var turfIds := set t | t in turfs && turfs[t].Some? && turfs[t].value in nodeIds;
      var userIds := set u | u in users && !users[u].deleted && users[u].node.Some? && users[u].node.value in nodeIds;
      return Ok(ReportingScope(nodeIds, turfIds, userIds));
    }
  }

  /** Deleting the crossing links touches no link of the new parent. */
  lemma NewAncestorsSurvive(t: Tables, n: Id, parent: Option<Id>)
    requires Movable(t, n, parent)
    ensures Above(WithoutCrossing(t.links, Subtree(t.links, n)), parent) == Above(t.links, parent)
  {
  }

  /** The new rows collide with none that stay, and the rows of the new parent are among those that stay. */
  ghost predicate ReadyToRelink(t: Tables, n: Id, parent: Option<Id>) {
    && Below(t.links, n).Keys <= t.nodes.Keys
    && Above(WithoutCrossing(t.links, Below(t.links, n).Keys), parent) == Above(t.links, parent)
    && NoCollision(WithoutCrossing(t.links, Below(t.links, n).Keys), CrossProduct(Above(t.links, parent), Below(t.links, n)))
  }

  lemma MovableIsReady(t: Tables, n: Id, parent: Option<Id>)
    requires Movable(t, n, parent)
    ensures ReadyToRelink(t, n, parent)
  {
    GraftNeverCollides(t, n, parent);
    NewAncestorsSurvive(t, n, parent);
  }

  /** The keys of a row, nearest first (`orderBy: { depth: 'asc' }`). */
  method Nearest(row: Row) returns (ids: seq<Id>)
    ensures forall d :: d in ids <==> d in row
    ensures forall i, j :: 0 <= i < j < |ids| ==> ids[i] != ids[j]
    ensures forall i, j :: 0 <= i < j < |ids| ==> row[ids[i]] <= row[ids[j]]
  {
    ids := [];
    var rest := row.Keys;
    while rest != {}
      invariant forall d :: (d in rest || d in ids) <==> d in row
      invariant forall d :: d in rest ==> d !in ids
      invariant forall i, j :: 0 <= i < j < |ids| ==> ids[i] != ids[j]
      invariant forall i, j :: 0 <= i < j < |ids| ==> row[ids[i]] <= row[ids[j]]
      invariant forall i, d :: 0 <= i < |ids| && d in rest ==> row[ids[i]] <= row[d]
      decreases rest
    {
      NearestExists(row, rest);
      var d :| d in rest && forall e :: e in rest ==> row[d] <= row[e];
      ids := ids + [d];
      rest := rest - {d};
    }
  }

  lemma {:induction false} NearestExists(row: Row, s: set<Id>)
    requires s != {} && s <= row.Keys
    ensures exists d :: d in s && forall e :: e in s ==> row[d] <= row[e]
    decreases s
  {
    var d :| d in s;
    if s != {d} {
      NearestExists(row, s - {d});
      var m :| m in s - {d} && forall e :: e in s - {d} ==> row[m] <= row[e];
      var best := if row[d] <= row[m] then d else m;
      assert forall e :: e in s ==> e == d || e in s - {d};
      assert best in s && forall e :: e in s ==> row[best] <= row[e];
    }
  }
}

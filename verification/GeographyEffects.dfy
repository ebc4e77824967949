/** What an accepted call of the geography service writes, field by field, and exactly when one is accepted. */
module GeographyEffects {
  import opened Common
  import opened GeographyForest

  /** The field has the value given, or else the one it had. */
  predicate Takes<T(==)>(after: T, given: Option<T>, before: T) {
    match given
    case Some(value) => after == value
    case None => after == before
  }

  /** Leaving the parent out keeps it, null makes a root, and an id names the parent. */
  predicate TakesParent(after: Option<Id>, given: ParentInput, before: Option<Id>) {
    match given
    case Unset => after == before
    case Null => after == None
    case Blank => after == None
    case Under(id) => after == Some(id)
  }

  /** The level below the parent, or the first one. */
  predicate BelowParent(nodes: Nodes, node: Node) {
    match node.parent
    case None => node.depth == 0
    case Some(p) => p in nodes && node.depth == nodes[p].depth + 1
  }

  predicate SameButDepth(before: Node, after: Node) {
    && after.org == before.org && after.externalId == before.externalId && after.kind == before.kind
    && after.name == before.name && after.parent == before.parent && after.sortOrder == before.sortOrder
    && after.active == before.active
  }

  ghost predicate PatchWritten(before: Node, after: Node, patch: NodePatch) {
    && after.org == before.org && after.externalId == before.externalId
    && Takes(after.name, patch.name, before.name) && Takes(after.kind, patch.kind, before.kind)
    && Takes(after.sortOrder, patch.sortOrder, before.sortOrder) && Takes(after.active, patch.active, before.active)
    && TakesParent(after.parent, patch.parent, before.parent)
  }

  // ---------------------------------------------------------------- updates

  /** The node x as an update of n leaves it: n with what the patch gives, any other one as it was but for its depth,
      which changes below n, by as much as that of n. */
  ghost predicate Updated(t: Tables, n: Id, patch: NodePatch, x: Id, after: Node, shift: int)
    requires n in t.nodes && x in t.nodes
  {
    && (if x == n then PatchWritten(t.nodes[n], after, patch) else SameButDepth(t.nodes[x], after))
    && after.depth == t.nodes[x].depth + if Descends(t.nodes, x, n) then shift else 0
  }

  ghost predicate NodesUpdated(t: Tables, n: Id, patch: NodePatch, nodes: Nodes)
    requires n in t.nodes
  {
    && nodes.Keys == t.nodes.Keys && BelowParent(t.nodes, nodes[n])
    && forall x :: x in t.nodes ==> Updated(t, n, patch, x, nodes[x], nodes[n].depth - t.nodes[n].depth)
  }

  /** An update writes what the patch gives into the node and keeps the rest of it; of the other nodes only the depths
      of those below the node change, all by as much as its own. If its parent stays, nothing else is written. */
  lemma UpdateWrites(t: Tables, scope: Scope, n: Id, patch: NodePatch, t': Tables)
    requires Valid(t) && Update(t, scope, n, patch) == Ok(t')
    ensures n in t.nodes && NodesUpdated(t, n, patch, t'.nodes)
    ensures t'.nodes[n].parent == t.nodes[n].parent ==> t' == t.(nodes := t.nodes[n := t'.nodes[n]])
  {
    CheckedIsMovable(t, scope, n, patch);
    var parent := CheckUpdate(t, scope, n, patch).value;
    if patch.parent.Unset? || parent == t.nodes[n].parent {
      EditWrites(t, n, patch);
    } else {
      MoveWrites(t, n, patch, parent);
    }
  }

  lemma EditWrites(t: Tables, n: Id, patch: NodePatch)
    requires Valid(t) && n in t.nodes && !patch.parent.Blank?
    requires TakesParent(t.nodes[n].parent, patch.parent, t.nodes[n].parent)
    ensures NodesUpdated(t, n, patch, EditInPlace(t, n, patch).nodes)
  {
    assert OnLevel(t.nodes, n);
  }

  lemma MoveWrites(t: Tables, n: Id, patch: NodePatch, parent: Option<Id>)
    requires Movable(t, n, parent) && !patch.parent.Unset? && TakesParent(parent, patch.parent, None)
    ensures var nodes := MoveSubtree(t, n, patch, parent).nodes;
            NodesUpdated(t, n, patch, nodes) && nodes[n].parent == parent
  {
    MoveSubtreeKeepsNames(t, n, patch, parent);
    MoveWritesLevel(t, n, patch, parent);
    var nodes := MoveSubtree(t, n, patch, parent).nodes;
    forall x | x in t.nodes ensures Updated(t, n, patch, x, nodes[x], nodes[n].depth - t.nodes[n].depth) {
      MoveWritesAt(t, n, patch, parent, x);
    }
  }

  lemma MoveWritesLevel(t: Tables, n: Id, patch: NodePatch, parent: Option<Id>)
    requires Movable(t, n, parent) && !patch.parent.Unset? && TakesParent(parent, patch.parent, None)
    requires MoveSubtree(t, n, patch, parent).nodes.Keys == t.nodes.Keys
    ensures var after := MoveSubtree(t, n, patch, parent).nodes[n];
            after.parent == parent && after.depth == NextDepth(t.nodes, parent) && BelowParent(t.nodes, after)
  {
    MoveWritesAt(t, n, patch, parent, n);
  }

  lemma MoveWritesAt(t: Tables, n: Id, patch: NodePatch, parent: Option<Id>, x: Id)
    requires Movable(t, n, parent) && !patch.parent.Unset? && TakesParent(parent, patch.parent, None)
    requires x in t.nodes && MoveSubtree(t, n, patch, parent).nodes.Keys == t.nodes.Keys
    ensures var after := MoveSubtree(t, n, patch, parent).nodes[x];
            && Updated(t, n, patch, x, after, NextDepth(t.nodes, parent) - t.nodes[n].depth)
            && (x == n ==> after.parent == parent && after.depth == NextDepth(t.nodes, parent))
  {
    LinkToSelf(t, n);
    CycleTestIsExact(t, n, x);
  }

  /** A reference names a node of the organisation to hang from, or none. */
  predicate GoodParent(t: Tables, org: Id, parent: ParentInput) {
    parent.Under? ==> parent.id in t.nodes && t.nodes[parent.id].org == org
  }

  /** The caller may address the node: it is one of the organisation, for supervisors at or below their own node. */
  ghost predicate Addressable(t: Tables, scope: Scope, n: Id) {
    && scope.org.Some? && n in t.nodes && t.nodes[n].org == scope.org.value
    && (scope.role == Supervisor ==>
          scope.geographyNode.Some? && Descends(t.nodes, n, scope.geographyNode.value))
  }

  /** An update is accepted if and only if the caller may address the node, the name is not blanked, and the parent, if
      one is named, is a node of the organisation that is not at or below the node itself. */
  lemma UpdateSucceeds(t: Tables, scope: Scope, n: Id, patch: NodePatch)
    requires Valid(t)
    ensures Update(t, scope, n, patch).Ok? <==>
              && Addressable(t, scope, n) && patch.name != Some("") && patch.parent != Blank
              && GoodParent(t, scope.org.value, patch.parent)
              && (patch.parent.Under? ==> !Descends(t.nodes, patch.parent.id, n))
  {
    VisibleMeaning(t, scope, n);
    if patch.parent.Under? {
      CycleTestIsExact(t, n, patch.parent.id);
      if n in t.nodes {
        assert Ancestor(t.nodes, n, 0) == Some(n);
      }
    }
  }

  // ---------------------------------------------------------------- creates

  /** A create adds the node as described, under the parent named, and leaves every other node as it was. */
  lemma CreateWrites(t: Tables, scope: Scope, input: NodeInput, id: Id, t': Tables)
    requires Valid(t) && Create(t, scope, input, id) == Ok(t')
    ensures scope.org.Some? && id !in t.nodes && t'.nodes.Keys == t.nodes.Keys + {id}
    ensures forall x :: x in t.nodes ==> t'.nodes[x] == t.nodes[x]
    ensures var node := t'.nodes[id];
            && Some(node.org) == scope.org && node.externalId == input.externalId && node.kind == input.kind
            && node.name == input.name && TakesParent(node.parent, input.parent, None)
            && Takes(node.sortOrder, input.sortOrder, 0) && Takes(node.active, input.active, true)
            && BelowParent(t.nodes, node)
  {
    CheckedIsCreatable(t, scope, input, id);
  }

  /** One to a hundred characters: a letter or digit, and then letters, digits, dots, underscores, colons and dashes. */
  ghost predicate StableId(s: string) {
    && 1 <= |s| <= 100
    && forall i :: 0 <= i < |s| ==>
         || 'A' <= s[i] <= 'Z' || 'a' <= s[i] <= 'z' || '0' <= s[i] <= '9'
         || (i > 0 && s[i] in {'.', '_', ':', '-'})
  }

  /** A create is accepted if and only if the caller belongs to an organisation, the external id is well-formed and new
      there, the name is not blank, the parent is a node of the organisation, and the key drawn is new. */
  lemma CreateSucceeds(t: Tables, scope: Scope, input: NodeInput, id: Id)
    requires Valid(t)
    ensures Create(t, scope, input, id).Ok? <==>
              && scope.org.Some? && StableId(input.externalId) && input.name != "" && id !in t.nodes
              && GoodParent(t, scope.org.value, input.parent)
              && forall x :: x in t.nodes && t.nodes[x].org == scope.org.value ==>
                   t.nodes[x].externalId != input.externalId
  {
    assert CleanExternalId(input.externalId) <==> StableId(input.externalId);
  }

  // ---------------------------------------------------------------- lists

  /** A node is listed exactly if the caller may address it and it is what the filter asks for: under a parent or a root,
      of a kind, and active unless the others are included. */
  lemma ListMeans(t: Tables, scope: Scope, filter: ListFilter, n: Id)
    requires Valid(t) && Listed(t, scope, filter).Ok?
    ensures n in Listed(t, scope, filter).value <==>
              && Addressable(t, scope, n)
              && (filter.parent.Under? ==> t.nodes[n].parent == Some(filter.parent.id))
              && (filter.parent.Null? ==> t.nodes[n].parent.None?)
              && (filter.kind == None || filter.kind == Some(t.nodes[n].kind))
              && (t.nodes[n].active || filter.includeInactive)
  {
    ListedAreVisible(t, scope, filter, n);
    VisibleMeaning(t, scope, n);
  }

  /** A list is refused only to callers without an organisation, for a parent that they may not address, and for the empty
      text as the parent, and then says so. */
  lemma ListErrors(t: Tables, scope: Scope, filter: ListFilter)
    requires Valid(t)
    ensures match Listed(t, scope, filter)
            case Ok(nodes) =>
              && scope.org.Some? && (filter.parent.Under? ==> Addressable(t, scope, filter.parent.id))
              && (filter.parent.Blank? ==> nodes == {})
            case Err(error) =>
              match error
              case NoOrganization => scope.org.None?
              case InvalidReference => filter.parent.Blank?
              case NodeNotFound | NoGeographyScope | OutsideScope =>
                filter.parent.Under? && !Addressable(t, scope, filter.parent.id)
              case _ => false
  {
    if filter.parent.Under? {
      VisibleMeaning(t, scope, filter.parent.id);
    }
  }

  // ---------------------------------------------------------------- errors

  /** A refused call says what is wrong. */
  lemma CreateErrors(t: Tables, scope: Scope, input: NodeInput, id: Id)
    requires Valid(t)
    ensures match Create(t, scope, input, id)
            case Ok(_) => true
            case Err(error) =>
              match error
              case NoOrganization => scope.org.None?
              case BadExternalId => !StableId(input.externalId)
              case BlankName => input.name == ""
              case ParentOutsideOrganization => scope.org.Some? && !GoodParent(t, scope.org.value, input.parent)
              case UniqueViolation =>
                id in t.nodes || exists x :: x in t.nodes && Some(t.nodes[x].org) == scope.org
                                             && t.nodes[x].externalId == input.externalId
              case _ => false
  {
    assert CleanExternalId(input.externalId) <==> StableId(input.externalId);
  }

  lemma UpdateErrors(t: Tables, scope: Scope, n: Id, patch: NodePatch)
    requires Valid(t)
    ensures match Update(t, scope, n, patch)
            case Ok(_) => true
            case Err(error) =>
              match error
              case NoOrganization => scope.org.None?
              case NodeNotFound => n !in t.nodes || Some(t.nodes[n].org) != scope.org
              case NoGeographyScope => scope.role == Supervisor && scope.geographyNode.None?
              case OutsideScope =>
                scope.role == Supervisor && scope.geographyNode.Some? && !Descends(t.nodes, n, scope.geographyNode.value)
              case BlankName => patch.name == Some("")
              case OwnParent => patch.parent == Under(n)
              case ParentOutsideOrganization => scope.org.Some? && !GoodParent(t, scope.org.value, patch.parent)
              case BeneathDescendant =>
                patch.parent.Under? && patch.parent.id != n && Descends(t.nodes, patch.parent.id, n)
              case InvalidReference => patch.parent.Blank?
              case _ => false
  {
    if scope.geographyNode.Some? {
      CycleTestIsExact(t, scope.geographyNode.value, n);
    }
    if patch.parent.Under? {
      CycleTestIsExact(t, n, patch.parent.id);
    }
  }
}

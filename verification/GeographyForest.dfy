/** The geography hierarchy as values: a forest kept three ways at once, as parent pointers,
    as a stored depth per node, and as a materialised table of ancestor/descendant links.
    The operations patch the three incrementally; the lemmas show that the patched tables
    always agree with the parent pointers. */
module GeographyForest {
  import opened Common

  datatype Kind = Region | Ward | Territory | PrecinctCluster | Precinct | Custom

  datatype Node = Node(
    org: Id, externalId: string, kind: Kind, name: string,
    parent: Option<Id>, depth: int, sortOrder: int, active: bool)

  type Nodes = map<Id, Node>

  /** Closure rows, keyed by descendant and then by ancestor; the value is the distance. */
  type Row = map<Id, nat>
  type Links = map<Id, Row>

  datatype Tables = Tables(nodes: Nodes, links: Links)

  datatype Role = Admin | Supervisor | Canvasser

  datatype Scope = Scope(org: Option<Id>, role: Role, geographyNode: Option<Id>)

  /** What a caller may put in `parentId`: nothing, null, the empty text, or a node id. */
  datatype ParentInput = Unset | Null | Blank | Under(id: Id)

  /** Texts stand for what is left of the caller's text after trimming. */
  datatype NodeInput = NodeInput(
    externalId: string, kind: Kind, name: string, parent: ParentInput, sortOrder: Option<int>, active: Option<bool>)

  datatype NodePatch = NodePatch(
    kind: Option<Kind>, name: Option<string>, parent: ParentInput, sortOrder: Option<int>, active: Option<bool>)

  datatype Error =
    | NoOrganization | BadExternalId | BlankName | ParentOutsideOrganization | NodeNotFound
    | NoGeographyScope | OutsideScope | OwnParent | BeneathDescendant | UniqueViolation | InvalidReference

  // ---------------------------------------------------------------- reference meaning

  /** The node reached from d by following the parent pointer exactly k times. */
  function Ancestor(nodes: Nodes, d: Id, k: nat): (a: Option<Id>)
    ensures a.Some? ==> a.value in nodes
    decreases k
  {
    if d !in nodes then None
    else if k == 0 then Some(d)
    else match nodes[d].parent
      case None => None
      case Some(p) => Ancestor(nodes, p, k - 1)
  }

  predicate Has(links: Links, a: Id, d: Id) {
    d in links && a in links[d]
  }

  function Dist(links: Links, a: Id, d: Id): nat
    requires Has(links, a, d)
  {
    links[d][a]
  }

  predicate IsLink(links: Links, a: Id, d: Id, k: nat) {
    Has(links, a, d) && Dist(links, a, d) == k
  }

  /** A root is on level zero; a parent pointer leads to a node of the same organisation, one level up. */
  ghost predicate OnLevel(nodes: Nodes, d: Id)
    requires d in nodes
  {
    match nodes[d].parent
    case None => nodes[d].depth == 0
    case Some(p) => p in nodes && nodes[p].org == nodes[d].org && 0 <= nodes[p].depth == nodes[d].depth - 1
  }

  ghost predicate Forest(nodes: Nodes) {
    forall d {:trigger OnLevel(nodes, d)} :: d in nodes ==> OnLevel(nodes, d)
  }

  /** The link table is the reflexive-transitive closure of the parent pointers, with exact distances. */
  ghost predicate ExactClosure(t: Tables) {
    t.links.Keys == t.nodes.Keys &&
    forall a: Id, d: Id, k: nat {:trigger IsLink(t.links, a, d, k)} ::
      IsLink(t.links, a, d, k) <==> Ancestor(t.nodes, d, k) == Some(a)
  }

  ghost predicate UniqueExternalIds(nodes: Nodes) {
    forall x, y :: x in nodes && y in nodes && nodes[x].org == nodes[y].org && nodes[x].externalId == nodes[y].externalId
      ==> x == y
  }

  ghost predicate Valid(t: Tables) {
    Forest(t.nodes) && ExactClosure(t)
  }

  const Empty := Tables(map[], map[])

  // ---------------------------------------------------------------- the operations

  // The bodies of the map comprehensions below are total and give nothing, or zero, outside their domain: the
  // verifier equates empty maps, and a body that meant something there would relate maps that have nothing in common.

  /** The distance in a row, zero where it has none. */
  function At(row: Row, a: Id): nat {
    if a in row then row[a] else 0
  }

  /** The rows below n, by descendant (`findMany` by ancestor). */
  function Below(links: Links, n: Id): Row {
    map d | d in links && n in links[d] :: At(RowOf(links, d), n)
  }

  /** The descendants of n, itself included. */
  function Subtree(links: Links, n: Id): set<Id> {
    Below(links, n).Keys
  }

  /** The rows of d; none when there is no such node. */
  function RowOf(links: Links, d: Id): Row {
    if d in links then links[d] else map[]
  }

  /** The rows of the parent (`findMany` by descendant); none when there is no parent. */
  function Above(links: Links, parent: Option<Id>): Row {
    if parent.Some? then RowOf(links, parent.value) else map[]
  }

  /** The same ancestors, some levels further away. */
  function Farther(row: Row, levels: nat): Row {
    map a | a in row :: if a in row then row[a] + levels else 0
  }

  /** Both sets of rows in one table (`createMany`). */
  function Union(x: Links, y: Links): Links {
    map d | d in x.Keys + y.Keys :: RowOf(x, d) + RowOf(y, d)
  }

  /** The key constraint of the table: no key is in both. */
  ghost predicate NoCollision(x: Links, y: Links) {
    forall a, d :: !(Has(x, a, d) && Has(y, a, d))
  }

  predicate IsAlphanumeric(c: char) {
    'A' <= c <= 'Z' || 'a' <= c <= 'z' || '0' <= c <= '9'
  }

  predicate IsPunctuation(c: char) {
    c == '.' || c == '_' || c == ':' || c == '-'
  }

  predicate CleanExternalId(s: string) {
    && 1 <= |s| <= 100
    && IsAlphanumeric(s[0])
    && forall i :: 1 <= i < |s| ==> IsAlphanumeric(s[i]) || IsPunctuation(s[i])
  }

  /** The node that a parent reference names inside the organisation, if it names one. */
  function LookUpParent(nodes: Nodes, org: Id, parent: ParentInput): Result<Option<Id>, Error> {
    if !parent.Under? then Ok(None)
    else if parent.id in nodes && nodes[parent.id].org == org then Ok(Some(parent.id))
    else Err(ParentOutsideOrganization)
  }

  /** Whether a scope may see a node. */
  function Visible(t: Tables, scope: Scope, n: Id): Result<Id, Error> {
    if scope.org.None? then Err(NoOrganization)
    else if n !in t.nodes || t.nodes[n].org != scope.org.value then Err(NodeNotFound)
    else if scope.role != Supervisor then Ok(n)
    else if scope.geographyNode.None? then Err(NoGeographyScope)
    else if !Has(t.links, scope.geographyNode.value, n) then Err(OutsideScope)
    else Ok(n)
  }

  function NextDepth(nodes: Nodes, parent: Option<Id>): int {
    if parent.Some? && parent.value in nodes then nodes[parent.value].depth + 1 else 0
  }

  /** Links of a new leaf: one level further than each link of its parent, and its own self-link. */
  function LeafLinks(links: Links, parent: Option<Id>, n: Id): Links {
    map[n := Farther(Above(links, parent), 1)[n := 0]]
  }

  /** Everything that can refuse a new node; the parent it will hang from. */
  function CheckCreate(t: Tables, scope: Scope, input: NodeInput, id: Id): Result<Option<Id>, Error> {
    if scope.org.None? then Err(NoOrganization)
    else if !CleanExternalId(input.externalId) then Err(BadExternalId)
    else if input.name == "" then Err(BlankName)
    else
      var parent := LookUpParent(t.nodes, scope.org.value, input.parent);
      if parent.Ok? && (id in t.nodes || TakenExternalId(t.nodes, scope.org.value, input.externalId)) then
        Err(UniqueViolation)
      else parent
  }

  function Create(t: Tables, scope: Scope, input: NodeInput, id: Id): Result<Tables, Error> {
    match CheckCreate(t, scope, input, id)
    case Err(e) => Err(e)
    case Ok(parent) => Ok(WithLeaf(t, id, NewNode(scope.org.value, input, parent, NextDepth(t.nodes, parent))))
  }

  function NewNode(org: Id, input: NodeInput, parent: Option<Id>, depth: int): Node {
    Node(org, input.externalId, input.kind, input.name, parent, depth,
         OrElse(input.sortOrder, 0), OrElse(input.active, true))
  }

  function WithLeaf(t: Tables, id: Id, node: Node): Tables {
    Tables(t.nodes[id := node], Union(t.links, LeafLinks(t.links, node.parent, id)))
  }

  predicate TakenExternalId(nodes: Nodes, org: Id, externalId: string) {
    exists x :: x in nodes && nodes[x].org == org && nodes[x].externalId == externalId
  }

  function OrElse<T>(value: Option<T>, fallback: T): T {
    match value case Some(v) => v case None => fallback
  }

  function ShiftDepths(nodes: Nodes, moved: set<Id>, delta: int): Nodes {
    map d | d in nodes :: if d in nodes && d in moved then nodes[d].(depth := nodes[d].depth + delta) else nodes[d]
  }

  /** Links left after deleting those that lead into the subtree from outside it. */
  function WithoutCrossing(links: Links, moved: set<Id>): Links {
    map d | d in links :: if d in moved then Within(RowOf(links, d), moved) else RowOf(links, d)
  }

  function Within(row: Row, s: set<Id>): Row {
    map a | a in row && a in s :: if a in s then At(row, a) else 0
  }

  /** Links from every ancestor of the new parent to every node of the subtree. */
  function Grafted(links: Links, parent: Option<Id>, n: Id): Links {
    CrossProduct(Above(links, parent), Below(links, n))
  }

  /** A row from every ancestor in `above` to every descendant in `below`, by way of one new edge. */
  function CrossProduct(above: Row, below: Row): Links {
    map d | d in below :: if d in below then Farther(above, below[d] + 1) else map[]
  }

  function MoveLinks(links: Links, parent: Option<Id>, n: Id): Links {
    Relinked(links, Below(links, n), parent)
  }

  /** The crossing links of a subtree replaced by the links from its new ancestors. */
  function Relinked(links: Links, below: Row, parent: Option<Id>): Links {
    Union(WithoutCrossing(links, below.Keys), CrossProduct(Above(links, parent), below))
  }

  function Patched(node: Node, patch: NodePatch, parent: Option<Id>): Node {
    node.(name := OrElse(patch.name, node.name),
          kind := OrElse(patch.kind, node.kind),
          parent := if patch.parent.Unset? then node.parent else parent,
          sortOrder := OrElse(patch.sortOrder, node.sortOrder),
          active := OrElse(patch.active, node.active))
  }

  /** Everything `update` checks before its transaction; the parent it will use. */
  function CheckUpdate(t: Tables, scope: Scope, n: Id, patch: NodePatch): Result<Option<Id>, Error> {
    if scope.org.None? then Err(NoOrganization)
    else if Visible(t, scope, n).Err? then Err(Visible(t, scope, n).error)
    else if patch.name == Some("") then Err(BlankName)
    else if patch.parent == Under(n) then Err(OwnParent)
    else
      var parent := LookUpParent(t.nodes, scope.org.value, patch.parent);
      if parent.Ok? && parent.value.Some? && Has(t.links, n, parent.value.value) then Err(BeneathDescendant)
      else parent
  }

  /** The empty text passes every check, and the closing write then rejects it as a key, undoing the rest. */
  function Update(t: Tables, scope: Scope, n: Id, patch: NodePatch): (r: Result<Tables, Error>)
    ensures r.Ok? ==> n in t.nodes
  {
    var checked := CheckUpdate(t, scope, n, patch);
    if checked.Err? then Err(checked.error)
    else if patch.parent.Blank? then Err(InvalidReference)
    else if patch.parent.Unset? || checked.value == t.nodes[n].parent then Ok(EditInPlace(t, n, patch))
    else Ok(MoveSubtree(t, n, patch, checked.value))
  }

  function EditInPlace(t: Tables, n: Id, patch: NodePatch): Tables
    requires n in t.nodes
  {
    t.(nodes := t.nodes[n := Patched(t.nodes[n], patch, t.nodes[n].parent)])
  }

  function MoveSubtree(t: Tables, n: Id, patch: NodePatch, parent: Option<Id>): Tables
    requires n in t.nodes
  {
    Tables(PatchAt(Shifted(t, n, parent), n, patch, parent), MoveLinks(t.links, parent, n))
  }

  /** The subtree of n brought to the levels it will have under its new parent. */
  function Shifted(t: Tables, n: Id, parent: Option<Id>): Nodes
    requires n in t.nodes
  {
    ShiftDepths(t.nodes, Subtree(t.links, n), NextDepth(t.nodes, parent) - t.nodes[n].depth)
  }

  function PatchAt(nodes: Nodes, n: Id, patch: NodePatch, parent: Option<Id>): Nodes
    requires n in nodes
  {
    nodes[n := Patched(nodes[n], patch, parent)]
  }

  datatype Op =
    | CreateOp(scope: Scope, input: NodeInput, id: Id)
    | UpdateOp(scope: Scope, id: Id, patch: NodePatch)

  function Attempt(t: Tables, op: Op): Result<Tables, Error> {
    match op
    case CreateOp(scope, input, id) => Create(t, scope, input, id)
    case UpdateOp(scope, id, patch) => Update(t, scope, id, patch)
  }

  /** A rejected call leaves the tables as they were. */
  function Next(t: Tables, op: Op): Tables {
    match Attempt(t, op) case Ok(t') => t' case Err(_) => t
  }

  function Run(ops: seq<Op>): Tables {
    if ops == [] then Empty else Next(Run(ops[..|ops| - 1]), ops[|ops| - 1])
  }

  // ---------------------------------------------------------------- chains of parents

  lemma {:induction false} AncestorDepth(nodes: Nodes, d: Id, k: nat)
    requires Forest(nodes) && d in nodes
    ensures Ancestor(nodes, d, k).Some? <==> k <= nodes[d].depth
    ensures Ancestor(nodes, d, k).Some? ==>
              var a := Ancestor(nodes, d, k).value;
              a in nodes && nodes[a].org == nodes[d].org && nodes[a].depth == nodes[d].depth - k
    decreases k
  {
    assert OnLevel(nodes, d);
    if k > 0 && nodes[d].parent.Some? {
      AncestorDepth(nodes, nodes[d].parent.value, k - 1);
    }
  }

  lemma {:induction false} AncestorCompose(nodes: Nodes, d: Id, j: nat, k: nat)
    requires Ancestor(nodes, d, j).Some?
    ensures Ancestor(nodes, d, j + k) == Ancestor(nodes, Ancestor(nodes, d, j).value, k)
    decreases j
  {
    if j > 0 {
      AncestorCompose(nodes, nodes[d].parent.value, j - 1, k);
    }
  }

  /** The stored depth is the length of the chain to a root, and no chain comes back to its start. */
  lemma DepthIsChainLength(nodes: Nodes, d: Id)
    requires Forest(nodes) && d in nodes
    ensures nodes[d].depth >= 0
    ensures forall k: nat :: Ancestor(nodes, d, k).Some? <==> k <= nodes[d].depth
    ensures Ancestor(nodes, d, nodes[d].depth).Some? && nodes[Ancestor(nodes, d, nodes[d].depth).value].parent == None
    ensures forall k: nat :: k > 0 ==> Ancestor(nodes, d, k) != Some(d)
  {
    forall k: nat
      ensures Ancestor(nodes, d, k).Some? <==> k <= nodes[d].depth
      ensures k > 0 ==> Ancestor(nodes, d, k) != Some(d)
    {
      AncestorDepth(nodes, d, k);
    }
    assert Ancestor(nodes, d, 0).Some?;
    AncestorDepth(nodes, d, nodes[d].depth);
    assert OnLevel(nodes, Ancestor(nodes, d, nodes[d].depth).value);
  }

  // ---------------------------------------------------------------- creating a leaf

  lemma {:induction false} AncestorInExtension(nodes: Nodes, id: Id, node: Node, d: Id, k: nat)
    requires Forest(nodes) && id !in nodes && d in nodes
    ensures Ancestor(nodes[id := node], d, k) == Ancestor(nodes, d, k)
    decreases k
  {
    assert OnLevel(nodes, d);
    if k > 0 && nodes[d].parent.Some? {
      AncestorInExtension(nodes, id, node, nodes[d].parent.value, k - 1);
    }
  }

  lemma UnionOfLinks(x: Links, y: Links, a: Id, d: Id, k: nat)
    requires NoCollision(x, y)
    ensures IsLink(Union(x, y), a, d, k) <==> IsLink(x, a, d, k) || IsLink(y, a, d, k)
  {
    assert !(Has(x, a, d) && Has(y, a, d));
  }

  lemma LeafLinksMeaning(links: Links, parent: Option<Id>, n: Id, a: Id, d: Id, k: nat)
    requires parent.Some? ==> !Has(links, n, parent.value)
    ensures IsLink(LeafLinks(links, parent, n), a, d, k) <==>
              d == n && if k == 0 then a == n else parent.Some? && IsLink(links, a, parent.value, k - 1)
  {
  }

  /** No link mentions a node that does not exist. */
  lemma LinksJoinNodes(t: Tables, a: Id, d: Id)
    requires ExactClosure(t) && Has(t.links, a, d)
    ensures a in t.nodes && d in t.nodes
  {
    assert IsLink(t.links, a, d, Dist(t.links, a, d));
  }

  lemma CreateKeepsClosure(t: Tables, id: Id, node: Node)
    requires Valid(t) && id !in t.nodes
    requires node.parent.Some? ==> node.parent.value in t.nodes
    ensures NoCollision(t.links, LeafLinks(t.links, node.parent, id))
    ensures ExactClosure(WithLeaf(t, id, node))
  {
    var leaf := LeafLinks(t.links, node.parent, id);
    NoLinksYet(t, id);
    forall a: Id, d: Id, k: nat
      ensures IsLink(Union(t.links, leaf), a, d, k) <==> Ancestor(t.nodes[id := node], d, k) == Some(a)
    {
      UnionOfLinks(t.links, leaf, a, d, k);
      LeafLinksMeaning(t.links, node.parent, id, a, d, k);
      CreatedLink(t, id, node, a, d, k);
    }
  }

  lemma NoLinksYet(t: Tables, id: Id)
    requires ExactClosure(t) && id !in t.nodes
    ensures forall a :: !Has(t.links, a, id) && !Has(t.links, id, a)
  {
    forall a ensures !Has(t.links, a, id) && !Has(t.links, id, a) {
      if Has(t.links, a, id) {
        LinksJoinNodes(t, a, id);
      }
      if Has(t.links, id, a) {
        LinksJoinNodes(t, id, a);
      }
    }
  }

  lemma CreatedLink(t: Tables, id: Id, node: Node, a: Id, d: Id, k: nat)
    requires Valid(t) && id !in t.nodes
    requires node.parent.Some? ==> node.parent.value in t.nodes
    ensures Ancestor(t.nodes[id := node], d, k) == Some(a) <==>
              IsLink(t.links, a, d, k) ||
              (d == id && if k == 0 then a == id else node.parent.Some? && IsLink(t.links, a, node.parent.value, k - 1))
  {
    LinkMeaning(t, a, d, k);
    if d in t.nodes {
      AncestorInExtension(t.nodes, id, node, d, k);
    } else if d == id && k > 0 && node.parent.Some? {
      AncestorInExtension(t.nodes, id, node, node.parent.value, k - 1);
      LinkMeaning(t, a, node.parent.value, k - 1);
    }
  }

  lemma ForestWithLeaf(nodes: Nodes, id: Id, node: Node)
    requires Forest(nodes) && id !in nodes && node.depth == NextDepth(nodes, node.parent)
    requires node.parent.Some? ==> node.parent.value in nodes && nodes[node.parent.value].org == node.org
    ensures Forest(nodes[id := node])
  {
    if node.parent.Some? {
      DepthIsChainLength(nodes, node.parent.value);
    }
    var nodes' := nodes[id := node];
    forall d | d in nodes' ensures OnLevel(nodes', d) {
      assert d in nodes ==> OnLevel(nodes, d);
    }
  }

  lemma LeafKeepsValid(t: Tables, id: Id, node: Node)
    requires Valid(t) && id !in t.nodes && node.depth == NextDepth(t.nodes, node.parent)
    requires node.parent.Some? ==> node.parent.value in t.nodes && t.nodes[node.parent.value].org == node.org
    ensures Valid(WithLeaf(t, id, node))
  {
    CreateKeepsClosure(t, id, node);
    ForestWithLeaf(t.nodes, id, node);
  }

  lemma CheckedIsCreatable(t: Tables, scope: Scope, input: NodeInput, id: Id)
    requires CheckCreate(t, scope, input, id).Ok?
    ensures id !in t.nodes && !TakenExternalId(t.nodes, scope.org.value, input.externalId)
    ensures var parent := CheckCreate(t, scope, input, id).value;
            parent.Some? ==> parent.value in t.nodes && t.nodes[parent.value].org == scope.org.value
  {
  }

  lemma CreateKeepsValid(t: Tables, scope: Scope, input: NodeInput, id: Id, t': Tables)
    requires Valid(t) && Create(t, scope, input, id) == Ok(t')
    ensures Valid(t')
  {
    var parent := CheckCreate(t, scope, input, id).value;
    LeafKeepsValid(t, id, NewNode(scope.org.value, input, parent, NextDepth(t.nodes, parent)));
  }

  // ---------------------------------------------------------------- moving a subtree

  /** The facts about a move that `update` has checked. */
  ghost predicate Movable(t: Tables, n: Id, parent: Option<Id>) {
    && Valid(t) && n in t.nodes
    && (parent.Some? ==>
          parent.value in t.nodes && t.nodes[parent.value].org == t.nodes[n].org && !Has(t.links, n, parent.value))
  }

  function MovedNodes(t: Tables, n: Id, parent: Option<Id>): Nodes
    requires n in t.nodes
  {
    PointAt(Shifted(t, n, parent), n, parent)
  }

  function PointAt(nodes: Nodes, n: Id, parent: Option<Id>): Nodes
    requires n in nodes
  {
    nodes[n := nodes[n].(parent := parent)]
  }

  /** Being in the subtree means reaching its root, and the distance is the difference of depths. */
  lemma InSubtree(t: Tables, n: Id, d: Id, k: nat)
    requires Valid(t)
    ensures Ancestor(t.nodes, d, k) == Some(n) ==> Has(t.links, n, d) && Dist(t.links, n, d) == k
    ensures Has(t.links, n, d) ==> d in t.nodes && Ancestor(t.nodes, d, Dist(t.links, n, d)) == Some(n)
  {
    assert IsLink(t.links, n, d, k) <==> Ancestor(t.nodes, d, k) == Some(n);
    if Has(t.links, n, d) {
      assert IsLink(t.links, n, d, Dist(t.links, n, d));
    }
  }

  /** Below a subtree is inside it. */
  lemma SubtreeIsClosed(t: Tables, n: Id, a: Id, d: Id)
    requires Valid(t) && Has(t.links, n, a) && Has(t.links, a, d)
    ensures Has(t.links, n, d) && Dist(t.links, n, d) == Dist(t.links, n, a) + Dist(t.links, a, d)
  {
    var j, k := Dist(t.links, a, d), Dist(t.links, n, a);
    InSubtree(t, a, d, j);
    InSubtree(t, n, a, k);
    AncestorCompose(t.nodes, d, j, k);
    InSubtree(t, n, d, j + k);
  }

  /** The two tables have the same nodes, and only n's pointer differs. */
  ghost predicate SamePointersBut(nodes: Nodes, nodes': Nodes, n: Id) {
    nodes.Keys == nodes'.Keys && forall x :: x in nodes && x != n ==> nodes'[x].parent == nodes[x].parent
  }

  /** Whatever points into s is in s. */
  ghost predicate ClosedBelow(nodes: Nodes, s: set<Id>) {
    forall x :: x in nodes && nodes[x].parent.Some? && nodes[x].parent.value in s ==> x in s
  }

  /** Outside the subtree no chain of parents changes. */
  lemma {:induction false} ChainOutside(nodes: Nodes, nodes': Nodes, n: Id, s: set<Id>, d: Id, k: nat)
    requires SamePointersBut(nodes, nodes', n) && ClosedBelow(nodes, s) && n in s && d !in s
    ensures Ancestor(nodes', d, k) == Ancestor(nodes, d, k)
    decreases k
  {
    if k > 0 && d in nodes && nodes[d].parent.Some? {
      ChainOutside(nodes, nodes', n, s, nodes[d].parent.value, k - 1);
    }
  }

  /** Inside the subtree a chain is the old one up to the moved node, and the new parent's beyond it. */
  lemma {:induction false} ChainInside(nodes: Nodes, nodes': Nodes, n: Id, s: set<Id>, d: Id, j: nat, k: nat)
    requires Forest(nodes) && SamePointersBut(nodes, nodes', n) && ClosedBelow(nodes, s) && n in s && n in nodes
    requires Ancestor(nodes, d, j) == Some(n)
    requires nodes'[n].parent.Some? ==> nodes'[n].parent.value !in s
    ensures Ancestor(nodes', d, k) ==
            if k <= j then Ancestor(nodes, d, k)
            else if nodes'[n].parent.None? then None
            else Ancestor(nodes, nodes'[n].parent.value, k - j - 1)
    decreases k
  {
    AncestorDepth(nodes, d, j);
    if k > 0 {
      if d == n {
        if nodes'[n].parent.Some? {
          ChainOutside(nodes, nodes', n, s, nodes'[n].parent.value, k - 1);
        }
      } else {
        ChainInside(nodes, nodes', n, s, nodes[d].parent.value, j - 1, k - 1);
      }
    }
  }

  lemma SubtreeClosedBelow(t: Tables, n: Id)
    requires Valid(t) && n in t.nodes
    ensures n in Subtree(t.links, n) && ClosedBelow(t.nodes, Subtree(t.links, n))
  {
    InSubtree(t, n, n, 0);
    forall x | x in t.nodes && t.nodes[x].parent.Some? && t.nodes[x].parent.value in Subtree(t.links, n)
      ensures x in Subtree(t.links, n)
    {
      var p := t.nodes[x].parent.value;
      InSubtree(t, n, p, 0);
      InSubtree(t, n, x, Dist(t.links, n, p) + 1);
    }
  }

  lemma MovedPointers(t: Tables, n: Id, parent: Option<Id>)
    requires n in t.nodes
    ensures SamePointersBut(t.nodes, MovedNodes(t, n, parent), n) && MovedNodes(t, n, parent)[n].parent == parent
  {
  }

  /** Of two ancestors of a node, the nearer one is in the other's subtree. */
  lemma NearerAncestor(t: Tables, n: Id, a: Id, d: Id)
    requires Valid(t) && Has(t.links, n, d) && Has(t.links, a, d)
    ensures Has(t.links, n, a) <==> Dist(t.links, a, d) <= Dist(t.links, n, d)
  {
    var j, k := Dist(t.links, n, d), Dist(t.links, a, d);
    if Has(t.links, n, a) {
      SubtreeIsClosed(t, n, a, d);
    }
    if k <= j {
      InSubtree(t, n, d, j);
      InSubtree(t, a, d, k);
      AncestorCompose(t.nodes, d, k, j - k);
      InSubtree(t, n, a, j - k);
    }
  }

  lemma KeptMeaning(links: Links, n: Id, a: Id, d: Id, k: nat)
    ensures IsLink(WithoutCrossing(links, Subtree(links, n)), a, d, k) <==>
              IsLink(links, a, d, k) && (Has(links, n, d) ==> Has(links, n, a))
  {
  }

  lemma GraftedMeaning(links: Links, n: Id, parent: Option<Id>, a: Id, d: Id, k: nat)
    ensures IsLink(Grafted(links, parent, n), a, d, k) <==>
              && Has(links, n, d) && parent.Some? && k > Dist(links, n, d)
              && IsLink(links, a, parent.value, k - Dist(links, n, d) - 1)
  {
  }

  /** A grafted link never has the key of a link that is already there. */
  lemma GraftNeverCollides(t: Tables, n: Id, parent: Option<Id>)
    requires Movable(t, n, parent)
    ensures NoCollision(WithoutCrossing(t.links, Subtree(t.links, n)), Grafted(t.links, parent, n))
  {
    forall a, d ensures !(Has(WithoutCrossing(t.links, Subtree(t.links, n)), a, d) && Has(Grafted(t.links, parent, n), a, d)) {
      if Has(t.links, n, a) && parent.Some? && Has(t.links, a, parent.value) {
        SubtreeIsClosed(t, n, a, parent.value);
      }
    }
  }

  lemma MoveKeepsClosure(t: Tables, n: Id, parent: Option<Id>)
    requires Movable(t, n, parent)
    ensures ExactClosure(Tables(MovedNodes(t, n, parent), MoveLinks(t.links, parent, n)))
  {
    forall a: Id, d: Id, k: nat
      ensures IsLink(MoveLinks(t.links, parent, n), a, d, k) <==> Ancestor(MovedNodes(t, n, parent), d, k) == Some(a)
    {
      MovedLink(t, n, parent, a, d, k);
    }
  }

  lemma MovedLink(t: Tables, n: Id, parent: Option<Id>, a: Id, d: Id, k: nat)
    requires Movable(t, n, parent)
    ensures IsLink(MoveLinks(t.links, parent, n), a, d, k) <==> Ancestor(MovedNodes(t, n, parent), d, k) == Some(a)
  {
    GraftNeverCollides(t, n, parent);
    UnionOfLinks(WithoutCrossing(t.links, Subtree(t.links, n)), Grafted(t.links, parent, n), a, d, k);
    KeptMeaning(t.links, n, a, d, k);
    GraftedMeaning(t.links, n, parent, a, d, k);
    if Has(t.links, n, d) {
      MovedLinkInside(t, n, parent, a, d, k);
    } else {
      MovedLinkOutside(t, n, parent, a, d, k);
    }
  }

  lemma MovedLinkOutside(t: Tables, n: Id, parent: Option<Id>, a: Id, d: Id, k: nat)
    requires Movable(t, n, parent) && !Has(t.links, n, d)
    ensures Ancestor(MovedNodes(t, n, parent), d, k) == Some(a) <==> IsLink(t.links, a, d, k)
  {
    MovedPointers(t, n, parent);
    SubtreeClosedBelow(t, n);
    ChainOutside(t.nodes, MovedNodes(t, n, parent), n, Subtree(t.links, n), d, k);
    LinkMeaning(t, a, d, k);
  }

  lemma LinkMeaning(t: Tables, a: Id, d: Id, k: nat)
    requires ExactClosure(t)
    ensures IsLink(t.links, a, d, k) <==> Ancestor(t.nodes, d, k) == Some(a)
  {
  }

  lemma MovedLinkInside(t: Tables, n: Id, parent: Option<Id>, a: Id, d: Id, k: nat)
    requires Movable(t, n, parent) && Has(t.links, n, d)
    ensures Ancestor(MovedNodes(t, n, parent), d, k) == Some(a) <==>
              (IsLink(t.links, a, d, k) && Has(t.links, n, a)) ||
              (parent.Some? && k > Dist(t.links, n, d) && IsLink(t.links, a, parent.value, k - Dist(t.links, n, d) - 1))
  {
    var j := Dist(t.links, n, d);
    MovedPointers(t, n, parent);
    SubtreeClosedBelow(t, n);
    InSubtree(t, n, d, j);
    ChainInside(t.nodes, MovedNodes(t, n, parent), n, Subtree(t.links, n), d, j, k);
    LinkMeaning(t, a, d, k);
    if IsLink(t.links, a, d, k) {
      NearerAncestor(t, n, a, d);
    }
    if k > j && parent.Some? {
      LinkMeaning(t, a, parent.value, k - j - 1);
    }
  }

  /** A proper descendant hangs from a node of the subtree, which lies no higher than its root. */
  lemma SubtreeStep(t: Tables, n: Id, d: Id)
    requires Valid(t) && n in t.nodes && d != n && Has(t.links, n, d)
    ensures d in t.nodes && t.nodes[d].parent.Some? && Has(t.links, n, t.nodes[d].parent.value)
    ensures t.nodes[d].depth > t.nodes[n].depth
  {
    var j := Dist(t.links, n, d);
    InSubtree(t, n, d, j);
    AncestorDepth(t.nodes, d, j);
    InSubtree(t, n, t.nodes[d].parent.value, j - 1);
  }

  lemma MoveKeepsForest(t: Tables, n: Id, parent: Option<Id>)
    requires Movable(t, n, parent)
    ensures Forest(MovedNodes(t, n, parent))
  {
    SubtreeClosedBelow(t, n);
    forall d | d in t.nodes
      ensures OnLevel(MovedNodes(t, n, parent), d)
    {
      assert OnLevel(t.nodes, d);
      if d == n {
        if parent.Some? {
          DepthIsChainLength(t.nodes, parent.value);
        }
      } else if Has(t.links, n, d) {
        StaysOnLevel(t, n, parent, d);
      }
    }
  }

  lemma StaysOnLevel(t: Tables, n: Id, parent: Option<Id>, d: Id)
    requires Movable(t, n, parent) && d != n && Has(t.links, n, d) && d in t.nodes
    ensures OnLevel(MovedNodes(t, n, parent), d)
  {
    SubtreeStep(t, n, d);
    var p := t.nodes[d].parent.value;
    assert OnLevel(t.nodes, d);
    if p != n {
      SubtreeStep(t, n, p);
    }
    if parent.Some? {
      DepthIsChainLength(t.nodes, parent.value);
    }
  }

  // ---------------------------------------------------------------- every update, every run

  /** The two tables agree on everything the hierarchy depends on. */
  ghost predicate SameShape(x: Nodes, y: Nodes) {
    x.Keys == y.Keys && forall d :: d in x ==>
      x[d].org == y[d].org && x[d].externalId == y[d].externalId && x[d].parent == y[d].parent && x[d].depth == y[d].depth
  }

  lemma {:induction false} ShapeFixesChains(x: Nodes, y: Nodes, d: Id, k: nat)
    requires x.Keys == y.Keys && forall e :: e in x ==> x[e].parent == y[e].parent
    ensures Ancestor(x, d, k) == Ancestor(y, d, k)
    decreases k
  {
    if k > 0 && d in x && x[d].parent.Some? {
      ShapeFixesChains(x, y, x[d].parent.value, k - 1);
    }
  }

  lemma ShapeFixesForest(x: Nodes, y: Nodes)
    requires SameShape(x, y) && Forest(x)
    ensures Forest(y)
  {
    forall d | d in y ensures OnLevel(y, d) {
      assert OnLevel(x, d);
    }
  }

  lemma ShapeFixesValid(x: Nodes, y: Nodes, links: Links)
    requires SameShape(x, y) && Valid(Tables(x, links))
    ensures Valid(Tables(y, links))
  {
    ShapeFixesForest(x, y);
    forall a: Id, d: Id, k: nat
      ensures IsLink(links, a, d, k) <==> Ancestor(y, d, k) == Some(a)
    {
      LinkMeaning(Tables(x, links), a, d, k);
      ShapeFixesChains(x, y, d, k);
    }
  }

  lemma MoveKeepsValid(t: Tables, n: Id, parent: Option<Id>)
    requires Movable(t, n, parent)
    ensures Valid(Tables(MovedNodes(t, n, parent), MoveLinks(t.links, parent, n)))
  {
    MoveKeepsForest(t, n, parent);
    MoveKeepsClosure(t, n, parent);
  }

  lemma CheckedIsMovable(t: Tables, scope: Scope, n: Id, patch: NodePatch)
    requires Valid(t) && CheckUpdate(t, scope, n, patch).Ok?
    ensures Movable(t, n, CheckUpdate(t, scope, n, patch).value)
  {
  }

  lemma PatchKeepsShape(nodes: Nodes, n: Id, patch: NodePatch, parent: Option<Id>)
    requires n in nodes && !patch.parent.Unset?
    ensures SameShape(PointAt(nodes, n, parent), PatchAt(nodes, n, patch, parent))
  {
  }

  lemma MoveSubtreeKeepsValid(t: Tables, n: Id, patch: NodePatch, parent: Option<Id>)
    requires Movable(t, n, parent) && !patch.parent.Unset?
    ensures Valid(MoveSubtree(t, n, patch, parent))
  {
    MoveKeepsValid(t, n, parent);
    PatchKeepsShape(Shifted(t, n, parent), n, patch, parent);
    ShapeFixesValid(MovedNodes(t, n, parent), MoveSubtree(t, n, patch, parent).nodes, MoveLinks(t.links, parent, n));
  }

  lemma UpdateKeepsValid(t: Tables, scope: Scope, n: Id, patch: NodePatch, t': Tables)
    requires Valid(t) && Update(t, scope, n, patch) == Ok(t')
    ensures Valid(t')
  {
    CheckedIsMovable(t, scope, n, patch);
    var parent := CheckUpdate(t, scope, n, patch).value;
    if patch.parent.Unset? || parent == t.nodes[n].parent {
      ShapeFixesValid(t.nodes, EditInPlace(t, n, patch).nodes, t.links);
    } else {
      MoveSubtreeKeepsValid(t, n, patch, parent);
    }
  }

  lemma NextKeepsValid(t: Tables, op: Op)
    requires Valid(t)
    ensures Valid(Next(t, op))
  {
    match Attempt(t, op)
    case Err(_) =>
    case Ok(t') =>
      match op {
        case CreateOp(scope, input, id) => CreateKeepsValid(t, scope, input, id, t');
        case UpdateOp(scope, id, patch) => UpdateKeepsValid(t, scope, id, patch, t');
      }
  }

  lemma {:induction false} RunKeepsValid(ops: seq<Op>)
    ensures Valid(Run(ops))
  {
    if ops == [] {
      forall a: Id, d: Id, k: nat ensures IsLink(Empty.links, a, d, k) <==> Ancestor(Empty.nodes, d, k) == Some(a) {
      }
    } else {
      RunKeepsValid(ops[..|ops| - 1]);
      NextKeepsValid(Run(ops[..|ops| - 1]), ops[|ops| - 1]);
    }
  }

  /** After any creates and updates, a link (a, d, k) exists exactly when following the parent pointer
      k times from d reaches a. */
  lemma ClosureAfterAnyRun(ops: seq<Op>, a: Id, d: Id, k: nat)
    ensures IsLink(Run(ops).links, a, d, k) <==> Ancestor(Run(ops).nodes, d, k) == Some(a)
  {
    RunKeepsValid(ops);
  }

  /** After any creates and updates the pointers are acyclic, stay inside one organisation, and the stored
      depth is the length of the chain to a root. */
  lemma ForestAfterAnyRun(ops: seq<Op>, d: Id, k: nat)
    requires d in Run(ops).nodes
    ensures var nodes := Run(ops).nodes;
            && (Ancestor(nodes, d, k).Some? <==> k <= nodes[d].depth)
            && (k > 0 ==> Ancestor(nodes, d, k) != Some(d))
            && (Ancestor(nodes, d, k).Some? ==>
                  var a := Ancestor(nodes, d, k).value;
                  nodes[a].org == nodes[d].org && (k == nodes[d].depth <==> nodes[a].parent == None))
  {
    RunKeepsValid(ops);
    var nodes := Run(ops).nodes;
    AncestorDepth(nodes, d, k);
    if Ancestor(nodes, d, k).Some? {
      assert OnLevel(nodes, Ancestor(nodes, d, k).value);
    }
  }

  // ---------------------------------------------------------------- what a move changes, and undoing it

  /** d is n or lies somewhere below it. */
  ghost predicate Descends(nodes: Nodes, d: Id, n: Id) {
    exists k: nat :: Ancestor(nodes, d, k) == Some(n)
  }

  /** The closure lookup is an exact cycle test: it refuses a parent precisely when the parent hangs below the node. */
  lemma CycleTestIsExact(t: Tables, n: Id, p: Id)
    requires Valid(t)
    ensures Has(t.links, n, p) <==> Descends(t.nodes, p, n)
  {
    if Has(t.links, n, p) {
      InSubtree(t, n, p, 0);
    } else {
      forall k: nat ensures Ancestor(t.nodes, p, k) != Some(n) {
        InSubtree(t, n, p, k);
      }
    }
  }

  /** A move changes no link except those that lead into the subtree from outside it, and those become
      exactly the links from the new parent and its ancestors. */
  lemma {:induction false} MoveChangesOnlyCrossingLinks(t: Tables, n: Id, parent: Option<Id>, a: Id, d: Id, k: nat)
    requires Movable(t, n, parent)
    ensures var links' := MoveLinks(t.links, parent, n);
            if Has(t.links, n, d) && !Has(t.links, n, a) then
              (IsLink(links', a, d, k) <==>
               parent.Some? && k > Dist(t.links, n, d) && IsLink(t.links, a, parent.value, k - 1 - Dist(t.links, n, d)))
            else (IsLink(links', a, d, k) <==> IsLink(t.links, a, d, k))
  {
    GraftNeverCollides(t, n, parent);
    UnionOfLinks(WithoutCrossing(t.links, Subtree(t.links, n)), Grafted(t.links, parent, n), a, d, k);
    KeptMeaning(t.links, n, a, d, k);
    GraftedMeaning(t.links, n, parent, a, d, k);
    if Has(t.links, n, a) && parent.Some? && Has(t.links, a, parent.value) {
      SubtreeIsClosed(t, n, a, parent.value);
    }
  }

  /** The parent pointers determine the depths and the closure. */
  lemma PointersDetermineTables(x: Tables, y: Tables)
    requires Valid(x) && Valid(y)
    requires x.nodes.Keys == y.nodes.Keys && forall d :: d in x.nodes ==> x.nodes[d].parent == y.nodes[d].parent
    ensures x.links == y.links
    ensures forall d :: d in x.nodes ==> x.nodes[d].depth == y.nodes[d].depth
  {
    forall d | d in x.nodes ensures x.nodes[d].depth == y.nodes[d].depth {
      DepthIsChainLength(x.nodes, d);
      DepthIsChainLength(y.nodes, d);
      ShapeFixesChains(x.nodes, y.nodes, d, x.nodes[d].depth);
      ShapeFixesChains(x.nodes, y.nodes, d, x.nodes[d].depth + 1);
    }
    forall d | d in x.links ensures x.links[d] == y.links[d] {
      SameChainsSameRow(x, y, d);
    }
    assert x.links == y.links;
  }

  lemma SameChainsSameRow(x: Tables, y: Tables, d: Id)
    requires ExactClosure(x) && ExactClosure(y) && d in x.links && d in y.links
    requires x.nodes.Keys == y.nodes.Keys && forall e :: e in x.nodes ==> x.nodes[e].parent == y.nodes[e].parent
    ensures x.links[d] == y.links[d]
  {
    forall a | a in x.links[d] || a in y.links[d]
      ensures a in x.links[d] && a in y.links[d] && x.links[d][a] == y.links[d][a]
    {
      var k := if a in x.links[d] then x.links[d][a] else y.links[d][a];
      LinkMeaning(x, a, d, k);
      LinkMeaning(y, a, d, k);
      ShapeFixesChains(x.nodes, y.nodes, d, k);
    }
  }

  /** The tables after moving a subtree and editing nothing else. */
  function Moved(t: Tables, n: Id, parent: Option<Id>): Tables
    requires n in t.nodes
  {
    Tables(MovedNodes(t, n, parent), MoveLinks(t.links, parent, n))
  }

  lemma HomeIsStillOutside(t: Tables, n: Id, parent: Option<Id>)
    requires Movable(t, n, parent)
    ensures Movable(Moved(t, n, parent), n, t.nodes[n].parent)
  {
    assert OnLevel(t.nodes, n);
    MoveKeepsValid(t, n, parent);
    if t.nodes[n].parent.Some? {
      var p := t.nodes[n].parent.value;
      HomeIsOutside(t, n);
      if Has(MoveLinks(t.links, parent, n), n, p) {
        MoveChangesOnlyCrossingLinks(t, n, parent, n, p, Dist(MoveLinks(t.links, parent, n), n, p));
      }
    }
  }

  /** Moving a subtree away and then back under its old parent restores nodes, depths and links exactly. */
  lemma {:induction false} MoveBackRestores(t: Tables, n: Id, parent: Option<Id>)
    requires Movable(t, n, parent)
    ensures Movable(Moved(t, n, parent), n, t.nodes[n].parent)
    ensures Moved(Moved(t, n, parent), n, t.nodes[n].parent) == t
  {
    var away := Moved(t, n, parent);
    var home := t.nodes[n].parent;
    HomeIsStillOutside(t, n, parent);
    MoveKeepsValid(away, n, home);
    var again := Moved(away, n, home);
    MoveSetsOnePointer(t, n, parent);
    MoveSetsOnePointer(away, n, home);
    SetBack(t.nodes, away.nodes, again.nodes, n, parent);
    SamePointersSameTables(t, again);
  }

  /** The tables differ only in depths, and in the parent of n, which is set to `parent`. */
  ghost predicate PointerSet(x: Nodes, y: Nodes, n: Id, parent: Option<Id>) {
    n in x && SameButDepths(x[n := x[n].(parent := parent)], y)
  }

  ghost predicate SameButDepths(x: Nodes, y: Nodes) {
    x.Keys == y.Keys && forall d :: d in x ==> y[d] == x[d].(depth := y[d].depth)
  }

  lemma ShiftAndPoint(nodes: Nodes, s: set<Id>, delta: int, n: Id, parent: Option<Id>)
    requires n in nodes
    ensures PointerSet(nodes, PointAt(ShiftDepths(nodes, s, delta), n, parent), n, parent)
  {
  }

  lemma MoveSetsOnePointer(t: Tables, n: Id, parent: Option<Id>)
    requires n in t.nodes
    ensures PointerSet(t.nodes, MovedNodes(t, n, parent), n, parent)
  {
    ShiftAndPoint(t.nodes, Subtree(t.links, n), NextDepth(t.nodes, parent) - t.nodes[n].depth, n, parent);
  }

  lemma SetBack(x: Nodes, y: Nodes, z: Nodes, n: Id, parent: Option<Id>)
    requires n in x && PointerSet(x, y, n, parent) && PointerSet(y, z, n, x[n].parent)
    ensures SameButDepths(x, z)
  {
  }

  lemma SamePointersSameTables(x: Tables, y: Tables)
    requires Valid(x) && Valid(y) && SameButDepths(x.nodes, y.nodes)
    ensures x == y
  {
    PointersDetermineTables(x, y);
    assert x.nodes == y.nodes;
  }

  /** The patch that changes nothing but the parent. */
  function OnlyParent(parent: Option<Id>): NodePatch {
    NodePatch(None, None, if parent.Some? then Under(parent.value) else Null, None, None)
  }

  lemma UpdateOfParent(t: Tables, scope: Scope, n: Id, parent: Option<Id>)
    requires n in t.nodes && CheckUpdate(t, scope, n, OnlyParent(parent)) == Ok(parent)
    ensures Update(t, scope, n, OnlyParent(parent)) == Ok(if parent == t.nodes[n].parent then t else Moved(t, n, parent))
  {
    if parent == t.nodes[n].parent {
      assert EditInPlace(t, n, OnlyParent(parent)) == t;
    } else {
      assert PatchAt(Shifted(t, n, parent), n, OnlyParent(parent), parent) == PointAt(Shifted(t, n, parent), n, parent);
    }
  }

  /** A change of parent that keeps the forest a forest is accepted exactly if the caller may address the node. */
  lemma MovableIsAccepted(t: Tables, scope: Scope, n: Id, parent: Option<Id>)
    requires Movable(t, n, parent)
    ensures CheckUpdate(t, scope, n, OnlyParent(parent)).Ok? <==> Visible(t, scope, n).Ok?
    ensures Visible(t, scope, n).Ok? ==> CheckUpdate(t, scope, n, OnlyParent(parent)) == Ok(parent)
    ensures Visible(t, scope, n).Err? ==> CheckUpdate(t, scope, n, OnlyParent(parent)) == Err(Visible(t, scope, n).error)
  {
    InSubtree(t, n, n, 0);
  }

  /** After a move a node above the new parent, and the moved node itself, are above the moved node; of the others
      none is. */
  lemma AboveAfterMove(t: Tables, n: Id, parent: Option<Id>, g: Id)
    requires Movable(t, n, parent)
    ensures Has(Moved(t, n, parent).links, g, n) <==> g == n || (parent.Some? && Has(t.links, g, parent.value))
  {
    var t' := Moved(t, n, parent);
    MoveKeepsValid(t, n, parent);
    InSubtree(t', n, n, 0);
    if g != n {
      NothingAboveItself(t, n, g);
      if parent.Some? && Has(t.links, g, parent.value) {
        if Has(t.links, n, g) {
          SubtreeIsClosed(t, n, g, parent.value);
        }
        LinkToSelf(t, n);
        MoveChangesOnlyCrossingLinks(t, n, parent, g, n, Dist(t.links, g, parent.value) + 1);
      }
      if Has(t'.links, g, n) {
        LinkToSelf(t, n);
        MoveChangesOnlyCrossingLinks(t, n, parent, g, n, Dist(t'.links, g, n));
      }
    }
  }

  lemma LinkToSelf(t: Tables, n: Id)
    requires Valid(t) && n in t.nodes
    ensures Has(t.links, n, n) && Dist(t.links, n, n) == 0
  {
    InSubtree(t, n, n, 0);
  }

  /** Of two different nodes at most one is above the other. */
  lemma NothingAboveItself(t: Tables, n: Id, g: Id)
    requires Valid(t) && n in t.nodes && g != n
    ensures !(Has(t.links, n, g) && Has(t.links, g, n))
  {
    if Has(t.links, n, g) && Has(t.links, g, n) {
      SubtreeIsClosed(t, n, g, n);
      LinkToSelf(t, n);
      InSubtree(t, n, g, 0);
    }
  }

  /** Whether the caller can move the node back: supervisors must move their own node, or move to where they can see. */
  predicate KeepsInSight(t: Tables, scope: Scope, n: Id, parent: Option<Id>) {
    scope.role == Supervisor && scope.geographyNode.Some? ==>
      scope.geographyNode.value == n || (parent.Some? && Has(t.links, scope.geographyNode.value, parent.value))
  }

  lemma SightAfterMove(t: Tables, scope: Scope, n: Id, parent: Option<Id>)
    requires Movable(t, n, parent) && Visible(t, scope, n).Ok?
    ensures Visible(Moved(t, n, parent), scope, n) == if KeepsInSight(t, scope, n, parent) then Ok(n) else Err(OutsideScope)
  {
    MoveSetsOnePointer(t, n, parent);
    if scope.role == Supervisor {
      AboveAfterMove(t, n, parent, scope.geographyNode.value);
    }
  }

  lemma MoveIsUndoneByUpdate(t: Tables, scope: Scope, n: Id, parent: Option<Id>)
    requires Movable(t, n, parent) && Visible(t, scope, n).Ok? && parent != t.nodes[n].parent
    ensures Update(Moved(t, n, parent), scope, n, OnlyParent(t.nodes[n].parent))
         == if KeepsInSight(t, scope, n, parent) then Ok(t) else Err(OutsideScope)
  {
    MoveBackRestores(t, n, parent);
    MoveSetsOnePointer(t, n, parent);
    SightAfterMove(t, scope, n, parent);
    MovableIsAccepted(Moved(t, n, parent), scope, n, t.nodes[n].parent);
    if KeepsInSight(t, scope, n, parent) {
      UpdateOfParent(Moved(t, n, parent), scope, n, t.nodes[n].parent);
    }
  }

  /** Every accepted change of parent succeeds. A second update that names the old parent restores everything if and
      only if the caller still sees the node, which could be told before the first update; otherwise it is refused. */
  lemma UpdateCanBeUndone(t: Tables, scope: Scope, n: Id, parent: Option<Id>) returns (t': Tables)
    requires Valid(t) && CheckUpdate(t, scope, n, OnlyParent(parent)).Ok?
    ensures Update(t, scope, n, OnlyParent(parent)) == Ok(t')
    ensures n in t.nodes
    ensures Update(t', scope, n, OnlyParent(t.nodes[n].parent))
         == if KeepsInSight(t, scope, n, parent) then Ok(t) else Err(OutsideScope)
  {
    CheckedIsMovable(t, scope, n, OnlyParent(parent));
    UpdateOfParent(t, scope, n, parent);
    if parent == t.nodes[n].parent {
      t' := t;
      StaysInSight(t, scope, n);
    } else {
      MoveIsUndoneByUpdate(t, scope, n, parent);
      t' := Moved(t, n, parent);
    }
  }

  /** A node in sight whose parent does not change stays in sight. */
  lemma StaysInSight(t: Tables, scope: Scope, n: Id)
    requires Valid(t) && Visible(t, scope, n).Ok?
    ensures KeepsInSight(t, scope, n, t.nodes[n].parent)
  {
    if scope.role == Supervisor && scope.geographyNode.value != n {
      InSubtree(t, scope.geographyNode.value, scope.geographyNode.value, 0);
      InSubtree(t, scope.geographyNode.value, n, 0);
      assert scope.geographyNode.value in t.nodes;
      SubtreeStep(t, scope.geographyNode.value, n);
    }
  }

  function CreateNamed(name: string, parent: ParentInput, id: Id): Op {
    CreateOp(Scope(Some(0), Admin, None), NodeInput(name, Region, name, parent, None, None), id)
  }

  /** The nodes with one more, of organisation 0. */
  ghost predicate Added(x: Nodes, y: Nodes, id: Id, name: string, parent: Option<Id>) {
    && y.Keys == x.Keys + {id} && (forall d :: d in x ==> y[d] == x[d])
    && y[id].parent == parent && y[id].org == 0 && y[id].externalId == name
  }

  lemma NamedNodeIsCreated(t: Tables, name: string, parent: ParentInput, id: Id)
    requires CleanExternalId(name) && id !in t.nodes && (forall d :: d in t.nodes ==> t.nodes[d].externalId != name)
    requires LookUpParent(t.nodes, 0, parent).Ok?
    ensures Added(t.nodes, Next(t, CreateNamed(name, parent, id)).nodes, id, name, LookUpParent(t.nodes, 0, parent).value)
  {
  }

  lemma RunOneMore(ops: seq<Op>, op: Op)
    ensures Run(ops + [op]) == Next(Run(ops), op)
  {
    assert (ops + [op])[..|ops|] == ops;
  }

  /** Two regions, and a ward in the first of them. */
  function TwoRegions(): seq<Op> {
    [] + [CreateNamed("a", Unset, 1)] + [CreateNamed("b", Unset, 2)] + [CreateNamed("c", Under(1), 3)]
  }

  lemma OneRegionNodes()
    ensures Added(map[], Run([] + [CreateNamed("a", Unset, 1)]).nodes, 1, "a", None)
  {
    RunOneMore([], CreateNamed("a", Unset, 1));
    NamedNodeIsCreated(Empty, "a", Unset, 1);
  }

  lemma SecondRegionNodes(ops: seq<Op>, x: Nodes)
    requires x == Run(ops).nodes && Added(map[], x, 1, "a", None)
    ensures Added(x, Run(ops + [CreateNamed("b", Unset, 2)]).nodes, 2, "b", None)
  {
    RunOneMore(ops, CreateNamed("b", Unset, 2));
    NamedNodeIsCreated(Run(ops), "b", Unset, 2);
  }

  lemma WardNodes(ops: seq<Op>, x: Nodes, y: Nodes)
    requires y == Run(ops).nodes && Added(map[], x, 1, "a", None) && Added(x, y, 2, "b", None)
    ensures Added(y, Run(ops + [CreateNamed("c", Under(1), 3)]).nodes, 3, "c", Some(1))
  {
    RunOneMore(ops, CreateNamed("c", Under(1), 3));
    NamedNodeIsCreated(Run(ops), "c", Under(1), 3);
  }

  lemma TwoRegionsNodes()
    ensures var nodes := Run(TwoRegions()).nodes;
            && nodes.Keys == {1, 2, 3} && nodes[1].parent == nodes[2].parent == None && nodes[3].parent == Some(1)
            && nodes[1].org == nodes[2].org == nodes[3].org == 0
  {
    var one := [] + [CreateNamed("a", Unset, 1)];
    var two := one + [CreateNamed("b", Unset, 2)];
    OneRegionNodes();
    SecondRegionNodes(one, Run(one).nodes);
    WardNodes(two, Run(one).nodes, Run(two).nodes);
  }

  /** The refusal happens: the supervisor of the first region moves its ward to the second one, and cannot take it back. */
  lemma UndoCanBeRefused() returns (t': Tables)
    ensures var t, supervisor := Run(TwoRegions()), Scope(Some(0), Supervisor, Some(1));
            && 3 in t.nodes && t.nodes[3].parent == Some(1)
            && Update(t, supervisor, 3, OnlyParent(Some(2))) == Ok(t')
            && Update(t', supervisor, 3, OnlyParent(Some(1))) == Err(OutsideScope)
  {
    var t, supervisor := Run(TwoRegions()), Scope(Some(0), Supervisor, Some(1));
    RunKeepsValid(TwoRegions());
    TwoRegionsNodes();
    assert Ancestor(t.nodes, 3, 1) == Ancestor(t.nodes, 1, 0) == Some(1);
    InSubtree(t, 1, 3, 1);
    forall k: nat ensures Ancestor(t.nodes, 2, k) == (if k == 0 then Some(2) else None) {
    }
    CycleTestIsExact(t, 3, 2);
    CycleTestIsExact(t, 1, 2);
    assert CheckUpdate(t, supervisor, 3, OnlyParent(Some(2))).Ok?;
    t' := UpdateCanBeUndone(t, supervisor, 3, Some(2));
  }

  lemma HomeIsOutside(t: Tables, n: Id)
    requires Valid(t) && n in t.nodes && t.nodes[n].parent.Some?
    ensures !Has(t.links, n, t.nodes[n].parent.value)
  {
    var p := t.nodes[n].parent.value;
    if Has(t.links, n, p) {
      InSubtree(t, n, p, 0);
      InSubtree(t, n, n, Dist(t.links, n, p) + 1);
      DepthIsChainLength(t.nodes, n);
    }
  }

  // ---------------------------------------------------------------- who sees what

  /** A supervisor sees exactly the subtree of the assigned node; anyone else sees the organisation. */
  lemma VisibleMeaning(t: Tables, scope: Scope, n: Id)
    requires Valid(t)
    ensures Visible(t, scope, n).Ok? <==>
              scope.org.Some? && n in t.nodes && t.nodes[n].org == scope.org.value &&
              (scope.role == Supervisor ==>
                 scope.geographyNode.Some? && Descends(t.nodes, n, scope.geographyNode.value))
  {
    if scope.geographyNode.Some? {
      CycleTestIsExact(t, scope.geographyNode.value, n);
    }
  }

  /** What a list may be narrowed to: the children of a node or the roots, a kind, the active nodes. */
  datatype ListFilter = ListFilter(parent: ParentInput, kind: Option<Kind>, includeInactive: bool)

  predicate Matches(node: Node, filter: ListFilter) {
    && (filter.parent.Null? ==> node.parent == None)
    && (filter.parent.Under? ==> node.parent == Some(filter.parent.id))
    && (filter.kind.Some? ==> node.kind == filter.kind.value)
    && (!filter.includeInactive ==> node.active)
  }

  /** The nodes that `list` returns. A supervisor without a node gets none; the empty text is no key to look for. */
  function Listed(t: Tables, scope: Scope, filter: ListFilter): Result<set<Id>, Error> {
    if scope.org.None? then Err(NoOrganization)
    else if filter.parent.Under? && Visible(t, scope, filter.parent.id).Err? then
      Err(Visible(t, scope, filter.parent.id).error)
    else if scope.role == Supervisor && scope.geographyNode.None? then Ok({})
    else if filter.parent.Blank? then Err(InvalidReference)
    else
      Ok(set n | n in t.nodes && t.nodes[n].org == scope.org.value && Matches(t.nodes[n], filter) &&
                 (scope.role == Supervisor ==> Has(t.links, scope.geographyNode.value, n)))
  }

  /** A list contains exactly the nodes matching its filter that the caller may address one by one: for supervisors
      those in the subtree of their node. */
  lemma ListedAreVisible(t: Tables, scope: Scope, filter: ListFilter, n: Id)
    requires Valid(t) && Listed(t, scope, filter).Ok?
    ensures n in Listed(t, scope, filter).value <==> Visible(t, scope, n).Ok? && Matches(t.nodes[n], filter)
    ensures n in Listed(t, scope, filter).value && scope.role == Supervisor ==>
              scope.geographyNode.Some? && Descends(t.nodes, n, scope.geographyNode.value)
  {
    VisibleMeaning(t, scope, n);
  }

  // ---------------------------------------------------------------- stable names

  ghost predicate SameNames(x: Nodes, y: Nodes) {
    x.Keys <= y.Keys && forall d :: d in x ==> y[d].org == x[d].org && y[d].externalId == x[d].externalId
  }

  /** An operation never changes the organisation or the external id of a node, and adds no name that is taken. */
  lemma {:induction false} NextKeepsNames(t: Tables, op: Op)
    requires UniqueExternalIds(t.nodes)
    ensures UniqueExternalIds(Next(t, op).nodes)
    ensures SameNames(t.nodes, Next(t, op).nodes)
  {
    if Attempt(t, op).Ok? {
      var t' := Attempt(t, op).value;
      match op {
        case CreateOp(scope, input, id) => CreateKeepsNames(t, scope, input, id, t');
        case UpdateOp(scope, n, patch) =>
          UpdateKeepsNames(t, scope, n, patch, t');
          NamesFixUniqueness(t.nodes, t'.nodes);
      }
    }
  }

  /** In every run external ids are unique within an organisation. */
  lemma {:induction false} NamesInEveryRun(ops: seq<Op>)
    ensures UniqueExternalIds(Run(ops).nodes)
  {
    if ops != [] {
      NamesInEveryRun(ops[..|ops| - 1]);
      NextKeepsNames(Run(ops[..|ops| - 1]), ops[|ops| - 1]);
    }
  }

  lemma CreateKeepsNames(t: Tables, scope: Scope, input: NodeInput, id: Id, t': Tables)
    requires UniqueExternalIds(t.nodes) && Create(t, scope, input, id) == Ok(t')
    ensures UniqueExternalIds(t'.nodes) && SameNames(t.nodes, t'.nodes)
  {
    CheckedIsCreatable(t, scope, input, id);
  }

  lemma UpdateKeepsNames(t: Tables, scope: Scope, n: Id, patch: NodePatch, t': Tables)
    requires Update(t, scope, n, patch) == Ok(t')
    ensures SameNames(t.nodes, t'.nodes) && t.nodes.Keys == t'.nodes.Keys
  {
    MoveSubtreeKeepsNames(t, n, patch, CheckUpdate(t, scope, n, patch).value);
  }

  lemma NamesFixUniqueness(x: Nodes, y: Nodes)
    requires UniqueExternalIds(x) && SameNames(x, y) && x.Keys == y.Keys
    ensures UniqueExternalIds(y)
  {
  }

  lemma MoveSubtreeKeepsNames(t: Tables, n: Id, patch: NodePatch, parent: Option<Id>)
    requires n in t.nodes
    ensures SameNames(t.nodes, MoveSubtree(t, n, patch, parent).nodes)
    ensures MoveSubtree(t, n, patch, parent).nodes.Keys == t.nodes.Keys
  {
    ShiftKeepsNames(t.nodes, Subtree(t.links, n), NextDepth(t.nodes, parent) - t.nodes[n].depth, n, patch, parent);
  }

  lemma ShiftKeepsNames(nodes: Nodes, s: set<Id>, delta: int, n: Id, patch: NodePatch, parent: Option<Id>)
    requires n in nodes
    ensures SameNames(nodes, PatchAt(ShiftDepths(nodes, s, delta), n, patch, parent))
    ensures PatchAt(ShiftDepths(nodes, s, delta), n, patch, parent).Keys == nodes.Keys
  {
  }
}

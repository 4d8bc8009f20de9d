/** Lineages of refresh tokens: an issued token and the ones it was rotated into, in order. */
module Lineage {
  import opened Common
  import opened Stores

  type RefreshToken = string
  type Records = map<Digest, RefreshRecord>

  /** A recorded token's place: the token its lineage was issued with, how many rotations lead
      to it, and whose session it is. */
  datatype Node = Node(root: RefreshToken, depth: nat, subject: string)

  type Nodes = map<RefreshToken, Node>

  predicate Retired(records: Records, t: RefreshToken) {
    Digest(t) in records ==> records[Digest(t)].consumed
  }

  /** A token whose record would still let it be rotated. */
  predicate Live(records: Records, t: RefreshToken) {
    Digest(t) in records && !records[Digest(t)].consumed
  }

  /** Nothing was rotated out of t and recorded. */
  ghost predicate Deepest(nodes: Nodes, t: RefreshToken)
    requires t in nodes
  {
    forall u :: u in nodes && nodes[u].root == nodes[t].root ==> nodes[u].depth <= nodes[t].depth
  }

  /** Stored records have a place. */
  ghost predicate Placed(nodes: Nodes, records: Records) {
    forall d :: d in records ==>
      d.of in nodes && records[d].fingerprint == d && records[d].subject == nodes[d.of].subject
  }

  /** A lineage has one token per depth and one subject; and once a token is recorded every
      earlier one of its lineage is retired. */
  ghost predicate Chained(nodes: Nodes, records: Records) {
    forall t, u :: t in nodes && u in nodes && nodes[t].root == nodes[u].root ==>
      && nodes[t].subject == nodes[u].subject
      && (nodes[t].depth == nodes[u].depth ==> t == u)
      && (nodes[t].depth < nodes[u].depth ==> Retired(records, t))
  }

  ghost predicate Rooted(nodes: Nodes) {
    forall t :: t in nodes ==> nodes[t].root in nodes && nodes[nodes[t].root].root == nodes[t].root
  }

  ghost predicate Coherent(nodes: Nodes, records: Records) {
    Placed(nodes, records) && Chained(nodes, records) && Rooted(nodes)
  }

  ghost predicate OneLivePerLineage(nodes: Nodes, records: Records) {
    forall t, u ::
      t in nodes && u in nodes && nodes[t].root == nodes[u].root && Live(records, t) && Live(records, u) ==> t == u
  }

  /** A coherent store holds at most one live record per lineage, the deepest. */
  lemma CoherentMeansOneLive(nodes: Nodes, records: Records)
    requires Coherent(nodes, records)
    ensures OneLivePerLineage(nodes, records)
    ensures forall t :: t in nodes && Live(records, t) ==> Deepest(nodes, t)
  {
    forall t, u | t in nodes && u in nodes && nodes[t].root == nodes[u].root && Live(records, t) && Live(records, u)
      ensures t == u
    {
      assert !Retired(records, t) && !Retired(records, u);
    }
    forall t, u | t in nodes && Live(records, t) && u in nodes && nodes[u].root == nodes[t].root
      ensures nodes[u].depth <= nodes[t].depth
    {
      assert !Retired(records, t);
    }
  }

  /** Retirement only depends on the records, and a new token's record retires nobody's. */
  lemma ChainsOutlive(nodes: Nodes, records: Records, more: Records)
    requires Chained(nodes, records)
    requires forall u :: u in nodes && Retired(records, u) ==> Retired(more, u)
    ensures Chained(nodes, more)
  {
  }

  lemma IssueKeepsCoherent(nodes: Nodes, records: Records, t: RefreshToken, record: RefreshRecord)
    requires Coherent(nodes, records) && t !in nodes && record.fingerprint == Digest(t)
    ensures Coherent(nodes[t := Node(t, 0, record.subject)], records[Digest(t) := record])
  {
    var nodes', records' := nodes[t := Node(t, 0, record.subject)], records[Digest(t) := record];
    assert Placed(nodes', records');
    assert forall u :: u in nodes ==> nodes[u].root != t;
    ChainsOutlive(nodes, records, records');
    assert Chained(nodes', records');
    assert Rooted(nodes');
  }

  /** The next node after p. */
  function Child(nodes: Nodes, p: RefreshToken): Node
    requires p in nodes
  {
    Node(nodes[p].root, nodes[p].depth + 1, nodes[p].subject)
  }

  lemma RotationKeepsChained(nodes: Nodes, records: Records, p: RefreshToken, t: RefreshToken)
    requires Chained(nodes, records) && t !in nodes
    requires p in nodes && Deepest(nodes, p) && Retired(records, p)
    ensures Chained(nodes[t := Child(nodes, p)], records)
  {
    forall u | u in nodes && nodes[u].root == nodes[p].root
      ensures Retired(records, u) && nodes[u].depth <= nodes[p].depth && nodes[u].subject == nodes[p].subject
    {
    }
  }

  lemma RotationKeepsCoherent(nodes: Nodes, records: Records, p: RefreshToken, t: RefreshToken, record: RefreshRecord)
    requires Coherent(nodes, records) && t !in nodes && record.fingerprint == Digest(t)
    requires p in nodes && Deepest(nodes, p) && Retired(records, p) && record.subject == nodes[p].subject
    ensures Coherent(nodes[t := Child(nodes, p)], records[Digest(t) := record])
  {
    var nodes', records' := nodes[t := Child(nodes, p)], records[Digest(t) := record];
    assert Placed(nodes', records');
    ChainsOutlive(nodes, records, records');
    RotationKeepsChained(nodes, records', p, t);
    assert Rooted(nodes');
  }

  lemma ConsumeKeepsCoherent(nodes: Nodes, records: Records, record: RefreshRecord)
    requires Coherent(nodes, records) && record.consumed
    requires record.fingerprint.of in nodes && record.subject == nodes[record.fingerprint.of].subject
    ensures Coherent(nodes, records[record.fingerprint := record])
  {
    assert forall u :: Retired(records, u) ==> Retired(records[record.fingerprint := record], u);
  }

  lemma EvictionKeepsCoherent(nodes: Nodes, records: Records, gone: set<Digest>)
    requires Coherent(nodes, records)
    ensures Coherent(nodes, records - gone)
  {
    assert forall u :: Retired(records, u) ==> Retired(records - gone, u);
  }
}

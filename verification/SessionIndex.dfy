/** The index of the session store from message ids to tree roots (messaging/session.py). */
module SessionIndex {
  import opened Text

  /** A serialized node, if it is an object. */
  datatype Node = Node(nodeId: Option<string>, statusMessageId: Option<string>) | OtherNode

  datatype Entry = Entry(key: string, node: Node)

  /** A serialized tree; one without any field is empty. */
  datatype Tree = EmptyTree | Tree(nodes: seq<Entry>)

  datatype Store = Store(trees: map<string, Tree>, index: map<string, string>)

  const EMPTY := Store(map[], map[])

  function IfAny(id: Option<string>): set<string> {
    if id.Some? then {id.value} else {}
  }

  function EntryIds(e: Entry): set<string> {
    {e.key} + if e.node.Node? then IfAny(e.node.nodeId) + IfAny(e.node.statusMessageId) else {}
  }

  function EntriesIds(entries: seq<Entry>): set<string> {
    if entries == [] then {} else EntriesIds(entries[..|entries| - 1]) + EntryIds(entries[|entries| - 1])
  }

  function Ids(tree: Tree): set<string> {
    if tree.Tree? then EntriesIds(tree.nodes) else {}
  }

  function Unmapped(index: map<string, string>, root: string): map<string, string> {
    map id | id in index && index[id] != root :: index[id]
  }

  function Save(s: Store, root: string, tree: Tree): Store {
    Store(s.trees[root := tree], Unmapped(s.index, root) + map id | id in Ids(tree) :: root)
  }

  /** A stored tree that is empty leaves the index alone. */
  function Remove(s: Store, root: string): Store {
    if root !in s.trees then s
    else
      var trees := map r | r in s.trees && r != root :: s.trees[r];
      Store(trees, if s.trees[root].Tree? then Unmapped(s.index, root) else s.index)
  }

  datatype Action = SaveAction(root: string, tree: Tree) | RemoveAction(root: string) | ClearAction

  function Apply(s: Store, a: Action): Store {
    match a
    case SaveAction(root, tree) => Save(s, root, tree)
    case RemoveAction(root) => Remove(s, root)
    case ClearAction => EMPTY
  }

  function Run(s: Store, actions: seq<Action>): Store
    decreases |actions|
  {
    if actions == [] then s else Run(Apply(s, actions[0]), actions[1..])
  }

  // ---------------------------------------------------------------- the index and the trees

  predicate Maps(s: Store, id: string, root: string) {
    id in s.index && s.index[id] == root
  }

  predicate Holds(s: Store, id: string, root: string) {
    root in s.trees && id in Ids(s.trees[root])
  }

  /** Whatever is mapped is in the stored tree it is mapped to. */
  ghost predicate Sound(s: Store) {
    forall id, root :: Maps(s, id, root) ==> Holds(s, id, root)
  }

  ghost predicate Exact(s: Store) {
    forall id, root :: Maps(s, id, root) <==> Holds(s, id, root)
  }

  /** No other stored tree has an id of this one. */
  ghost predicate Disjoint(s: Store, root: string, tree: Tree) {
    forall id, other :: Holds(s, id, other) && other != root ==> id !in Ids(tree)
  }

  ghost predicate AllDisjoint(s: Store, actions: seq<Action>)
    decreases |actions|
  {
    actions == []
    || ((actions[0].SaveAction? ==> Disjoint(s, actions[0].root, actions[0].tree))
        && AllDisjoint(Apply(s, actions[0]), actions[1..]))
  }

  /** Saving maps exactly the ids of the tree to its root, whatever the index held before. */
  lemma SaveMapsItsIds(s: Store, root: string, tree: Tree, id: string)
    ensures Maps(Save(s, root, tree), id, root) <==> id in Ids(tree)
    ensures forall other :: other != root ==>
              (Maps(Save(s, root, tree), id, other) <==> Maps(s, id, other) && id !in Ids(tree))
  {
  }

  lemma ApplyKeepsSound(s: Store, a: Action)
    requires Sound(s)
    ensures Sound(Apply(s, a))
  {
    var t := Apply(s, a);
    forall id, root | Maps(t, id, root)
      ensures Holds(t, id, root)
    {
      if a.SaveAction? {
        SaveMapsItsIds(s, a.root, a.tree, id);
      }
      if root in s.trees && id in s.index {
        assert Maps(s, id, s.index[id]);
      }
      assert Maps(s, id, root) ==> Holds(s, id, root);
    }
  }

  lemma {:induction false} RunKeepsSound(s: Store, actions: seq<Action>)
    requires Sound(s)
    ensures Sound(Run(s, actions))
    decreases |actions|
  {
    if actions != [] {
      ApplyKeepsSound(s, actions[0]);
      RunKeepsSound(Apply(s, actions[0]), actions[1..]);
    }
  }

  /** Over every run, even one whose trees share ids, a mapped id is in the tree it leads to. */
  lemma EveryRunIsSound(actions: seq<Action>)
    ensures Sound(Run(EMPTY, actions))
  {
    RunKeepsSound(EMPTY, actions);
  }

  lemma RemoveKeepsExact(s: Store, root: string)
    requires Exact(s)
    ensures Exact(Remove(s, root))
  {
    var t := Remove(s, root);
    forall id, other
      ensures Maps(t, id, other) <==> Holds(t, id, other)
    {
      assert Maps(s, id, other) <==> Holds(s, id, other);
      assert Maps(s, id, root) <==> Holds(s, id, root);
    }
  }

  /** Saving keeps the index exact if and only if the tree shares no id with another one. */
  lemma SaveKeepsExactly(s: Store, root: string, tree: Tree)
    requires Exact(s)
    ensures Exact(Save(s, root, tree)) <==> Disjoint(s, root, tree)
  {
    var t := Save(s, root, tree);
    if Disjoint(s, root, tree) {
      forall id, other
        ensures Maps(t, id, other) <==> Holds(t, id, other)
      {
        SaveMapsItsIds(s, root, tree, id);
        assert Maps(s, id, other) <==> Holds(s, id, other);
      }
    }
    if Exact(t) {
      forall id, other | Holds(s, id, other) && other != root
        ensures id !in Ids(tree)
      {
        SaveMapsItsIds(s, root, tree, id);
        assert Holds(t, id, other);
        assert Maps(t, id, other);
      }
    }
  }

  lemma {:induction false} RunKeepsExact(s: Store, actions: seq<Action>)
    requires Exact(s) && AllDisjoint(s, actions)
    ensures Exact(Run(s, actions))
    decreases |actions|
  {
    if actions != [] {
      match actions[0] {
        case SaveAction(root, tree) => SaveKeepsExactly(s, root, tree);
        case RemoveAction(root) => RemoveKeepsExact(s, root);
        case ClearAction =>
      }
      RunKeepsExact(Apply(s, actions[0]), actions[1..]);
    }
  }

  /** Over every run in which stored trees share no ids, an id leads to a root exactly if the
      root's tree is stored and contains the id. */
  lemma EveryRunIsExact(actions: seq<Action>, id: string, root: string)
    requires AllDisjoint(EMPTY, actions)
    ensures Maps(Run(EMPTY, actions), id, root) <==> Holds(Run(EMPTY, actions), id, root)
  {
    RunKeepsExact(EMPTY, actions);
  }

  // ---------------------------------------------------------------- told from the actions

  /** The id is a key, a node id or a status message id of the entry. */
  predicate Names(e: Entry, id: string) {
    e.key == id || (e.node.Node? && (e.node.nodeId == Some(id) || e.node.statusMessageId == Some(id)))
  }

  lemma {:induction false} EntriesName(entries: seq<Entry>, id: string)
    ensures id in EntriesIds(entries) <==> exists e :: e in entries && Names(e, id)
  {
    if entries != [] {
      var init, last := entries[..|entries| - 1], entries[|entries| - 1];
      EntriesName(init, id);
      assert entries == init + [last];
      assert id in EntryIds(last) <==> Names(last, id);
    }
  }

  /** The tree last saved under a root, if it was neither removed nor cleared since. */
  function LastSaved(actions: seq<Action>, root: string): Option<Tree> {
    if actions == [] then None
    else
      match actions[|actions| - 1]
      case SaveAction(r, tree) => if r == root then Some(tree) else LastSaved(actions[..|actions| - 1], root)
      case RemoveAction(r) => if r == root then None else LastSaved(actions[..|actions| - 1], root)
      case ClearAction => None
  }

  /** The root of the tree saved last among those with this id, if that root was neither saved
      again without the id, nor removed or cleared since. */
  ghost function Owner(actions: seq<Action>, id: string): Option<string> {
    if actions == [] then None
    else
      var before := Owner(actions[..|actions| - 1], id);
      match actions[|actions| - 1]
      case SaveAction(r, tree) =>
        if tree.Tree? && (exists e :: e in tree.nodes && Names(e, id)) then Some(r)
        else if before == Some(r) then None
        else before
      case RemoveAction(r) => if before == Some(r) then None else before
      case ClearAction => None
  }

  lemma {:induction false} RunSnoc(s: Store, actions: seq<Action>, a: Action)
    ensures Run(s, actions + [a]) == Apply(Run(s, actions), a)
    decreases |actions|
  {
    if actions == [] {
      assert Run(Apply(s, a), [a][1..]) == Apply(s, a);
    } else {
      assert (actions + [a])[1..] == actions[1..] + [a];
      RunSnoc(Apply(s, actions[0]), actions[1..], a);
    }
  }

  lemma {:induction false} StoredIsLastSaved(actions: seq<Action>, root: string)
    ensures var trees := Run(EMPTY, actions).trees;
            LastSaved(actions, root) == if root in trees then Some(trees[root]) else None
  {
    if actions != [] {
      var before, a := actions[..|actions| - 1], actions[|actions| - 1];
      StoredIsLastSaved(before, root);
      assert actions == before + [a];
      RunSnoc(EMPTY, before, a);
    }
  }

  /** Over every run, whether or not trees share ids: an id leads to its owner. */
  lemma {:induction false} IdsLeadToOwners(actions: seq<Action>, id: string)
    ensures var index := Run(EMPTY, actions).index;
            Owner(actions, id) == if id in index then Some(index[id]) else None
  {
    if actions != [] {
      var before, a := actions[..|actions| - 1], actions[|actions| - 1];
      var s := Run(EMPTY, before);
      IdsLeadToOwners(before, id);
      assert actions == before + [a];
      RunSnoc(EMPTY, before, a);
      match a {
        case SaveAction(root, tree) =>
          if tree.Tree? {
            EntriesName(tree.nodes, id);
          }
        case RemoveAction(root) =>
          EveryRunIsSound(before);
          assert Maps(s, id, root) ==> Holds(s, id, root);
        case ClearAction =>
      }
    }
  }

  // ---------------------------------------------------------------- the object

  class SessionStore {
    var trees: map<string, Tree>
    var nodeToTree: map<string, string>
    var dirty: bool

    function Abs(): Store
      reads this
    {
      Store(trees, nodeToTree)
    }

    constructor ()
      ensures Abs() == EMPTY && !dirty
    {
      trees, nodeToTree, dirty := map[], map[], false;
    }

    method SaveTree(root: string, tree: Tree)
      modifies this
      ensures Abs() == Save(old(Abs()), root, tree) && dirty
    {
      trees := trees[root := tree];
      nodeToTree := Unmapped(nodeToTree, root);
      var ids := TreeLookupIds(tree);
      nodeToTree := nodeToTree + map id | id in ids :: root;
      dirty := true;
    }

    method RemoveTree(root: string)
      modifies this
      ensures Abs() == Remove(old(Abs()), root)
      ensures dirty == (old(dirty) || (root in old(trees) && old(trees)[root].Tree?))
    {
      if root in trees {
        var tree := trees[root];
        trees := map r | r in trees && r != root :: trees[r];
        if tree.Tree? {
          nodeToTree := Unmapped(nodeToTree, root);
          dirty := true;
        }
      }
    }

    method ClearAll()
      modifies this
      ensures Abs() == EMPTY
    {
      trees, nodeToTree, dirty := map[], map[], false;
    }
  }

  method TreeLookupIds(tree: Tree) returns (ids: set<string>)
    ensures ids == Ids(tree)
  {
    ids := {};
    if tree.EmptyTree? {
      return;
    }
    var i := 0;
    while i < |tree.nodes|
      invariant 0 <= i <= |tree.nodes|
      invariant ids == EntriesIds(tree.nodes[..i])
    {
      var e := tree.nodes[i];
      assert tree.nodes[..i + 1][..i] == tree.nodes[..i];
      ids := ids + {e.key};
      if e.node.Node? {
        if e.node.nodeId.Some? {
          ids := ids + {e.node.nodeId.value};
        }
        if e.node.statusMessageId.Some? {
          ids := ids + {e.node.statusMessageId.value};
        }
      }
      i := i + 1;
    }
    assert tree.nodes[..i] == tree.nodes;
  }
}

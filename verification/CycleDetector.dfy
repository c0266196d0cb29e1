/** The colouring depth-first search that rejects circular workflows before anything is stored. */
module CycleDetection {
  import opened Graphs

  /**
   * What the search walks over: a job's name, or the array object given as some job's dependsOn. Each array
   * is an object of its own, but indexing the table with it looks up `key`, its elements joined by commas.
   */
  datatype Node = Name(key: string) | ArrayOf(owner: nat, key: string)

  type Table = map<string, seq<Node>>

  function Neighbours(table: Table, n: Node): seq<Node> {
    if n.key in table then table[n.key] else []
  }

  ghost function AllNodes(table: Table): set<Node> {
    (set k | k in table :: Name(k)) + set k, n | k in table && n in table[k] :: n
  }

  ghost function NodeGraph(table: Table): Graph<Node> {
    map n | n in AllNodes(table) :: Neighbours(table, n)
  }

  /** The same edges between the property names alone. */
  function NameGraph(table: Table): Graph<string> {
    map k | k in table :: NamesOf(table[k])
  }

  function NamesOf(nodes: seq<Node>): seq<string> {
    seq(|nodes|, i requires 0 <= i < |nodes| => nodes[i].key)
  }

  // The node an edge between two names leads to.
  ghost function Target(table: Table, a: string, b: string): (n: Node)
    requires Edge(NameGraph(table), a, b)
    ensures a in table && n in table[a] && n.key == b
  {
    var i :| 0 <= i < |table[a]| && table[a][i].key == b;
    table[a][i]
  }

  lemma NodeWalkIsNameWalk(table: Table, n: Node)
    requires Reaches(NodeGraph(table), n, n)
    ensures HasCycle(NameGraph(table))
  {
    var g := NodeGraph(table);
    var p: seq<Node> :| |p| >= 2 && p[0] == n && p[|p| - 1] == n && Walk(g, p);
    var names := NamesOf(p);
    forall i, j | 0 <= i < j < |names| && j == i + 1 ensures Edge(NameGraph(table), names[i], names[j]) {
      assert Edge(g, p[i], p[j]);
      var k :| 0 <= k < |table[names[i]]| && table[names[i]][k] == p[j];
      assert NamesOf(table[names[i]])[k] == names[j];
    }
    assert Reaches(NameGraph(table), n.key, n.key);
  }

  lemma TargetsFollow(table: Table, a: string, b: string, c: string)
    requires Edge(NameGraph(table), a, b) && Edge(NameGraph(table), b, c)
    ensures Edge(NodeGraph(table), Target(table, a, b), Target(table, b, c))
  {
    assert Target(table, a, b) in AllNodes(table);
  }

  lemma NameWalkIsNodeWalk(table: Table, v: string)
    requires Reaches(NameGraph(table), v, v)
    ensures HasCycle(NodeGraph(table))
  {
    var g := NameGraph(table);
    var p: seq<string> :| |p| >= 2 && p[0] == v && p[|p| - 1] == v && Walk(g, p);
    var n := |p| - 1;
    forall i | 0 <= i < n ensures StepAt(g, p, i) { WalkStep(g, p, i); }
    hide NodeGraph, NameGraph, AllNodes, Walk;
    assert StepAt(g, p, 0);
    var c := seq(|p|, i requires 0 <= i < |p| =>
      if i < n && StepAt(g, p, i) then Target(table, p[i], p[i + 1]) else Target(table, p[0], p[1]));
    forall i | 0 <= i < n ensures StepAt(NodeGraph(table), c, i) {
      assert StepAt(g, p, i);
      if i + 1 < n {
        assert StepAt(g, p, i + 1);
        TargetsFollow(table, p[i], p[i + 1], p[i + 2]);
      } else {
        TargetsFollow(table, p[i], p[0], p[1]);
      }
    }
    StepsReach(NodeGraph(table), c, n);
  }

  /** Cycles through array objects are cycles through the names they read as, and conversely. */
  lemma NamesDecide(table: Table)
    ensures HasCycle(NodeGraph(table)) <==> HasCycle(NameGraph(table))
  {
    if n :| Reaches(NodeGraph(table), n, n) {
      NodeWalkIsNameWalk(table, n);
    }
    if v :| Reaches(NameGraph(table), v, v) {
      NameWalkIsNodeWalk(table, v);
    }
  }

  /** The two sets the search updates in place, and the table it walks. */
  class CycleDetector {
    const table: Table
    var visited: set<Node>
    var recStack: set<Node>
    ghost var finished: seq<Node>  // nodes the search has left, in the order it left them

    ghost predicate Valid()
      reads this
    {
      && recStack <= visited <= AllNodes(table)
      && Distinct(finished)
      && (forall v :: v in finished <==> v in visited && v !in recStack)
      && DependenciesFirst(NodeGraph(table), finished)
    }

    constructor (table: Table)
      ensures Valid() && this.table == table && visited == recStack == {}
    {
      this.table := table;
      visited, recStack, finished := {}, {}, [];
    }

    method Dfs(node: Node) returns (found: bool)
      requires Valid() && node in AllNodes(table) && node !in recStack
      requires forall r :: r in recStack ==> Reaches(NodeGraph(table), r, node)
      modifies this
      ensures found ==> HasCycle(NodeGraph(table))
      ensures !found ==> Valid() && recStack == old(recStack) && old(visited) + {node} <= visited
      decreases AllNodes(table) - visited
    {
      ghost var graph := NodeGraph(table);
      if node !in visited {
        visited := visited + {node};
        recStack := recStack + {node};
        var neighbours := Neighbours(table, node);
        for i := 0 to |neighbours|
          invariant Valid() && old(visited) + {node} <= visited && recStack == old(recStack) + {node}
          invariant forall k :: 0 <= k < i ==> neighbours[k] in finished
        {
          var neighbour := neighbours[i];
          assert Edge(graph, node, neighbour);
          forall r | r in recStack ensures Reaches(graph, r, neighbour) {
            if r == node { EdgeReaches(graph, node, neighbour); } else { ReachesThenEdge(graph, r, node, neighbour); }
          }
          var deeper := false;
          if neighbour !in visited {
            deeper := Dfs(neighbour);
          }
          if deeper {
            return true;
          } else if neighbour in recStack {
            return true;
          }
        }
        AppendLast(graph, finished, node);
        finished := finished + [node];
      }
      recStack := recStack - {node};
      return false;
    }

    /** Restarts the search from every key; the verdict is exact. */
    method Check(keys: seq<string>) returns (circular: bool)
      requires Valid() && visited == recStack == {}
      requires forall k :: k in keys <==> k in table
      modifies this
      ensures circular <==> HasCycle(NodeGraph(table))
    {
      for i := 0 to |keys|
        invariant Valid() && recStack == {}
        invariant forall k :: 0 <= k < i ==> Name(keys[k]) in finished
      {
        var found := Dfs(Name(keys[i]));
        if found {
          return true;
        }
      }
      forall n | n in AllNodes(table) ensures n in finished {
        if k :| k in table && n in table[k] {
          assert Name(k) in finished;
          var i :| 0 <= i < |finished| && finished[i] == Name(k);
          assert n in Succ(NodeGraph(table), finished[i]);
        }
      }
      OrderedIsAcyclic(NodeGraph(table), finished);
      return false;
    }
  }
}

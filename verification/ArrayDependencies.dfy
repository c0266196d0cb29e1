/**
 * Submissions whose dependsOn is an array of several names. The cycle check looks such an array up as one
 * name, so its verdict is about other edges than the rows that are stored.
 */
module ArrayDependencies {
  import opened Common
  import opened Graphs
  import opened Workflows
  import opened Chain

  function Job(key: string, d: DependsOn, p: Priority): JobDto {
    JobDto(key, "ocr", d, Some(p), None, None)
  }

  lemma JoinTwo(x: string, y: string)
    ensures Joined([x, y]) == x + "," + y
  {
    assert [x, y][1..] == [y];
  }

  lemma ThreeKeys(jobs: seq<JobDto>)
    requires |jobs| == 3
    ensures KeyGraph(jobs) == map[jobs[0].key := CheckedNames(jobs[0])][jobs[1].key := CheckedNames(jobs[1])]
                                 [jobs[2].key := CheckedNames(jobs[2])]
  {
    var two, one := jobs[..2], jobs[..1];
    assert two[..1] == one && one[..0] == [];
    assert KeyGraph(one) == map[jobs[0].key := CheckedNames(jobs[0])];
    assert KeyGraph(two) == KeyGraph(one)[jobs[1].key := CheckedNames(jobs[1])];
  }

  // ---------- two parents ----------

  /** b, of HIGH priority, depends on a and c; c depends on a. */
  const TWO_PARENTS := [
    Job("a", One(""), NONE), Job("b", Many(["a", "c"]), HIGH), Job("c", One("a"), NONE)
  ]

  const DIAMOND := Workflow([
    JobSpec("ocr", NONE, true, 3, []),
    JobSpec("ocr", HIGH, true, 3, [0, 2]),
    JobSpec("ocr", NONE, true, 3, [0])
  ])

  lemma TwoParentsPass()
    ensures Rejection(TWO_PARENTS).None?
  {
    ThreeKeys(TWO_PARENTS);
    JoinTwo("a", "c");
    assert "a" + "," + "c" == "a,c";
    assert CheckedNames(TWO_PARENTS[1]) == ["a,c"];
    var order := ["a", "a,c", "b", "c"];
    assert order[..3] == ["a", "a,c", "b"] && order[..2] == ["a", "a,c"];
    OrderedIsAcyclic(KeyGraph(TWO_PARENTS), order);
    assert Keys(TWO_PARENTS) == ["a", "b", "c"];
  }

  lemma SameRows(a: seq<JobSpec>, b: seq<JobSpec>)
    requires |a| == |b| == 3 && a[0] == b[0] && a[1] == b[1] && a[2] == b[2]
    ensures a == b
  {
  }

  /** A submission that the checks accept is stored with a job below two parents. */
  lemma TwoParentsStored()
    ensures Rejection(TWO_PARENTS).None? && AllStorable(TWO_PARENTS)
    ensures Stored(TWO_PARENTS, |TWO_PARENTS|) == DIAMOND
  {
    TwoParentsPass();
    var jobs := TWO_PARENTS;
    assert IndexOf(jobs, "a") == 0 && IndexOf(jobs, "c") == 2;
    forall i: nat | i < 3 ensures ParentsKnown(jobs, jobs[i]) {
    }
    assert Stored(jobs, 3).jobs[1].parents == [0, 2];
    assert Stored(jobs, 3).jobs[2].parents == [0];
    SameRows(Stored(jobs, 3).jobs, DIAMOND.jobs);
  }

  // ---------- both ways the verdict can be wrong about the rows ----------

  /** a depends on b and x; b depends on a. */
  const HIDDEN := [
    Job("x", One(""), NONE), Job("a", Many(["b", "x"]), NONE), Job("b", One("a"), NONE)
  ]

  lemma HiddenRows()
    ensures AllStorable(HIDDEN)
    ensures Stored(HIDDEN, 3).jobs[1].parents == [2, 0] && Stored(HIDDEN, 3).jobs[2].parents == [1]
  {
    var jobs := HIDDEN;
    assert IndexOf(jobs, "x") == 0 && IndexOf(jobs, "a") == 1 && IndexOf(jobs, "b") == 2;
    forall i: nat | i < 3 ensures ParentsKnown(jobs, jobs[i]) {
    }
  }

  lemma HiddenPasses()
    ensures Rejection(HIDDEN).None?
  {
    ThreeKeys(HIDDEN);
    JoinTwo("b", "x");
    assert "b" + "," + "x" == "b,x";
    assert CheckedNames(HIDDEN[1]) == ["b,x"];
    var order := ["x", "b,x", "a", "b"];
    assert order[..3] == ["x", "b,x", "a"] && order[..2] == ["x", "b,x"];
    OrderedIsAcyclic(KeyGraph(HIDDEN), order);
    assert Keys(HIDDEN) == ["x", "a", "b"];
  }

  /** A cycle through an array of two names passes the checks and is stored. */
  lemma HiddenCycle()
    ensures Rejection(HIDDEN).None? && AllStorable(HIDDEN)
    ensures HasCycle(DependencyGraph(Stored(HIDDEN, |HIDDEN|)))
  {
    HiddenPasses();
    HiddenRows();
    hide KeyGraph, AllStorable, Rejection;
    var g := DependencyGraph(Stored(HIDDEN, 3));
    assert g[1] == [2, 0] && g[2] == [1];
    EdgeReaches(g, 1, 2);
    ReachesThenEdge(g, 1, 2, 1);
  }

  /** a depends on x and y; the job called "x,y" depends on a. */
  const INVENTED := [
    Job("x", One(""), NONE), Job("y", One(""), NONE), Job("a", Many(["x", "y"]), NONE), Job("x,y", One("a"), NONE)
  ]

  lemma InventedIsRejected()
    ensures Rejection(INVENTED) == Some(CircularDependency)
  {
    var jobs := INVENTED;
    assert Keys(jobs) == ["x", "y", "a", "x,y"];
    JoinTwo("x", "y");
    assert "x" + "," + "y" == "x,y";
    KeyGraphAt(jobs, 2);
    KeyGraphAt(jobs, 3);
    EdgeReaches(KeyGraph(jobs), "a", "x,y");
    ReachesThenEdge(KeyGraph(jobs), "a", "x,y", "a");
  }

  /** A cycle that the rows would not have is reported when a job is called like the joined array. */
  lemma InventedCycle()
    ensures Rejection(INVENTED) == Some(CircularDependency)
    ensures AllStorable(INVENTED) && WellFormed(Stored(INVENTED, |INVENTED|))
  {
    var jobs := INVENTED;
    InventedIsRejected();
    InventedRows();
    StoredIsClosed(jobs);
    FourRows(Stored(jobs, 4));
  }

  lemma FourRows(w: Workflow)
    requires |w.jobs| == 4 && w.jobs[0].parents == w.jobs[1].parents == []
    requires w.jobs[2].parents == [0, 1] && w.jobs[3].parents == [2]
    ensures !HasCycle(DependencyGraph(w))
  {
    var g, order := DependencyGraph(w), [0, 1, 2, 3];
    assert g[0] == [] && g[1] == [] && g[2] == [0, 1] && g[3] == [2];
    FourOrdered(g, order);
    OrderedIsAcyclic(g, order);
  }

  lemma FourOrdered(g: Graph<nat>, order: seq<nat>)
    requires g == map[0 := [], 1 := [], 2 := [0, 1], 3 := [2]] && order == [0, 1, 2, 3]
    ensures DependenciesFirst(g, order) && forall v :: v in g ==> v in order
  {
    assert order[..3] == [0, 1, 2] && order[..2] == [0, 1];
    assert 0 in order && 1 in order && 2 in order && 3 in order;
  }

  lemma InventedRows()
    ensures AllStorable(INVENTED)
    ensures Stored(INVENTED, 4).jobs[0].parents == [] && Stored(INVENTED, 4).jobs[1].parents == []
    ensures Stored(INVENTED, 4).jobs[2].parents == [0, 1] && Stored(INVENTED, 4).jobs[3].parents == [2]
  {
    var jobs := INVENTED;
    assert IndexOf(jobs, "x") == 0 && IndexOf(jobs, "y") == 1 && IndexOf(jobs, "a") == 2;
    forall i: nat | i < 4 ensures ParentsKnown(jobs, jobs[i]) {
    }
  }
}

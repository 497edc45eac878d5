/**
 * The translation of a connected component array into a list of resistor
 * records, as the PySpice netlist builder does it: which two nodes each
 * resistor joins, which junction becomes ground, and which connection
 * entries make it fail. The PySpice `Circuit` is abstracted as the
 * append-only list of resistors added to it.
 */
module CircuitSimulator {
  import opened Wrappers
  import opened BaseCircuit

  /** `get_resistance_unit`: the scale of a unit prefix; any other prefix is a ValueError. */
  function ResistanceUnit(prefix: string): (r: Result<real>)
    ensures r.Ok? <==> prefix in ["", "k", "M", "m"]
    ensures r.Err? ==> r.error == ValueError
    ensures r.Ok? ==> r.value > 0.0
  {
    if prefix == "" then Ok(1.0)
    else if prefix == "k" then Ok(1000.0)
    else if prefix == "M" then Ok(1000000.0)
    else if prefix == "m" then Ok(0.001)
    else Err(ValueError)
  }

  /** A netlist node: a junction name or the ground node. */
  datatype Node = Named(junction: string) | Ground

  /** `circuit.R(name, a, b, value @ unit)`. */
  datatype Resistor = Resistor(name: string, a: Node, b: Node, value: real, scale: real)

  /** An entry of the builder's own record list: which component got which two nodes. */
  datatype Placed = Placed(index: nat, pre: Node, post: Node)

  /** What the builder reads of a component. */
  datatype Part = Part(name: string, value: real, unit: string, preName: string, postName: string)

  /** The resistors added so far, the records beside them and the set `added`. */
  datatype Build = Build(resistors: seq<Resistor>, placed: seq<Placed>, added: set<nat>)

  function PartsOf(cs: seq<CircuitComponent>): (ps: seq<Part>)
    ensures |ps| == |cs|
  {
    seq(|cs|, i requires 0 <= i < |cs| => Part(cs[i].name, cs[i].value, cs[i].unit, cs[i].preName, cs[i].postName))
  }

  /** A junction named like the ground label becomes ground; anything else stays. */
  function ToGround(n: Node, gndLabel: string): Node
  {
    if n == Named(gndLabel) then Ground else n
  }

  /** `comp_lookup[idx]`: a missing index (including None) is a KeyError. */
  function Lookup(parts: seq<Part>, idx: Option<nat>): (r: Result<Part>)
    ensures r.Ok? <==> idx.Some? && idx.value < |parts|
    ensures r.Ok? ==> r.value == parts[idx.value]
  {
    if idx.Some? && idx.value < |parts| then Ok(parts[idx.value]) else Err(KeyError)
  }

  /** `get_resistance_unit(unit[0])`: the first character of the unit title is the prefix. */
  function UnitOf(p: Part): Result<real>
  {
    if p.unit == [] then Err(IndexError) else ResistanceUnit([p.unit[0]])
  }

  /**
   * A resistor-only unit title such as `$\Omega$` (no prefix given) is
   * read as the prefix '$' and rejected; a one-letter prefix k, M or m is
   * accepted.
   */
  lemma UnitPrefixRead(ctype: string, cunit: string, name: string, value: real, pre: string, post: string)
    requires UnitTitle(ctype, cunit).Ok?
    ensures var p := Part(name, value, UnitTitle(ctype, cunit).value, pre, post);
      && (cunit == [] ==> UnitOf(p) == Err(ValueError))
      && (cunit != [] && cunit[0] in "kMm" ==> UnitOf(p).Ok?)
  {
    var t := UnitTitle(ctype, cunit).value;
    if cunit != [] {
      assert t[0] == cunit[0];
    }
  }

  /** The first record of component `idx`. */
  function FirstPlaced(placed: seq<Placed>, idx: nat): (r: Option<Placed>)
    ensures r.Some? ==> r.value in placed && r.value.index == idx
    ensures r.None? ==> forall k :: 0 <= k < |placed| ==> placed[k].index != idx
  {
    if placed == [] then None
    else if placed[0].index == idx then Some(placed[0])
    else FirstPlaced(placed[1..], idx)
  }

  /**
   * The builder's bookkeeping agrees with the circuit: one record per
   * resistor, `added` holds exactly the recorded components, no component
   * is recorded twice, each resistor carries its component's name and
   * recorded nodes, and no resistor ends on a junction named like ground.
   */
  ghost predicate Consistent(parts: seq<Part>, gndLabel: string, st: Build)
  {
    && |st.resistors| == |st.placed|
    && (forall i :: i in st.added <==> exists k :: 0 <= k < |st.placed| && st.placed[k].index == i)
    && (forall k, l :: 0 <= k < l < |st.placed| ==> st.placed[k].index != st.placed[l].index)
    && (forall k :: 0 <= k < |st.placed| ==>
          && st.placed[k].index < |parts|
          && st.resistors[k].name == parts[st.placed[k].index].name
          && st.resistors[k].a == st.placed[k].pre && st.resistors[k].b == st.placed[k].post
          && st.placed[k].post != Named(gndLabel))
  }

  /** Adding component `i` once: one resistor and one record. */
  function Add(st: Build, i: nat, r: Resistor): Build
  {
    Build(st.resistors + [r], st.placed + [Placed(i, r.a, r.b)], st.added + {i})
  }

  /** `if idx not in added:` add the resistor and record it. */
  function AddNew(parts: seq<Part>, gndLabel: string, st: Build, i: nat, r: Resistor): (st': Build)
    requires Consistent(parts, gndLabel, st) && i < |parts|
    requires r.name == parts[i].name && r.b != Named(gndLabel)
    ensures Consistent(parts, gndLabel, st') && st'.added == st.added + {i}
  {
    if i in st.added then st
    else
      AddKeepsConsistent(parts, gndLabel, st, i, r);
      Add(st, i, r)
  }

  lemma AddKeepsConsistent(parts: seq<Part>, gndLabel: string, st: Build, i: nat, r: Resistor)
    requires Consistent(parts, gndLabel, st) && i !in st.added && i < |parts|
    requires r.name == parts[i].name && r.b != Named(gndLabel)
    ensures Consistent(parts, gndLabel, Add(st, i, r))
  {
    var st' := Add(st, i, r);
    forall j
      ensures j in st'.added <==> exists k :: 0 <= k < |st'.placed| && st'.placed[k].index == j
    {
      if j in st.added {
        var k :| 0 <= k < |st.placed| && st.placed[k].index == j;
        assert st'.placed[k].index == j;
      }
      if exists k :: 0 <= k < |st'.placed| && st'.placed[k].index == j {
        var k :| 0 <= k < |st'.placed| && st'.placed[k].index == j;
        if k < |st.placed| {
          assert st.placed[k].index == j;
        }
      }
      if j == i {
        assert st'.placed[|st.placed|].index == j;
      }
    }
  }

  /** The two components of an entry and their unit scales. */
  datatype Pair = Pair(i1: nat, i2: nat, c1: Part, c2: Part, unit1: real, unit2: real)

  /**
   * The lookups done for every entry that has an index pair, in order:
   * both components, then both unit prefixes.
   */
  function Resolve(parts: seq<Part>, conn: Connection): (r: Result<Pair>)
    requires !conn.Down?
    ensures r.Ok? ==> r.value.i1 < |parts| && r.value.i2 < |parts|
    ensures r.Ok? ==> r.value.c1 == parts[r.value.i1] && r.value.c2 == parts[r.value.i2]
    ensures r.Ok? <==> && conn.i1.Some? && conn.i1.value < |parts| && conn.i2.Some? && conn.i2.value < |parts|
                       && UnitOf(parts[conn.i1.value]).Ok? && UnitOf(parts[conn.i2.value]).Ok?
  {
    match (Lookup(parts, conn.i1), Lookup(parts, conn.i2))
    case (Err(e), _) => Err(e)
    case (Ok(_), Err(e)) => Err(e)
    case (Ok(c1), Ok(c2)) =>
      match (UnitOf(c1), UnitOf(c2))
      case (Err(e), _) => Err(e)
      case (Ok(_), Err(e)) => Err(e)
      case (Ok(unit1), Ok(unit2)) => Ok(Pair(conn.i1.value, conn.i2.value, c1, c2, unit1, unit2))
  }

  /**
   * What an entry adds once its lookups succeeded. Series: the first
   * component runs from its pre junction to its (grounded) post junction,
   * the second from the first's post junction to its own. Parallel: the
   * first runs between its own two junctions, the second copies the nodes
   * recorded for the first. Other entries add nothing.
   */
  function Place(parts: seq<Part>, gndLabel: string, conn: Connection, p: Pair, st: Build): (st': Build)
    requires Consistent(parts, gndLabel, st) && p.i1 < |parts| && p.i2 < |parts|
    requires p.c1 == parts[p.i1] && p.c2 == parts[p.i2]
    ensures Consistent(parts, gndLabel, st')
  {
    var node1Pre := Named(p.c1.preName);
    var node1Post := ToGround(Named(p.c1.postName), gndLabel);
    var node2Post := ToGround(Named(p.c2.postName), gndLabel);
    if conn.Series? then
      var st1 := AddNew(parts, gndLabel, st, p.i1, Resistor(p.c1.name, node1Pre, node1Post, p.c1.value, p.unit1));
      AddNew(parts, gndLabel, st1, p.i2, Resistor(p.c2.name, node1Post, node2Post, p.c2.value, p.unit2))
    else if conn.Parallel? then
      var base1 := ToGround(node1Pre, gndLabel);
      var base2 := ToGround(node1Post, gndLabel);
      var st1 := AddNew(parts, gndLabel, st, p.i1, Resistor(p.c1.name, base1, base2, p.c1.value, p.unit1));
      if p.i2 !in st1.added then
        var first := FirstPlacedOf(parts, gndLabel, st1, p.i1);
        var r := Resistor(p.c2.name, ToGround(first.pre, gndLabel), ToGround(first.post, gndLabel), p.c2.value, p.unit2);
        AddKeepsConsistent(parts, gndLabel, st1, p.i2, r);
        Add(st1, p.i2, r)
      else st1
    else st
  }

  /**
   * One connection entry: a 'down' entry has no index pair and fails at
   * once; otherwise the lookups come first, whatever the entry's type.
   */
  function Step(parts: seq<Part>, gndLabel: string, conn: Connection, st: Build): (r: Result<Build>)
    requires Consistent(parts, gndLabel, st)
    ensures r.Ok? ==> Consistent(parts, gndLabel, r.value)
  {
    if conn.Down? then Err(KeyError)
    else match Resolve(parts, conn)
      case Err(e) => Err(e)
      case Ok(p) => Ok(Place(parts, gndLabel, conn, p, st))
  }

  /** A component in `added` has a record; the first one is returned. */
  function FirstPlacedOf(parts: seq<Part>, gndLabel: string, st: Build, i: nat): (p: Placed)
    requires Consistent(parts, gndLabel, st) && i in st.added
    ensures p in st.placed && p.index == i && p == FirstPlaced(st.placed, i).value
  {
    var k :| 0 <= k < |st.placed| && st.placed[k].index == i;
    FirstPlaced(st.placed, i).value
  }

  /** The state after the first `|conns|` entries, or the first error. */
  function BuildFrom(parts: seq<Part>, gndLabel: string, conns: seq<Connection>): (r: Result<Build>)
    ensures r.Ok? ==> Consistent(parts, gndLabel, r.value)
  {
    if conns == [] then Ok(Build([], [], {}))
    else match BuildFrom(parts, gndLabel, conns[..|conns| - 1])
      case Err(e) => Err(e)
      case Ok(st) => Step(parts, gndLabel, conns[|conns| - 1], st)
  }

  /** Any 'down' entry makes the whole build fail. */
  lemma {:induction false} DownFails(parts: seq<Part>, gndLabel: string, conns: seq<Connection>, k: nat)
    requires k < |conns| && conns[k].Down?
    ensures BuildFrom(parts, gndLabel, conns).Err?
  {
    var upTo := conns[..k + 1];
    assert upTo[..k] == conns[..k] && upTo[k] == conns[k];
    DownAtEnd(parts, gndLabel, upTo);
    StepErrStops(parts, gndLabel, conns, k + 1);
  }

  /** A 'down' entry as the last entry fails the build. */
  lemma DownAtEnd(parts: seq<Part>, gndLabel: string, conns: seq<Connection>)
    requires conns != [] && conns[|conns| - 1].Down?
    ensures BuildFrom(parts, gndLabel, conns).Err?
  {
    var prev := BuildFrom(parts, gndLabel, conns[..|conns| - 1]);
    if prev.Ok? {
      assert Step(parts, gndLabel, conns[|conns| - 1], prev.value) == Err(KeyError);
    }
  }

  /**
   * A series entry over two new components adds the two resistors in
   * order, chained: the second starts on the node where the first ends.
   */
  lemma SeriesChains(parts: seq<Part>, gndLabel: string, conn: Connection, p: Pair, st: Build)
    requires Consistent(parts, gndLabel, st) && p.i1 < |parts| && p.i2 < |parts|
    requires p.c1 == parts[p.i1] && p.c2 == parts[p.i2]
    requires conn.Series? && p.i1 != p.i2 && p.i1 !in st.added && p.i2 !in st.added
    ensures var st' := Place(parts, gndLabel, conn, p, st);
      var n := |st.resistors|;
      && |st'.resistors| == n + 2 && st'.resistors[..n] == st.resistors
      && st'.resistors[n].name == p.c1.name && st'.resistors[n + 1].name == p.c2.name
      && st'.resistors[n].a == Named(p.c1.preName)
      && st'.resistors[n].b == st'.resistors[n + 1].a == ToGround(Named(p.c1.postName), gndLabel)
      && st'.resistors[n + 1].b == ToGround(Named(p.c2.postName), gndLabel)
      && st'.added == st.added + {p.i1, p.i2}
  {
    var st' := Place(parts, gndLabel, conn, p, st);
    assert st'.resistors[..|st.resistors|] == st.resistors;
  }

  /**
   * In a parallel entry whose second component is new, that component's
   * resistor joins the same two nodes as the resistor recorded for the
   * first component.
   */
  lemma ParallelCopiesNodes(parts: seq<Part>, gndLabel: string, conn: Connection, p: Pair, st: Build)
    requires Consistent(parts, gndLabel, st) && p.i1 < |parts| && p.i2 < |parts|
    requires p.c1 == parts[p.i1] && p.c2 == parts[p.i2]
    requires conn.Parallel? && p.i2 != p.i1 && p.i2 !in st.added
    ensures var st' := Place(parts, gndLabel, conn, p, st);
      var last := st'.resistors[|st'.resistors| - 1];
      && |st'.resistors| > 0 && last.name == parts[p.i2].name
      && exists k :: 0 <= k < |st'.resistors| - 1 && st'.placed[k].index == p.i1
                     && last.a == ToGround(st'.resistors[k].a, gndLabel) && last.b == ToGround(st'.resistors[k].b, gndLabel)
  {
    var base1 := ToGround(Named(p.c1.preName), gndLabel);
    var base2 := ToGround(ToGround(Named(p.c1.postName), gndLabel), gndLabel);
    var st1 := AddNew(parts, gndLabel, st, p.i1, Resistor(p.c1.name, base1, base2, p.c1.value, p.unit1));
    var first := FirstPlacedOf(parts, gndLabel, st1, p.i1);
    var k :| 0 <= k < |st1.placed| && st1.placed[k] == first;
    var st' := Place(parts, gndLabel, conn, p, st);
    assert st'.placed[k] == first && st'.resistors[k] == st1.resistors[k];
  }

  /**
   * `build_pyspice_circuit`: walks the connection entries in order, adds
   * each component's resistor at most once, and returns the resistors of
   * the circuit or the error that stopped it.
   */
  method BuildPyspiceCircuit(ca: ComponentArray, gndLabel: string) returns (r: Result<seq<Resistor>>)
    ensures r == match BuildFrom(PartsOf(ca.components), gndLabel, ca.connections)
                 case Ok(st) => Ok(st.resistors)
                 case Err(e) => Err(e)
  {
    var parts := PartsOf(ca.components);
    var conns := ca.connections;
    var st := Build([], [], {});
    var i := 0;
    r := Ok([]);
    while i < |conns|
      invariant 0 <= i <= |conns|
      invariant BuildFrom(parts, gndLabel, conns[..i]) == Ok(st)
    {
      assert conns[..i + 1][..i] == conns[..i];
      var next := Step(parts, gndLabel, conns[i], st);
      if next.Err? {
        StepErrStops(parts, gndLabel, conns, i + 1);
        return Err(next.error);
      }
      st := next.value;
      i := i + 1;
    }
    assert conns[..i] == conns;
    r := Ok(st.resistors);
  }

  /** Once a prefix fails, the whole build fails the same way. */
  lemma {:induction false} StepErrStops(parts: seq<Part>, gndLabel: string, conns: seq<Connection>, m: nat)
    requires m <= |conns| && BuildFrom(parts, gndLabel, conns[..m]).Err?
    ensures BuildFrom(parts, gndLabel, conns) == BuildFrom(parts, gndLabel, conns[..m])
    decreases |conns|
  {
    if m < |conns| {
      var init := conns[..|conns| - 1];
      assert init[..m] == conns[..m];
      StepErrStops(parts, gndLabel, init, m);
    } else {
      assert conns[..m] == conns;
    }
  }
}

/**
 * Divider-circuit bookkeeping: components with a junction before and after
 * them, the array that records how they are connected, and the junction
 * network built from the junction lists.
 */
module BaseCircuit {
  import opened Wrappers

  // ------------------------------------------------------------ component

  /**
   * The unit label of a component type; any other type leaves the label
   * unbound, and the constructor fails with UnboundLocalError.
   */
  function UnitTitle(ctype: string, cunit: string): (r: Result<string>)
    ensures r.Ok? <==> ctype in ["resitor", "r", "capacitor", "c", "inductor", "i"]
    ensures r.Err? ==> r.error == UnboundLocalError
    ensures r.Ok? ==> cunit < r.value
    ensures r.Ok? && cunit == [] ==> r.value[0] == (if ctype in ["resitor", "r"] then '$' else if ctype in ["capacitor", "c"] then 'F' else 'H')
  {
    if ctype == "resitor" || ctype == "r" then Ok(cunit + "$\\Omega$")
    else if ctype == "capacitor" || ctype == "c" then Ok(cunit + "F")
    else if ctype == "inductor" || ctype == "i" then Ok(cunit + "H")
    else Err(UnboundLocalError)
  }

  /** The LaTeX title `C_{1}` of a component named `C1`. */
  function ComponentTitle(cname: string): (t: string)
    requires cname != []
    ensures |t| == |cname| + 3
    ensures [t[0]] + t[3..|t| - 1] == cname
  {
    var t := [cname[0]] + "_{" + cname[1..] + "}";
    assert t[3..|t| - 1] == cname[1..];
    t
  }

  /** A junction and the junctions it is wired to. */
  datatype Junction = Junction(name: string, list: seq<string>)

  /** `TBaseCircuitComponent`: a named part between a pre and a post junction. */
  class CircuitComponent {
    const name: string
    const ctype: string
    const value: real
    const unit: string
    const title: string
    const preName: string
    const preTitle: string
    const postName: string
    const postTitle: string
    var preList: seq<string>
    var postList: seq<string>

    /**
     * The state right after construction: junctions `J<name>-1` and
     * `J<name>-2`, each wired to the other.
     */
    ghost predicate Built(cname: string, ctype': string, cvalue: real, cunit: string)
      reads this
      requires cname != [] && UnitTitle(ctype', cunit).Ok?
    {
      && name == cname && ctype == ctype' && value == cvalue && unit == UnitTitle(ctype', cunit).value
      && title == ComponentTitle(cname)
      && preName == "J" + cname + "-1" && postName == "J" + cname + "-2"
      && preList == [postName] && postList == [preName]
      && preTitle == "J_{ " + title + " }^{pre}" && postTitle == "J_{ " + title + " }^{post}"
    }

    constructor (cname: string, ctype': string, cvalue: real, cunit: string)
      requires cname != [] && UnitTitle(ctype', cunit).Ok?
      ensures Built(cname, ctype', cvalue, cunit)
    {
      name, ctype, value := cname, ctype', cvalue;
      unit := UnitTitle(ctype', cunit).value;
      title := ComponentTitle(cname);
      preName, postName := "J" + cname + "-1", "J" + cname + "-2";
      preList, postList := ["J" + cname + "-2"], ["J" + cname + "-1"];
      preTitle := "J_{ " + ComponentTitle(cname) + " }^{pre}";
      postTitle := "J_{ " + ComponentTitle(cname) + " }^{post}";
    }

    /** `add_pre_junction`: appends the label; no label, no change. */
    method AddPreJunction(junction: Option<string>)
      modifies this`preList
      ensures preList == old(preList) + (if junction.Some? then [junction.value] else [])
    {
      if junction.Some? {
        preList := preList + [junction.value];
      }
    }

    /** `add_post_junction`: appends the label; no label, no change. */
    method AddPostJunction(junction: Option<string>)
      modifies this`postList
      ensures postList == old(postList) + (if junction.Some? then [junction.value] else [])
    {
      if junction.Some? {
        postList := postList + [junction.value];
      }
    }

    /** The two junctions, pre first. */
    function Junctions(): seq<Junction>
      reads this
    {
      [Junction(preName, preList), Junction(postName, postList)]
    }
  }

  /**
   * Constructing a component: an unknown type fails with UnboundLocalError
   * (the unit label is read before the name), an empty name with IndexError.
   */
  method NewComponent(cname: string, ctype: string, cvalue: real, cunit: string) returns (r: Result<CircuitComponent>)
    ensures UnitTitle(ctype, cunit).Err? ==> r == Err(UnboundLocalError)
    ensures UnitTitle(ctype, cunit).Ok? && cname == [] ==> r == Err(IndexError)
    ensures UnitTitle(ctype, cunit).Ok? && cname != [] ==> r.Ok? && fresh(r.value) && r.value.Built(cname, ctype, cvalue, cunit)
  {
    if UnitTitle(ctype, cunit).Err? {
      r := Err(UnboundLocalError);
    } else if cname == [] {
      r := Err(IndexError);
    } else {
      var c := new CircuitComponent(cname, ctype, cvalue, cunit);
      r := Ok(c);
    }
  }

  // ----------------------------------------------------------- connections

  /** One entry of `connection_list`; component indices are None when the name was not found. */
  datatype Connection =
    | Series(i1: Option<nat>, i2: Option<nat>)
    | Parallel(i1: Option<nat>, i2: Option<nat>)
    | ParallelClose(i1: Option<nat>, i2: Option<nat>, skip: int)
    | ParallelOpen(i1: Option<nat>, i2: Option<nat>, x: real, y: real)
    | Down

  /** The junction lists merged per name, in order: a repeated name extends its list. */
  function Merge(js: seq<Junction>): map<string, seq<string>>
  {
    if js == [] then map[]
    else
      var m, j := Merge(js[..|js| - 1]), js[|js| - 1];
      if j.name in m then m[j.name := m[j.name] + j.list] else m[j.name := j.list]
  }

  /**
   * The merged map has a key for exactly the junction names, and each
   * key's list holds exactly the labels of the junctions of that name.
   */
  lemma {:induction false} MergeCollects(js: seq<Junction>, k: string, x: string)
    ensures k in Merge(js) <==> exists i :: 0 <= i < |js| && js[i].name == k
    ensures k in Merge(js) ==> (x in Merge(js)[k] <==> exists i :: 0 <= i < |js| && js[i].name == k && x in js[i].list)
    decreases |js|
  {
    if js != [] {
      var init, j := js[..|js| - 1], js[|js| - 1];
      MergeCollects(init, k, x);
      assert forall i :: 0 <= i < |init| ==> init[i] == js[i];
      if exists i :: 0 <= i < |js| && js[i].name == k {
        var i :| 0 <= i < |js| && js[i].name == k;
        if i < |init| {
          assert init[i].name == k;
        }
      }
      if k in Merge(js) && exists i :: 0 <= i < |js| && js[i].name == k && x in js[i].list {
        var i :| 0 <= i < |js| && js[i].name == k && x in js[i].list;
        if i < |init| {
          assert init[i].name == k && x in init[i].list;
        }
      }
    }
  }

  /** `list(set(...))` on every value: the order of the labels is not kept. */
  function Dedupe(m: map<string, seq<string>>): (d: map<string, set<string>>)
    ensures d.Keys == m.Keys
    ensures forall k, x :: k in m ==> (x in d[k] <==> x in m[k])
  {
    map k | k in m :: set x | x in m[k]
  }

  /** The names of the given components, in order. */
  function NamesOf(cs: seq<CircuitComponent>): (names: seq<string>)
    ensures |names| == |cs| && forall i :: 0 <= i < |cs| ==> names[i] == cs[i].name
  {
    seq(|cs|, i requires 0 <= i < |cs| => cs[i].name)
  }

  /** The junctions of the components, pre then post of each, in order. */
  function JunctionsOf(cs: seq<CircuitComponent>): seq<Junction>
    reads set c | c in cs
  {
    if cs == [] then [] else JunctionsOf(cs[..|cs| - 1]) + cs[|cs| - 1].Junctions()
  }

  /** `TCircuitComponentsArray`: the components and the connections between them. */
  class ComponentArray {
    var components: seq<CircuitComponent>
    var connections: seq<Connection>

    constructor ()
      ensures components == [] && connections == []
    {
      components, connections := [], [];
    }

    /** The names of the components, in order. */
    function Names(): seq<string>
      reads this`components
    {
      NamesOf(components)
    }

    /** `add_circuit_component`. */
    method AddCircuitComponent(comp: CircuitComponent)
      modifies this`components
      ensures components == old(components) + [comp]
    {
      components := components + [comp];
    }

    /** `find_index_by_component_name`: the first component with that name. */
    method FindIndexByComponentName(name: string) returns (idx: Option<nat>)
      ensures idx == FirstIndexOf(Names(), name)
    {
      idx := None;
      var i := 0;
      while i < |components|
        invariant 0 <= i <= |components|
        invariant name !in Names()[..i]
      {
        if components[i].name == name {
          idx := Some(i);
          FirstIndexAt(Names(), name, i);
          return;
        }
        assert Names()[..i + 1] == Names()[..i] + [components[i].name];
        i := i + 1;
      }
      assert Names()[..i] == Names();
    }

    /**
     * `connect_components_with_series`: the first part's post list gains
     * the second's pre junction, the second's pre list the first's post
     * junction, and one series entry is recorded.
     */
    method ConnectSeries(c1: CircuitComponent, c2: CircuitComponent)
      modifies c1`postList, c2`preList, this`connections
      ensures c1.postList == old(c1.postList) + [c2.preName]
      ensures c2.preList == old(c2.preList) + [c1.postName]
      ensures connections == old(connections) + [Series(FirstIndexOf(Names(), c1.name), FirstIndexOf(Names(), c2.name))]
    {
      c1.AddPostJunction(Some(c2.preName));
      c2.AddPreJunction(Some(c1.postName));
      var index1 := FindIndexByComponentName(c1.name);
      var index2 := FindIndexByComponentName(c2.name);
      connections := connections + [Series(index1, index2)];
    }

    /**
     * `connect_components_with_parallel`: both pre lists and both post
     * lists are cross-linked (a part connected to itself gains its own
     * junctions twice) and one parallel entry is recorded.
     */
    method ConnectParallel(c1: CircuitComponent, c2: CircuitComponent)
      modifies c1`preList, c2`preList, c1`postList, c2`postList, this`connections
      ensures c1 != c2 ==> c1.preList == old(c1.preList) + [c2.preName] && c2.preList == old(c2.preList) + [c1.preName]
      ensures c1 != c2 ==> c1.postList == old(c1.postList) + [c2.postName] && c2.postList == old(c2.postList) + [c1.postName]
      ensures c1 == c2 ==> c1.preList == old(c1.preList) + [c1.preName, c1.preName]
      ensures c1 == c2 ==> c1.postList == old(c1.postList) + [c1.postName, c1.postName]
      ensures connections == old(connections) + [Parallel(FirstIndexOf(Names(), c1.name), FirstIndexOf(Names(), c2.name))]
    {
      c1.AddPreJunction(Some(c2.preName));
      c2.AddPreJunction(Some(c1.preName));
      c1.AddPostJunction(Some(c2.postName));
      c2.AddPostJunction(Some(c1.postName));
      var index1 := FindIndexByComponentName(c1.name);
      var index2 := FindIndexByComponentName(c2.name);
      connections := connections + [Parallel(index1, index2)];
    }

    /** `connect_components_with_close_parallel`: only the post lists are cross-linked. */
    method ConnectCloseParallel(c1: CircuitComponent, c2: CircuitComponent, skipNumber: int)
      modifies c1`postList, c2`postList, this`connections
      ensures c1 != c2 ==> c1.postList == old(c1.postList) + [c2.postName] && c2.postList == old(c2.postList) + [c1.postName]
      ensures c1 == c2 ==> c1.postList == old(c1.postList) + [c1.postName, c1.postName]
      ensures connections == old(connections) + [ParallelClose(FirstIndexOf(Names(), c1.name), FirstIndexOf(Names(), c2.name), skipNumber)]
    {
      c1.AddPostJunction(Some(c2.postName));
      c2.AddPostJunction(Some(c1.postName));
      var index1 := FindIndexByComponentName(c1.name);
      var index2 := FindIndexByComponentName(c2.name);
      connections := connections + [ParallelClose(index1, index2, skipNumber)];
    }

    /** `connect_components_with_open_parallel`: only the pre lists are cross-linked. */
    method ConnectOpenParallel(c1: CircuitComponent, c2: CircuitComponent, offsetX: real, offsetY: real)
      modifies c1`preList, c2`preList, this`connections
      ensures c1 != c2 ==> c1.preList == old(c1.preList) + [c2.preName] && c2.preList == old(c2.preList) + [c1.preName]
      ensures c1 == c2 ==> c1.preList == old(c1.preList) + [c1.preName, c1.preName]
      ensures connections == old(connections) + [ParallelOpen(FirstIndexOf(Names(), c1.name), FirstIndexOf(Names(), c2.name), offsetX, offsetY)]
    {
      c1.AddPreJunction(Some(c2.preName));
      c2.AddPreJunction(Some(c1.preName));
      var index1 := FindIndexByComponentName(c1.name);
      var index2 := FindIndexByComponentName(c2.name);
      connections := connections + [ParallelOpen(index1, index2, offsetX, offsetY)];
    }

    /** `connect_with_down_line`: a drawing-only entry. */
    method ConnectWithDownLine()
      modifies this`connections
      ensures connections == old(connections) + [Down]
    {
      connections := connections + [Down];
    }

    /**
     * `build_nodes`: the junction lists of all components merged by
     * junction name, each merged list reduced to its set of labels.
     */
    method BuildNodes() returns (nodes: map<string, set<string>>)
      ensures nodes == Dedupe(Merge(JunctionsOf(components)))
    {
      var merged: map<string, seq<string>> := map[];
      for i := 0 to |components|
        invariant merged == Merge(JunctionsOf(components[..i]))
      {
        var comp := components[i];
        ghost var before := JunctionsOf(components[..i]);
        assert components[..i + 1][..i] == components[..i];
        assert JunctionsOf(components[..i + 1]) == before + [Junction(comp.preName, comp.preList)] + [Junction(comp.postName, comp.postList)];
        MergeStep(before, Junction(comp.preName, comp.preList));
        if comp.preName in merged {
          merged := merged[comp.preName := merged[comp.preName] + comp.preList];
        } else {
          merged := merged[comp.preName := comp.preList];
        }
        MergeStep(before + [Junction(comp.preName, comp.preList)], Junction(comp.postName, comp.postList));
        if comp.postName in merged {
          merged := merged[comp.postName := merged[comp.postName] + comp.postList];
        } else {
          merged := merged[comp.postName := comp.postList];
        }
      }
      assert components[..|components|] == components;
      nodes := Dedupe(merged);
    }
  }

  /** Merging one more junction. */
  lemma MergeStep(js: seq<Junction>, j: Junction)
    ensures var m := Merge(js);
      Merge(js + [j]) == if j.name in m then m[j.name := m[j.name] + j.list] else m[j.name := j.list]
  {
    assert (js + [j])[..|js|] == js;
  }

  /** The first occurrence is found by a scan that stops at it. */
  lemma FirstIndexAt(names: seq<string>, name: string, i: nat)
    requires i < |names| && names[i] == name && name !in names[..i]
    ensures FirstIndexOf(names, name) == Some(i)
  {
    assert forall k :: 0 <= k < i ==> names[..i][k] == names[k];
  }
}

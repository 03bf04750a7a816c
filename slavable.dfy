/** The master assignments of a Slavable (a route or a VCA that VCAs can control): the set of
    master VCA numbers, its XML state, the assignment of VCA controls to the slave controls, and
    the reachability check that keeps VCA assignments acyclic. */
module ArdourSlavable {

  import opened Wrappers

  // ---------------------------------------------------------------------------------------
  // VCAs and their manager

  /** A VCA: its number, the control it offers for each parameter, and its own masters. */
  datatype Vca = Vca(number: nat, controls: map<nat, nat>, masters: set<nat>)

  /** VCAManager::vca_by_number over the manager's list of VCAs: the first one with that
      number, or None. */
  function VcaByNumber(manager: seq<Vca>, n: nat): (r: Option<Vca>)
    ensures r.Some? ==> r.value in manager && r.value.number == n
    ensures r.None? <==> forall k :: 0 <= k < |manager| ==> manager[k].number != n
    decreases |manager|
  {
    if manager == [] then None
    else if manager[0].number == n then Some(manager[0])
    else VcaByNumber(manager[1..], n)
  }

  // ---------------------------------------------------------------------------------------
  // assigned_to

  /** Every master number of every VCA in the manager resolves to a VCA, and a rank that
      strictly decreases from a VCA to each of its masters exists: VCA assignments are acyclic. */
  ghost predicate WellRanked(manager: seq<Vca>, rank: map<nat, nat>) {
    forall v :: v in manager ==>
      && v.number in rank
      && forall m :: m in v.masters ==>
           VcaByNumber(manager, m).Some? && m in rank && rank[m] < rank[v.number]
  }

  /** assigned_to: whether `self` (the number of this Slavable if it is a VCA, None for a route)
      is `mst` itself or, recursively, reachable through the masters of `mst`. */
  function AssignedTo(manager: seq<Vca>, self: Option<nat>, mst: Vca, ghost rank: map<nat, nat>): (r: bool)
    requires WellRanked(manager, rank) && mst in manager
    ensures self == Some(mst.number) ==> r
    ensures self.None? ==> !r
    decreases rank[mst.number]
  {
    if self == Some(mst.number) then true
    else exists m :: m in mst.masters && AssignedTo(manager, self, VcaByNumber(manager, m).value, rank)
  }

  /** `b` is one of the masters of `a`, as the manager resolves it. */
  ghost predicate MasterStep(manager: seq<Vca>, a: Vca, b: Vca) {
    exists m :: m in a.masters && VcaByNumber(manager, m) == Some(b)
  }

  /** A chain of VCAs in the manager, each a master of the one before it. */
  ghost predicate MasterChain(manager: seq<Vca>, p: seq<Vca>) {
    && |p| >= 1
    && (forall i :: 0 <= i < |p| ==> p[i] in manager)
    && forall i :: 0 <= i < |p| - 1 ==> MasterStep(manager, p[i], p[i + 1])
  }

  /** A VCA followed by a chain that starts at one of its masters is a chain. */
  lemma ChainCons(manager: seq<Vca>, v: Vca, q: seq<Vca>, m: nat)
    requires v in manager && MasterChain(manager, q)
    requires m in v.masters && VcaByNumber(manager, m) == Some(q[0])
    ensures MasterChain(manager, [v] + q)
  {
    var p := [v] + q;
    forall i | 0 <= i < |p| ensures p[i] in manager {
      if i > 0 { assert p[i] == q[i - 1]; }
    }
    forall i | 0 <= i < |p| - 1 ensures MasterStep(manager, p[i], p[i + 1]) {
      if i == 0 {
        assert p[1] == q[0];
      } else {
        assert p[i] == q[i - 1] && p[i + 1] == q[i];
      }
    }
  }

  /** If assigned_to holds, a chain of masters leads from `mst` to this Slavable. */
  lemma {:induction false} AssignedToHasChain(manager: seq<Vca>, self: Option<nat>, mst: Vca, rank: map<nat, nat>)
    requires WellRanked(manager, rank) && mst in manager
    requires AssignedTo(manager, self, mst, rank)
    ensures exists p: seq<Vca> :: MasterChain(manager, p) && p[0] == mst && Some(p[|p| - 1].number) == self
    decreases rank[mst.number]
  {
    if self == Some(mst.number) {
      assert MasterChain(manager, [mst]);
    } else {
      var m :| m in mst.masters && AssignedTo(manager, self, VcaByNumber(manager, m).value, rank);
      var next := VcaByNumber(manager, m).value;
      AssignedToHasChain(manager, self, next, rank);
      var q: seq<Vca> :| MasterChain(manager, q) && q[0] == next && Some(q[|q| - 1].number) == self;
      var p := [mst] + q;
      ChainCons(manager, mst, q, m);
      assert p[0] == mst && p[|p| - 1] == q[|q| - 1];
      assert MasterChain(manager, p) && Some(p[|p| - 1].number) == self;
    }
  }

  /** Conversely, any chain of masters from `mst` to this Slavable makes assigned_to hold. */
  lemma {:induction false} ChainMakesAssignedTo(manager: seq<Vca>, self: Option<nat>, p: seq<Vca>, rank: map<nat, nat>)
    requires WellRanked(manager, rank) && MasterChain(manager, p)
    requires Some(p[|p| - 1].number) == self
    ensures AssignedTo(manager, self, p[0], rank)
    decreases |p|
  {
    if |p| > 1 && self != Some(p[0].number) {
      var q := p[1..];
      assert MasterChain(manager, q) by {
        forall i | 0 <= i < |q| ensures q[i] in manager {
          assert q[i] == p[i + 1];
        }
        forall i | 0 <= i < |q| - 1 ensures MasterStep(manager, q[i], q[i + 1]) {
          assert q[i] == p[i + 1] && q[i + 1] == p[i + 2];
        }
      }
      ChainMakesAssignedTo(manager, self, q, rank);
      assert MasterStep(manager, p[0], p[1]);
      var m :| m in p[0].masters && VcaByNumber(manager, m) == Some(p[1]);
      assert AssignedTo(manager, self, VcaByNumber(manager, m).value, rank);
    }
  }

  // ---------------------------------------------------------------------------------------
  // Ascending order of the master set

  /** The least element of a non-empty set. */
  ghost function SetMin(s: set<nat>): (m: nat)
    requires s != {}
    ensures m in s && forall k :: k in s ==> m <= k
    decreases |s|
  {
    var x :| x in s;
    assert forall k :: k in s ==> k == x || k in s - {x};
    if s - {x} == {} then x
    else
      var y := SetMin(s - {x});
      if x <= y then x else y
  }

  /** The elements of a set in ascending order, as iterating a std::set visits them. */
  ghost function Ascending(s: set<nat>): (r: seq<nat>)
    ensures |r| == |s|
    decreases |s|
  {
    if s == {} then [] else [SetMin(s)] + Ascending(s - {SetMin(s)})
  }

  /** The ascending order holds exactly the elements of the set. */
  lemma {:induction false} AscendingElements(s: set<nat>)
    ensures forall n :: n in Ascending(s) <==> n in s
    decreases |s|
  {
    if s != {} {
      var m := SetMin(s);
      var t := Ascending(s - {m});
      AscendingElements(s - {m});
      assert Ascending(s) == [m] + t;
      forall n ensures n in Ascending(s) <==> n in s {
        assert n in Ascending(s) <==> n == m || n in t;
      }
    }
  }

  /** The ascending order is strictly increasing, so it holds each element once. */
  lemma {:induction false} AscendingSorted(s: set<nat>)
    ensures forall i, j :: 0 <= i < j < |Ascending(s)| ==> Ascending(s)[i] < Ascending(s)[j]
    decreases |s|
  {
    if s != {} {
      var m := SetMin(s);
      var t := Ascending(s - {m});
      AscendingSorted(s - {m});
      AscendingElements(s - {m});
      var r := Ascending(s);
      assert r == [m] + t;
      forall i, j | 0 <= i < j < |r| ensures r[i] < r[j] {
        assert r[j] == t[j - 1];
        assert r[j] in s - {m};
        if i > 0 {
          assert r[i] == t[i - 1];
        }
      }
    }
  }

  /** Both facts about the ascending order. */
  lemma AscendingFacts(s: set<nat>)
    ensures forall n :: n in Ascending(s) <==> n in s
    ensures forall i, j :: 0 <= i < j < |Ascending(s)| ==> Ascending(s)[i] < Ascending(s)[j]
  {
    AscendingElements(s);
    AscendingSorted(s);
  }

  // ---------------------------------------------------------------------------------------
  // XML state

  /** An XML node: its name, its numeric properties, and its children. The conversion of
      property text to numbers is not part of this model. */
  datatype XmlNode = XmlNode(name: string, properties: map<string, nat>, children: seq<XmlNode>)

  const SlavableNodeName: string := "Slavable"
  const MasterNodeName: string := "Master"

  /** The child get_state writes for one master. */
  function MasterNode(n: nat): XmlNode {
    XmlNode(MasterNodeName, map["number" := n], [])
  }

  /** A "Master" child carrying the number `n`. */
  predicate IsMasterWith(c: XmlNode, n: nat) {
    c.name == MasterNodeName && "number" in c.properties && c.properties["number"] == n
  }

  /** The numbers set_state takes from a list of children, one child after the other. */
  function MasterNumbers(cs: seq<XmlNode>): set<nat>
    decreases |cs|
  {
    if cs == [] then {}
    else
      var c := cs[|cs| - 1];
      MasterNumbers(cs[..|cs| - 1])
        + (if c.name == MasterNodeName && "number" in c.properties then {c.properties["number"]} else {})
  }

  /** Those are the numbers of the "Master" children with a number property, and nothing from
      any other child. */
  lemma {:induction false} MasterNumbersMeaning(cs: seq<XmlNode>)
    ensures forall n :: n in MasterNumbers(cs) <==> exists c :: c in cs && IsMasterWith(c, n)
    decreases |cs|
  {
    if cs != [] {
      var init := cs[..|cs| - 1];
      var c := cs[|cs| - 1];
      MasterNumbersMeaning(init);
      assert MasterNumbers(cs) == MasterNumbers(init)
        + (if c.name == MasterNodeName && "number" in c.properties then {c.properties["number"]} else {});
      assert forall x :: x in cs <==> x in init || x == c by {
        assert cs == init + [c];
      }
      forall n ensures n in MasterNumbers(cs) <==> exists x :: x in cs && IsMasterWith(x, n) {
        if n in MasterNumbers(init) {
          var x :| x in init && IsMasterWith(x, n);
          assert x in cs;
        } else if n in MasterNumbers(cs) {
          assert IsMasterWith(c, n) && c in cs;
        }
        if exists x :: x in cs && IsMasterWith(x, n) {
          var x :| x in cs && IsMasterWith(x, n);
          if x in init {
            assert n in MasterNumbers(init);
          } else {
            assert x == c;
          }
        }
      }
    }
  }

  /** The node get_state returns for a master set: one "Master" child per number, ascending. */
  ghost function StateNode(masters: set<nat>): XmlNode {
    var order := Ascending(masters);
    XmlNode(SlavableNodeName, map[], seq(|order|, i requires 0 <= i < |order| => MasterNode(order[i])))
  }

  /** Restoring the state written for a master set gives back exactly that set, and the state
      holds one child per master, in strictly ascending order. */
  lemma GetStateSetStateRoundTrip(masters: set<nat>)
    ensures StateNode(masters).name == SlavableNodeName
    ensures |StateNode(masters).children| == |masters|
    ensures forall i, j :: 0 <= i < j < |masters| ==>
      StateNode(masters).children[i].properties["number"] < StateNode(masters).children[j].properties["number"]
    ensures MasterNumbers(StateNode(masters).children) == masters
  {
    AscendingFacts(masters);
    var order := Ascending(masters);
    var cs := StateNode(masters).children;
    MasterNumbersMeaning(cs);
    forall n | n in masters
      ensures n in MasterNumbers(cs)
    {
      var i :| 0 <= i < |order| && order[i] == n;
      assert IsMasterWith(cs[i], n);
    }
    forall n | n in MasterNumbers(cs)
      ensures n in masters
    {
      var c :| c in cs && IsMasterWith(c, n);
      var i :| 0 <= i < |cs| && cs[i] == c;
      assert order[i] == n;
    }
  }

  // ---------------------------------------------------------------------------------------
  // Slave controls

  /** A SlavableAutomationControl: the parameter it controls, the master controls it follows,
      and how many times its saved master ratios were applied. */
  datatype SlaveControl = SlaveControl(parameter: nat, masters: set<nat>, savedRatioUses: nat)

  /** assign_control's effect on one slave: follow the VCA's control for its parameter, if the
      VCA has one. */
  function WithMaster(sc: SlaveControl, vca: Vca): SlaveControl {
    if sc.parameter in vca.controls then sc.(masters := sc.masters + {vca.controls[sc.parameter]}) else sc
  }

  /** unassign_control's effect on one slave: with no VCA, drop all masters; otherwise drop the
      VCA's control for its parameter, if the VCA has one. */
  function WithoutMaster(sc: SlaveControl, vca: Option<Vca>): SlaveControl {
    match vca
    case None => sc.(masters := {})
    case Some(v) =>
      if sc.parameter in v.controls then sc.(masters := sc.masters - {v.controls[sc.parameter]}) else sc
  }

  /** Assigning a control and unassigning it again restores the slave, when it did not already
      follow that master; unassigning from all leaves no master; and a VCA without a control for
      the parameter changes neither way. */
  lemma AssignUnassignControl(sc: SlaveControl, vca: Vca)
    ensures sc.parameter in vca.controls && vca.controls[sc.parameter] !in sc.masters ==>
      WithoutMaster(WithMaster(sc, vca), Some(vca)) == sc
    ensures sc.parameter in vca.controls ==> vca.controls[sc.parameter] in WithMaster(sc, vca).masters
    ensures sc.parameter in vca.controls ==> vca.controls[sc.parameter] !in WithoutMaster(sc, Some(vca)).masters
    ensures sc.parameter !in vca.controls ==> WithMaster(sc, vca) == sc && WithoutMaster(sc, Some(vca)) == sc
    ensures WithoutMaster(sc, None).masters == {}
    ensures WithMaster(sc, vca).parameter == sc.parameter && WithoutMaster(sc, Some(vca)).parameter == sc.parameter
  {
    if sc.parameter in vca.controls && vca.controls[sc.parameter] !in sc.masters {
      assert (sc.masters + {vca.controls[sc.parameter]}) - {vca.controls[sc.parameter]} == sc.masters;
    }
  }

  /** Some slave control has a counterpart on the VCA, so assign_controls succeeds. */
  predicate Accepts(slaves: seq<SlaveControl>, vca: Vca) {
    exists i :: 0 <= i < |slaves| && slaves[i].parameter in vca.controls
  }

  function WithMasterAll(slaves: seq<SlaveControl>, vca: Vca): (r: seq<SlaveControl>)
    ensures |r| == |slaves|
  {
    seq(|slaves|, i requires 0 <= i < |slaves| => WithMaster(slaves[i], vca))
  }

  function WithoutMasterAll(slaves: seq<SlaveControl>, vca: Option<Vca>): (r: seq<SlaveControl>)
    ensures |r| == |slaves|
  {
    seq(|slaves|, i requires 0 <= i < |slaves| => WithoutMaster(slaves[i], vca))
  }

  /** A slave after being assigned to each of `vcas` in turn. */
  function WithMasters(sc: SlaveControl, vcas: seq<Vca>): SlaveControl
    decreases |vcas|
  {
    if vcas == [] then sc else WithMaster(WithMasters(sc, vcas[..|vcas| - 1]), vcas[|vcas| - 1])
  }

  /** Assigning to a list of VCAs adds exactly their controls for the slave's parameter. */
  lemma {:induction false} WithMastersAdds(sc: SlaveControl, vcas: seq<Vca>)
    ensures WithMasters(sc, vcas).parameter == sc.parameter
    ensures WithMasters(sc, vcas).savedRatioUses == sc.savedRatioUses
    ensures forall h :: h in WithMasters(sc, vcas).masters <==>
      h in sc.masters || exists k :: 0 <= k < |vcas| && sc.parameter in vcas[k].controls && vcas[k].controls[sc.parameter] == h
    decreases |vcas|
  {
    if vcas != [] {
      var init := vcas[..|vcas| - 1];
      WithMastersAdds(sc, init);
      forall h ensures h in WithMasters(sc, vcas).masters <==>
        h in sc.masters || exists k :: 0 <= k < |vcas| && sc.parameter in vcas[k].controls && vcas[k].controls[sc.parameter] == h
      {
        if exists k :: 0 <= k < |init| && sc.parameter in init[k].controls && init[k].controls[sc.parameter] == h {
          var k :| 0 <= k < |init| && sc.parameter in init[k].controls && init[k].controls[sc.parameter] == h;
          assert vcas[k] == init[k];
        }
        if exists k :: 0 <= k < |vcas| && sc.parameter in vcas[k].controls && vcas[k].controls[sc.parameter] == h {
          var k :| 0 <= k < |vcas| && sc.parameter in vcas[k].controls && vcas[k].controls[sc.parameter] == h;
          if k < |init| {
            assert init[k] == vcas[k];
          }
        }
      }
    }
  }

  /** use_saved_master_ratios, as a count of its calls. */
  function RatiosRestored(sc: SlaveControl): SlaveControl {
    sc.(savedRatioUses := sc.savedRatioUses + 1)
  }

  function WithMastersAll(slaves: seq<SlaveControl>, vcas: seq<Vca>): (r: seq<SlaveControl>)
    ensures |r| == |slaves|
  {
    seq(|slaves|, i requires 0 <= i < |slaves| => WithMasters(slaves[i], vcas))
  }

  function RatiosRestoredAll(slaves: seq<SlaveControl>): (r: seq<SlaveControl>)
    ensures |r| == |slaves|
  {
    seq(|slaves|, i requires 0 <= i < |slaves| => RatiosRestored(slaves[i]))
  }

  /** The slaves after do_assign found `vcas`: assigned to each in turn, then their saved ratios
      applied once, but only when something was found. */
  function AfterDoAssign(slaves: seq<SlaveControl>, vcas: seq<Vca>): seq<SlaveControl> {
    if vcas == [] then slaves else RatiosRestoredAll(WithMastersAll(slaves, vcas))
  }

  /** After do_assign each slave keeps its parameter, follows in addition exactly the controls
      the found VCAs have for that parameter, and applied its saved ratios once if and only if
      some VCA was found. */
  lemma DoAssignEffect(slaves: seq<SlaveControl>, vcas: seq<Vca>, i: nat)
    requires i < |slaves|
    ensures |AfterDoAssign(slaves, vcas)| == |slaves|
    ensures AfterDoAssign(slaves, vcas)[i].parameter == slaves[i].parameter
    ensures AfterDoAssign(slaves, vcas)[i].savedRatioUses == slaves[i].savedRatioUses + (if vcas == [] then 0 else 1)
    ensures forall h :: h in AfterDoAssign(slaves, vcas)[i].masters <==>
      h in slaves[i].masters ||
      exists k :: 0 <= k < |vcas| && slaves[i].parameter in vcas[k].controls && vcas[k].controls[slaves[i].parameter] == h
  {
    WithMastersAdds(slaves[i], vcas);
  }

  /** The VCAs do_assign finds for the masters, in order; numbers the manager does not know are
      skipped. */
  function FoundVcas(manager: seq<Vca>, numbers: seq<nat>): (r: seq<Vca>)
    ensures |r| <= |numbers|
    ensures forall k :: 0 <= k < |r| ==> r[k] in manager && r[k].number in numbers
    decreases |numbers|
  {
    if numbers == [] then []
    else
      var init := FoundVcas(manager, numbers[..|numbers| - 1]);
      match VcaByNumber(manager, numbers[|numbers| - 1])
      case Some(v) => init + [v]
      case None => init
  }

  /** A number yields a VCA exactly when the manager has a VCA with that number. */
  lemma {:induction false} FoundVcasComplete(manager: seq<Vca>, numbers: seq<nat>, n: nat)
    requires n in numbers
    ensures VcaByNumber(manager, n).Some? ==> VcaByNumber(manager, n).value in FoundVcas(manager, numbers)
    decreases |numbers|
  {
    var last := numbers[|numbers| - 1];
    if n != last {
      var init := numbers[..|numbers| - 1];
      assert n in init by {
        var k :| 0 <= k < |numbers| && numbers[k] == n;
        assert k < |numbers| - 1 && init[k] == n;
      }
      FoundVcasComplete(manager, init, n);
    }
  }

  /** What masters() yields for a list of numbers: one entry per number, the manager's VCA with
      that number, or None where the manager does not know it. */
  function MasterList(manager: seq<Vca>, numbers: seq<nat>): (r: seq<Option<Vca>>)
    ensures |r| == |numbers|
    ensures forall k :: 0 <= k < |r| && r[k].Some? ==> r[k].value in manager && r[k].value.number == numbers[k]
    ensures forall k :: 0 <= k < |r| ==>
      (r[k].None? <==> forall j :: 0 <= j < |manager| ==> manager[j].number != numbers[k])
  {
    seq(|numbers|, k requires 0 <= k < |numbers| => VcaByNumber(manager, numbers[k]))
  }

  /** The entries of a list that are present, in order. */
  function Present(l: seq<Option<Vca>>): seq<Vca>
    decreases |l|
  {
    if l == [] then []
    else Present(l[..|l| - 1]) + (if l[|l| - 1].Some? then [l[|l| - 1].value] else [])
  }

  /** The VCAs do_assign finds are exactly the entries masters() yields for the same numbers with
      the unknown numbers dropped, in the same order. */
  lemma {:induction false} FoundVcasArePresentMasters(manager: seq<Vca>, numbers: seq<nat>)
    ensures FoundVcas(manager, numbers) == Present(MasterList(manager, numbers))
    decreases |numbers|
  {
    if numbers != [] {
      var init := numbers[..|numbers| - 1];
      var l := MasterList(manager, numbers);
      assert l[..|l| - 1] == MasterList(manager, init);
      FoundVcasArePresentMasters(manager, init);
    }
  }

  /** AssignmentChange, as the VCA number (None for all) and whether it was an assignment. */
  datatype AssignmentEvent = AssignmentEvent(vca: Option<nat>, yn: bool)

  function AssignEvents(vcas: seq<Vca>): (r: seq<AssignmentEvent>)
    ensures |r| == |vcas|
    ensures forall k :: 0 <= k < |vcas| ==> r[k] == AssignmentEvent(Some(vcas[k].number), true)
  {
    seq(|vcas|, k requires 0 <= k < |vcas| => AssignmentEvent(Some(vcas[k].number), true))
  }

  // ---------------------------------------------------------------------------------------
  // The Slavable object

  class Slavable {

    /** The numbers of the VCAs this Slavable is assigned to. */
    var masters: set<nat>
    /** The slave controls the Slavable offers (slavables()). */
    var slaves: seq<SlaveControl>
    /** Whether do_assign is still connected to the Assign signal. */
    var assignConnected: bool
    /** The AssignmentChange signals emitted, in order. */
    var changes: seq<AssignmentEvent>

    /** A new Slavable has no masters and waits for the Assign signal. */
    constructor (controls: seq<SlaveControl>)
      ensures masters == {} && slaves == controls && assignConnected && changes == []
    {
      masters := {};
      slaves := controls;
      assignConnected := true;
      changes := [];
    }

    /** The masters in ascending order. */
    method SortedMasters() returns (order: seq<nat>)
      ensures order == Ascending(masters)
    {
      order := [];
      var remaining := masters;
      while remaining != {}
        invariant order + Ascending(remaining) == Ascending(masters)
        decreases |remaining|
      {
        var m :| m in remaining && forall k :: k in remaining ==> m <= k;
        assert m == SetMin(remaining);
        assert Ascending(remaining) == [m] + Ascending(remaining - {m});
        order := order + [m];
        remaining := remaining - {m};
      }
    }

    /** get_state: a "Slavable" node with one "Master" child per master, ascending. */
    method GetState() returns (node: XmlNode)
      ensures node == StateNode(masters)
    {
      var order := SortedMasters();
      var children: seq<XmlNode> := [];
      for i := 0 to |order|
        invariant children == seq(i, k requires 0 <= k < i => MasterNode(order[k]))
      {
        children := children + [MasterNode(order[i])];
      }
      node := XmlNode(SlavableNodeName, map[], children);
    }

    /** set_state: a node of another name is refused with -1; otherwise the number of every
        "Master" child is added to the masters and 0 returned. */
    method SetState(node: XmlNode) returns (r: int)
      modifies this`masters
      ensures node.name != SlavableNodeName ==> r == -1 && masters == old(masters)
      ensures node.name == SlavableNodeName ==> r == 0 && masters == old(masters) + MasterNumbers(node.children)
    {
      if node.name != SlavableNodeName {
        return -1;
      }
      var children := node.children;
      for i := 0 to |children|
        invariant masters == old(masters) + MasterNumbers(children[..i])
      {
        var c := children[i];
        assert children[..i + 1][..i] == children[..i];
        if c.name == MasterNodeName {
          if "number" in c.properties {
            masters := masters + {c.properties["number"]};
          }
        }
      }
      assert children[..|children|] == children;
      return 0;
    }

    /** assign_control: the slave at `i` follows the VCA's control for its parameter; false
        and no change when the VCA has none. */
    method AssignControl(vca: Vca, i: nat) returns (accepted: bool)
      requires i < |slaves|
      modifies this`slaves
      ensures accepted <==> old(slaves)[i].parameter in vca.controls
      ensures slaves == old(slaves)[i := WithMaster(old(slaves)[i], vca)]
    {
      var slave := slaves[i];
      if slave.parameter !in vca.controls {
        return false;
      }
      var master := vca.controls[slave.parameter];
      slaves := slaves[i := slave.(masters := slave.masters + {master})];
      return true;
    }

    /** assign_controls: every slave is offered the VCA; true when at least one accepted. */
    method AssignControls(vca: Vca) returns (rv: bool)
      modifies this`slaves
      ensures rv <==> Accepts(old(slaves), vca)
      ensures slaves == WithMasterAll(old(slaves), vca)
    {
      rv := false;
      for i := 0 to |slaves|
        invariant |slaves| == |old(slaves)|
        invariant forall k :: 0 <= k < i ==> slaves[k] == WithMaster(old(slaves)[k], vca)
        invariant forall k :: i <= k < |slaves| ==> slaves[k] == old(slaves)[k]
        invariant rv <==> exists k :: 0 <= k < i && old(slaves)[k].parameter in vca.controls
      {
        var accepted := AssignControl(vca, i);
        rv := rv || accepted;
      }
    }

    /** assign: the VCA becomes a master if some control accepted it; AssignmentChange is
        emitted in any case. */
    method Assign(vca: Vca)
      modifies this`masters, this`slaves, this`changes
      ensures slaves == WithMasterAll(old(slaves), vca)
      ensures masters == if Accepts(old(slaves), vca) then old(masters) + {vca.number} else old(masters)
      ensures changes == old(changes) + [AssignmentEvent(Some(vca.number), true)]
    {
      var accepted := AssignControls(vca);
      if accepted {
        masters := masters + {vca.number};
      }
      changes := changes + [AssignmentEvent(Some(vca.number), true)];
    }

    /** unassign_control: with no VCA the slave drops all masters, otherwise only the VCA's
        control for its parameter, if there is one. */
    method UnassignControl(vca: Option<Vca>, i: nat)
      requires i < |slaves|
      modifies this`slaves
      ensures slaves == old(slaves)[i := WithoutMaster(old(slaves)[i], vca)]
    {
      var slave := slaves[i];
      if vca.None? {
        slaves := slaves[i := slave.(masters := {})];
      } else {
        if slave.parameter in vca.value.controls {
          var master := vca.value.controls[slave.parameter];
          slaves := slaves[i := slave.(masters := slave.masters - {master})];
        }
      }
    }

    /** unassign_controls: every slave lets go of the VCA (of all VCAs when None). */
    method UnassignControls(vca: Option<Vca>)
      modifies this`slaves
      ensures slaves == WithoutMasterAll(old(slaves), vca)
    {
      for i := 0 to |slaves|
        invariant |slaves| == |old(slaves)|
        invariant forall k :: 0 <= k < i ==> slaves[k] == WithoutMaster(old(slaves)[k], vca)
        invariant forall k :: i <= k < |slaves| ==> slaves[k] == old(slaves)[k]
      {
        UnassignControl(vca, i);
      }
    }

    /** unassign: only the VCA's number leaves the masters, or all of them when None. */
    method Unassign(vca: Option<Vca>)
      modifies this`masters, this`slaves, this`changes
      ensures slaves == WithoutMasterAll(old(slaves), vca)
      ensures vca.Some? ==> masters == old(masters) - {vca.value.number}
      ensures vca.None? ==> masters == {}
      ensures changes == old(changes) + [AssignmentEvent(if vca.Some? then Some(vca.value.number) else None, false)]
    {
      UnassignControls(vca);
      if vca.Some? {
        masters := masters - {vca.value.number};
      } else {
        masters := {};
      }
      changes := changes + [AssignmentEvent(if vca.Some? then Some(vca.value.number) else None, false)];
    }

    /** masters(): the lookup of every master number, in ascending order, null entries kept. */
    method Masters(manager: seq<Vca>) returns (vcas: seq<Option<Vca>>)
      ensures vcas == MasterList(manager, Ascending(masters))
    {
      var order := SortedMasters();
      vcas := [];
      for i := 0 to |order|
        invariant vcas == MasterList(manager, order[..i])
      {
        vcas := vcas + [VcaByNumber(manager, order[i])];
      }
      assert order[..|order|] == order;
    }

    /** The VCAs do_assign finds for the masters, in ascending order of their numbers. */
    method FindMasters(manager: seq<Vca>) returns (vcas: seq<Vca>)
      ensures vcas == FoundVcas(manager, Ascending(masters))
    {
      var order := SortedMasters();
      vcas := [];
      for i := 0 to |order|
        invariant vcas == FoundVcas(manager, order[..i])
      {
        assert order[..i + 1][..i] == order[..i];
        var v := VcaByNumber(manager, order[i]);
        if v.Some? {
          vcas := vcas + [v.value];
        }
      }
      assert order[..|order|] == order;
    }

    /** Assigns each of `vcas` in turn. Their numbers are masters already, so the master set
        does not change. */
    method AssignAll(vcas: seq<Vca>)
      requires forall k :: 0 <= k < |vcas| ==> vcas[k].number in masters
      modifies this`masters, this`slaves, this`changes
      ensures masters == old(masters)
      ensures slaves == WithMastersAll(old(slaves), vcas)
      ensures changes == old(changes) + AssignEvents(vcas)
    {
      for k := 0 to |vcas|
        invariant masters == old(masters)
        invariant |slaves| == |old(slaves)|
        invariant forall j :: 0 <= j < |slaves| ==> slaves[j] == WithMasters(old(slaves)[j], vcas[..k])
        invariant changes == old(changes) + AssignEvents(vcas[..k])
      {
        assert vcas[..k + 1][..k] == vcas[..k];
        assert AssignEvents(vcas[..k + 1]) == AssignEvents(vcas[..k]) + [AssignmentEvent(Some(vcas[k].number), true)];
        Assign(vcas[k]);
      }
      assert vcas[..|vcas|] == vcas;
    }

    /** Every slave control applies its saved master ratios. */
    method RestoreSavedRatios()
      modifies this`slaves
      ensures slaves == RatiosRestoredAll(old(slaves))
    {
      for j := 0 to |slaves|
        invariant |slaves| == |old(slaves)|
        invariant forall i :: 0 <= i < j ==> slaves[i] == RatiosRestored(old(slaves)[i])
        invariant forall i :: j <= i < |slaves| ==> slaves[i] == old(slaves)[i]
      {
        slaves := slaves[j := RatiosRestored(slaves[j])];
      }
    }

    /** do_assign: assign every master the manager knows, in ascending order, restore the saved
        ratios if any was found, and disconnect from Assign. The master set is unchanged: a
        number the manager does not know stays in it, and a found VCA is already in it. */
    method DoAssign(manager: seq<Vca>) returns (r: int)
      modifies this`masters, this`slaves, this`changes, this`assignConnected
      ensures r == 0 && !assignConnected
      ensures masters == old(masters)
      ensures slaves == AfterDoAssign(old(slaves), FoundVcas(manager, Ascending(old(masters))))
      ensures changes == old(changes) + AssignEvents(FoundVcas(manager, Ascending(old(masters))))
    {
      var vcas := FindMasters(manager);
      if vcas != [] {
        AscendingFacts(masters);
        AssignAll(vcas);
        RestoreSavedRatios();
      }
      assignConnected := false;
      return 0;
    }
  }
}

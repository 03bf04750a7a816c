/** Port handling of the Launchkey MK3 surface: recognising the device's DAW ports by their
    hardware names, and the two-bit connection state that decides whether the device is active. */
module LaunchkeyPorts {

  import opened Wrappers

  // ---------------------------------------------------------------------------------------
  // Substring search (std::string::find)

  predicate OccursAt(s: string, pat: string, k: nat) {
    k + |pat| <= |s| && s[k..k + |pat|] == pat
  }

  /** The first position at or after `from` where `pat` occurs in `s`. */
  function FindFrom(s: string, pat: string, from: nat): (r: Option<nat>)
    requires from <= |s|
    decreases |s| - from
    ensures r.Some? ==> from <= r.value && OccursAt(s, pat, r.value)
    ensures r.Some? ==> forall k :: from <= k < r.value ==> !OccursAt(s, pat, k)
    ensures r.None? ==> forall k :: from <= k ==> !OccursAt(s, pat, k)
  {
    if from + |pat| > |s| then None
    else if s[from..from + |pat|] == pat then Some(from)
    else FindFrom(s, pat, from + 1)
  }

  /** std::string::find: the first occurrence of `pat` in `s`, None for npos. */
  function Find(s: string, pat: string): (r: Option<nat>)
    ensures r.Some? ==> OccursAt(s, pat, r.value) && forall k: nat :: k < r.value ==> !OccursAt(s, pat, k)
    ensures r.None? <==> forall k: nat :: !OccursAt(s, pat, k)
  {
    FindFrom(s, pat, 0)
  }

  predicate Contains(s: string, pat: string) {
    Find(s, pat).Some?
  }

  /** A hardware port name that belongs to a Launchkey MK3 DAW port: it mentions the device
      (in either spelling) and "DAW". */
  predicate HasLkmk3Daw(pn: string) {
    (Contains(pn, "Launchkey MK3") || Contains(pn, "LKMK3")) && Contains(pn, "DAW")
  }

  lemma HasLkmk3DawMeaning(pn: string)
    ensures HasLkmk3Daw(pn) <==>
      && ((exists k :: OccursAt(pn, "Launchkey MK3", k)) || (exists k :: OccursAt(pn, "LKMK3", k)))
      && (exists k :: OccursAt(pn, "DAW", k))
  {
    if exists k :: OccursAt(pn, "Launchkey MK3", k) {
      assert Find(pn, "Launchkey MK3").Some?;
    }
  }

  lemma {:induction false} HasLkmk3DawExample()
    ensures HasLkmk3Daw("LKMK3 DAW Out")
    ensures HasLkmk3Daw("Launchkey MK3 MIDI 2 (DAW)")
  {
    assert OccursAt("LKMK3 DAW Out", "LKMK3", 0);
    assert OccursAt("LKMK3 DAW Out", "DAW", 6);
    assert OccursAt("Launchkey MK3 MIDI 2 (DAW)", "Launchkey MK3", 0);
    assert OccursAt("Launchkey MK3 MIDI 2 (DAW)", "DAW", 22);
  }

  // ---------------------------------------------------------------------------------------
  // Probing for the device

  /** A physical MIDI port as the engine lists it, with the hardware name behind it. */
  datatype PortEntry = PortEntry(name: string, hardwareName: string)

  /** std::find_if with HasLkmk3Daw over the hardware names, from index `from` on. */
  function FindQualifying(ports: seq<PortEntry>, from: nat): (r: Option<nat>)
    requires from <= |ports|
    decreases |ports| - from
    ensures r.Some? ==> from <= r.value < |ports| && HasLkmk3Daw(ports[r.value].hardwareName)
    ensures r.Some? ==> forall j :: from <= j < r.value ==> !HasLkmk3Daw(ports[j].hardwareName)
    ensures r.None? ==> forall j :: from <= j < |ports| ==> !HasLkmk3Daw(ports[j].hardwareName)
  {
    if from == |ports| then None
    else if HasLkmk3Daw(ports[from].hardwareName) then Some(from)
    else FindQualifying(ports, from + 1)
  }

  /** probe: the first qualifying input and the first qualifying output, when both exist. */
  function Probe(inputs: seq<PortEntry>, outputs: seq<PortEntry>): (r: Option<(string, string)>)
    ensures r.Some? <==>
      (exists i :: 0 <= i < |inputs| && HasLkmk3Daw(inputs[i].hardwareName)) &&
      (exists o :: 0 <= o < |outputs| && HasLkmk3Daw(outputs[o].hardwareName))
    ensures r.Some? ==>
      (exists i :: 0 <= i < |inputs| && inputs[i].name == r.value.0 && HasLkmk3Daw(inputs[i].hardwareName)
        && forall j :: 0 <= j < i ==> !HasLkmk3Daw(inputs[j].hardwareName))
    ensures r.Some? ==>
      (exists o :: 0 <= o < |outputs| && outputs[o].name == r.value.1 && HasLkmk3Daw(outputs[o].hardwareName)
        && forall j :: 0 <= j < o ==> !HasLkmk3Daw(outputs[j].hardwareName))
  {
    var pi := FindQualifying(inputs, 0);
    var po := FindQualifying(outputs, 0);
    if pi.None? || po.None? then None
    else Some((inputs[pi.value].name, outputs[po.value].name))
  }

  // ---------------------------------------------------------------------------------------
  // Connection state

  /** The ConnectionState bits. */
  const InputConnected: bv8 := 0x1
  const OutputConnected: bv8 := 0x2
  const BothBits: bv8 := InputConnected | OutputConnected

  datatype Side = InputSide | OutputSide

  function Other(side: Side): Side {
    if side.InputSide? then OutputSide else InputSide
  }

  function SideBit(side: Side): bv8 {
    if side.InputSide? then InputConnected else OutputConnected
  }

  predicate HasBit(state: bv8, side: Side) {
    state & SideBit(side) != 0
  }

  /** Setting or clearing one bit leaves the other one and the stray bits alone. */
  lemma BitFacts(state: bv8)
    ensures (state | 1) & 1 != 0 && (state | 1) & 2 == state & 2
    ensures (state & !1) & 1 == 0 && (state & !1) & 2 == state & 2
    ensures (state | 2) & 2 != 0 && (state | 2) & 1 == state & 1
    ensures (state & !2) & 2 == 0 && (state & !2) & 1 == state & 1
    ensures state & !3 == 0 ==>
      (state | 1) & !3 == 0 && (state | 2) & !3 == 0 && (state & !1) & !3 == 0 && (state & !2) & !3 == 0
    ensures (state & 3 == 3) <==> state & 1 != 0 && state & 2 != 0
  {
  }

  /** The two bits are disjoint, so "both connected" is exactly the value 3 once no other bit is set. */
  lemma BitsDisjoint(state: bv8)
    requires state & !BothBits == 0
    ensures InputConnected & OutputConnected == 0
    ensures (state & BothBits == BothBits) <==> state == 3
    ensures (state == 3) <==> HasBit(state, InputSide) && HasBit(state, OutputSide)
  {
    BitFacts(state);
  }

  /** Which of our ports a connection change between `name1` and `name2` is about: the input
      when it names our input, otherwise the output when it names our output. */
  function InvolvedSide(ni: string, no: string, name1: string, name2: string): (r: Option<Side>)
    ensures r == Some(InputSide) <==> ni == name1 || ni == name2
    ensures r == Some(OutputSide) <==> ni != name1 && ni != name2 && (no == name1 || no == name2)
  {
    if ni == name1 || ni == name2 then Some(InputSide)
    else if no == name1 || no == name2 then Some(OutputSide)
    else None
  }

  /** Sets or clears the bit of one side. */
  function UpdateBit(state: bv8, side: Side, yn: bool): (r: bv8)
    ensures HasBit(r, side) == yn
    ensures HasBit(r, Other(side)) == HasBit(state, Other(side))
    ensures state & !BothBits == 0 ==> r & !BothBits == 0
  {
    BitFacts(state);
    if yn then state | SideBit(side) else state & !SideBit(side)
  }

  /** What the surface is told: connected(), disconnected(), and the GUI's ConnectionChange. */
  datatype Signal = Connected | Disconnected | ConnectionChange

  datatype Link = Link(state: bv8, active: bool)

  /** The invariant every reachable link keeps: no stray bits, and active exactly when both
      ports are connected. */
  predicate LinkInvariant(l: Link) {
    l.state & !BothBits == 0 && (l.active <==> l.state == 3)
  }

  const InitialLink: Link := Link(0, false)

  datatype StepResult = StepResult(link: Link, signals: seq<Signal>)

  /** One connection change of one of our ports: the bit of `side` becomes `yn`; the device is
      active when both bits are set, and is told connected() every time that holds,
      disconnected() when it stops holding, and ConnectionChange in any case. */
  function ConnectionStep(l: Link, side: Side, yn: bool): StepResult {
    var st := UpdateBit(l.state, side, yn);
    if st & BothBits == BothBits then
      StepResult(Link(st, true), [Connected, ConnectionChange])
    else
      StepResult(Link(st, false), (if l.active then [Disconnected] else []) + [ConnectionChange])
  }

  /** A step sets the bit of its side, keeps the other, makes the device active exactly when
      both are set, raises disconnected() exactly on the active-to-inactive edge, connected()
      exactly while active, and always ends with ConnectionChange. */
  lemma StepFacts(l: Link, side: Side, yn: bool)
    ensures var r := ConnectionStep(l, side, yn);
      && HasBit(r.link.state, side) == yn
      && HasBit(r.link.state, Other(side)) == HasBit(l.state, Other(side))
      && (r.link.active <==> HasBit(r.link.state, InputSide) && HasBit(r.link.state, OutputSide))
      && (Disconnected in r.signals <==> l.active && !r.link.active)
      && (Connected in r.signals <==> r.link.active)
      && |r.signals| >= 1 && r.signals[|r.signals| - 1] == ConnectionChange
  {
    BitFacts(UpdateBit(l.state, side, yn));
  }

  lemma StepKeepsInvariant(l: Link, side: Side, yn: bool)
    requires LinkInvariant(l)
    ensures LinkInvariant(ConnectionStep(l, side, yn).link)
  {
    var st := ConnectionStep(l, side, yn).link.state;
    BitsDisjoint(st);
  }

  lemma InitialLinkInvariant()
    ensures LinkInvariant(InitialLink) && !InitialLink.active
  {
  }

  datatype ConnectionEvent = ConnectionEvent(side: Side, connected: bool)

  /** The link after a sequence of connection changes of our ports. */
  function Run(l: Link, evs: seq<ConnectionEvent>): Link
    decreases |evs|
  {
    if evs == [] then l else Run(ConnectionStep(l, evs[0].side, evs[0].connected).link, evs[1..])
  }

  /** Whether `side` is connected after `evs`: its last event decides, or `init` if it has none. */
  function LastFor(evs: seq<ConnectionEvent>, side: Side, init: bool): bool
    decreases |evs|
  {
    if evs == [] then init
    else LastFor(evs[1..], side, if evs[0].side == side then evs[0].connected else init)
  }

  /** After any sequence of events each bit reflects the last event of its side. */
  lemma {:induction false} RunBits(l: Link, evs: seq<ConnectionEvent>, side: Side)
    ensures HasBit(Run(l, evs).state, side) == LastFor(evs, side, HasBit(l.state, side))
    decreases |evs|
  {
    if evs != [] {
      var l' := ConnectionStep(l, evs[0].side, evs[0].connected).link;
      assert HasBit(l'.state, side) == (if evs[0].side == side then evs[0].connected else HasBit(l.state, side)) by {
        StepFacts(l, evs[0].side, evs[0].connected);
        if evs[0].side != side {
          assert side == Other(evs[0].side);
        }
      }
      RunBits(l', evs[1..], side);
    }
  }

  /** After a non-empty sequence of events the device is active exactly when both bits are set. */
  lemma {:induction false} RunActive(l: Link, evs: seq<ConnectionEvent>)
    requires evs != []
    ensures Run(l, evs).active <==> HasBit(Run(l, evs).state, InputSide) && HasBit(Run(l, evs).state, OutputSide)
    decreases |evs|
  {
    var l' := ConnectionStep(l, evs[0].side, evs[0].connected).link;
    if evs[1..] == [] {
      assert Run(l, evs) == l';
      BitFacts(l'.state);
    } else {
      RunActive(l', evs[1..]);
    }
  }

  /** So the device ends up active exactly when the last event of each side was a connect, in
      whatever order the events arrived. */
  lemma RunReflectsLastEvents(l: Link, evs: seq<ConnectionEvent>)
    requires evs != []
    ensures Run(l, evs).active <==>
      LastFor(evs, InputSide, HasBit(l.state, InputSide)) && LastFor(evs, OutputSide, HasBit(l.state, OutputSide))
  {
    RunActive(l, evs);
    RunBits(l, evs, InputSide);
    RunBits(l, evs, OutputSide);
  }

  lemma {:induction false} RunKeepsInvariant(l: Link, evs: seq<ConnectionEvent>)
    requires LinkInvariant(l)
    ensures LinkInvariant(Run(l, evs))
    decreases |evs|
  {
    if evs != [] {
      StepKeepsInvariant(l, evs[0].side, evs[0].connected);
      RunKeepsInvariant(ConnectionStep(l, evs[0].side, evs[0].connected).link, evs[1..]);
    }
  }

  /** The two connects may arrive in either order. */
  lemma ConnectOrderIrrelevant(l: Link)
    ensures var a := Run(l, [ConnectionEvent(InputSide, true), ConnectionEvent(OutputSide, true)]);
      var b := Run(l, [ConnectionEvent(OutputSide, true), ConnectionEvent(InputSide, true)]);
      a == b && a.active
  {
    var evsA := [ConnectionEvent(InputSide, true), ConnectionEvent(OutputSide, true)];
    var evsB := [ConnectionEvent(OutputSide, true), ConnectionEvent(InputSide, true)];
    assert evsA[1..] == [ConnectionEvent(OutputSide, true)];
    assert evsB[1..] == [ConnectionEvent(InputSide, true)];
  }

  /** Requests to connect one of our ports to a device port. */
  datatype ConnectRequest = ConnectRequest(ours: string, theirs: string)
}

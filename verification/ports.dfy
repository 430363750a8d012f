/** The Ethernet ports a VirtualBox VM node shows on the canvas: one port per
    network adapter, named from a configurable template with an optional
    segmentation scheme and an optional fixed name for the first port. */
module Ports {
  import opened PyValues

  /** A port name. `Formatted(format, iface, seg)` stands for the template
      `format` filled in with the interface index `iface` and the segment
      index `seg` (the template may also use `iface + 1` and `seg + 1`, which
      are determined by the pair). `Custom(s)` is a name given verbatim. */
  datatype PortName = Custom(s: string) | Formatted(format: string, iface: nat, seg: nat)

  /** An Ethernet port: its name, the VirtualBox adapter it belongs to, and
      its port number on that adapter (always 0 for VirtualBox). */
  datatype Port = Port(name: PortName, adapterNumber: nat, portNumber: nat)

  /** How the node names its ports: the name template, the number of
      interfaces per segment (0 for no segmentation), and the name of the
      first port ("" when the first port is named from the template). */
  datatype NamingScheme = NamingScheme(format: string, segmentSize: int, firstPortName: string)

  function Abs(x: int): (r: nat)
  {
    if x < 0 then -x else x
  }

  /** True when the first port gets the fixed first-port name. */
  predicate HasFirstName(scheme: NamingScheme)
  {
    scheme.firstPortName != ""
  }

  /** How many template-named ports precede adapter `i`: every earlier port
      except the one carrying the fixed first name. */
  function FormattedBefore(scheme: NamingScheme, i: nat): (k: nat)
  {
    if HasFirstName(scheme) && i > 0 then i - 1 else i
  }

  /** Interface index of the k-th template-named port (counted from 0). */
  function Iface(segmentSize: int, k: nat): (iface: nat)
  {
    if segmentSize == 0 then k else k % Abs(segmentSize)
  }

  /** Segment index of the k-th template-named port (counted from 0). */
  function Seg(segmentSize: int, k: nat): (seg: nat)
  {
    if segmentSize == 0 then 0 else k / Abs(segmentSize)
  }

  /** Closed form of the name adapter `i` receives. */
  function PortNameAt(scheme: NamingScheme, i: nat): (name: PortName)
  {
    if HasFirstName(scheme) && i == 0 then Custom(scheme.firstPortName)
    else
      var k := FormattedBefore(scheme, i);
      Formatted(scheme.format, Iface(scheme.segmentSize, k), Seg(scheme.segmentSize, k))
  }

  /** Closed form of the ports created for `adapters` adapters: adapter `i`
      gets port number 0 and the name `PortNameAt(scheme, i)`. */
  function NewPorts(scheme: NamingScheme, adapters: int): (r: seq<Port>)
  {
    seq(RangeLength(adapters), i requires 0 <= i => Port(PortNameAt(scheme, i), i, 0))
  }

  /** Number of ports in `ps` whose name comes from the template. */
  function CountFormatted(ps: seq<Port>): (n: nat)
  {
    if ps == [] then 0
    else CountFormatted(ps[..|ps| - 1]) + (if ps[|ps| - 1].name.Formatted? then 1 else 0)
  }

  /** `FormattedBefore(scheme, i)` is the number of template-named ports
      among the first i generated ports. */
  lemma {:induction false} FormattedBeforeCounts(scheme: NamingScheme, i: nat)
    ensures FormattedBefore(scheme, i) == CountFormatted(NewPorts(scheme, i))
  {
    if i > 0 {
      FormattedBeforeCounts(scheme, i - 1);
      assert NewPorts(scheme, i)[..i - 1] == NewPorts(scheme, i - 1);
    }
  }

  /** Division with remainder has a unique result. */
  lemma DivModUnique(a: nat, m: nat, q: nat, r: nat)
    requires m > 0 && r < m && a == m * q + r
    ensures a / m == q && a % m == r
  {
    var d := q - a / m;
    assert m * d == a % m - r;
    if d != 0 {
      MulFarFromZero(m, d);
    }
  }

  /** A non-zero multiple of m is at least m away from zero. */
  lemma MulFarFromZero(m: int, d: int)
    requires m > 0 && d != 0
    ensures m * d >= m || m * d <= -m
  {
  }

  /** One step of the interface/segment counters: after naming the k-th
      template port, the interface index is incremented and, when it reaches
      a multiple of the segment size, wraps to 0 while the segment advances.
      The counters then describe the (k+1)-th template port. */
  lemma CounterStep(segmentSize: int, k: nat)
    ensures var iface := Iface(segmentSize, k) + 1;
            if segmentSize != 0 && PyMod(iface, segmentSize) == 0
            then Iface(segmentSize, k + 1) == 0 && Seg(segmentSize, k + 1) == Seg(segmentSize, k) + 1
            else Iface(segmentSize, k + 1) == iface && Seg(segmentSize, k + 1) == Seg(segmentSize, k)
  {
    if segmentSize != 0 {
      var m := Abs(segmentSize);
      var iface, seg := k % m, k / m;
      assert k == m * seg + iface;
      if iface + 1 == m {
        DivModUnique(k + 1, m, seg + 1, 0);
        DivModUnique(iface + 1, m, 1, 0);
      } else {
        DivModUnique(k + 1, m, seg, iface + 1);
        DivModUnique(iface + 1, m, 0, iface + 1);
      }
    }
  }

  /** The interface index of every template-named port lies in
      `[0, |segmentSize|)` when segmentation is on. */
  lemma IfaceInRange(scheme: NamingScheme, i: nat)
    requires scheme.segmentSize != 0
    requires PortNameAt(scheme, i).Formatted?
    ensures PortNameAt(scheme, i).iface < Abs(scheme.segmentSize)
  {
  }

  /** With a fixed first-port name, adapter 0 carries it and adapter 1 is the
      first template port, with interface 0 and segment 0. */
  lemma FirstNameSkipsCounters(scheme: NamingScheme)
    requires HasFirstName(scheme)
    ensures PortNameAt(scheme, 0) == Custom(scheme.firstPortName)
    ensures PortNameAt(scheme, 1) == Formatted(scheme.format, 0, 0)
  {
  }

  /** Segment index and interface index together identify the template port:
      two different template-named adapters never get the same pair. */
  lemma FormattedNamesDistinct(scheme: NamingScheme, i: nat, j: nat)
    requires i != j
    requires PortNameAt(scheme, i).Formatted? && PortNameAt(scheme, j).Formatted?
    ensures PortNameAt(scheme, i) != PortNameAt(scheme, j)
  {
  }

  /** `_addAdapters`: appends one port per adapter to `ports`, naming them with
      an interface counter that wraps every `segmentSize` ports, each wrap
      advancing a segment counter; the fixed first name, when set, is used for
      adapter 0 without advancing the counters. */
  method AddAdapters(ports: seq<Port>, adapters: int, scheme: NamingScheme) returns (r: seq<Port>)
    ensures |r| == |ports| + RangeLength(adapters)
    ensures r[..|ports|] == ports
    ensures forall i :: |ports| <= i < |r| ==> r[i].adapterNumber == i - |ports|
    ensures forall i :: |ports| <= i < |r| ==> r[i].portNumber == 0
    ensures forall i :: |ports| <= i < |r| ==> r[i].name == PortNameAt(scheme, i - |ports|)
    ensures r == ports + NewPorts(scheme, adapters)
  {
    var ifaceNumber: nat, segmentNumber: nat := 0, 0;
    r := ports;
    var adapterNumber: nat := 0;
    while adapterNumber < adapters
      invariant adapterNumber <= RangeLength(adapters)
      invariant |r| == |ports| + adapterNumber
      invariant r[..|ports|] == ports
      invariant forall i :: |ports| <= i < |r| ==> r[i] == Port(PortNameAt(scheme, i - |ports|), i - |ports|, 0)
      invariant ifaceNumber == Iface(scheme.segmentSize, FormattedBefore(scheme, adapterNumber))
      invariant segmentNumber == Seg(scheme.segmentSize, FormattedBefore(scheme, adapterNumber))
    {
      var portName;
      if HasFirstName(scheme) && adapterNumber == 0 {
        portName := Custom(scheme.firstPortName);
      } else {
        portName := Formatted(scheme.format, ifaceNumber, segmentNumber);
        CounterStep(scheme.segmentSize, FormattedBefore(scheme, adapterNumber));
        ifaceNumber := ifaceNumber + 1;
        if scheme.segmentSize != 0 && PyMod(ifaceNumber, scheme.segmentSize) == 0 {
          segmentNumber := segmentNumber + 1;
          ifaceNumber := 0;
        }
      }
      r := r + [Port(portName, adapterNumber, 0)];
      adapterNumber := adapterNumber + 1;
    }
    assert r[|ports|..] == NewPorts(scheme, adapters);
  }
}

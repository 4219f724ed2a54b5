/** Model of the per-port probing-parser chain of the application-layer parser
    framework and of its lookup, AppLayerGetProbingParsers.

    The chain is a singly linked list of ProbingParser records in the heap. A
    ghost sequence `nodes` lists the records in the order `next` visits them;
    Chain(head, nodes) ties the two together. The lookup walks the list from
    the head and stops at the first record whose port is the one asked for.
 */
module AppLayerParser {

  /** C's fixed-width unsigned integers. */
  type uint8 = x: int | 0 <= x < 0x100
  type uint16 = x: int | 0 <= x < 0x1_0000
  type uint32 = x: int | 0 <= x < 0x1_0000_0000

  /** Priorities a probing parser element may carry; a lower value is a
      higher priority. */
  const PRIORITY_HIGH: uint8 := 1
  const PRIORITY_MEDIUM: uint8 := 2
  const PRIORITY_LOW: uint8 := 3

  datatype Option<T> = None | Some(value: T)

  /** One registered probe for a port (AppLayerProbingParserElement). It is a
      carrier only: the lookup never looks inside it. The probe callback and
      the `next` link of the C record are not part of the value; a direction's
      probes are a sequence of elements in the ProbingParser record. */
  datatype ProbingParserElement = ProbingParserElement(
    alProtoName: string,
    alProto: uint16,
    port: uint16,
    priority: uint8,
    top: uint8,
    minDepth: uint32,
    maxDepth: uint32)

  /** The per-port record of the chain (AppLayerProbingParser). */
  class ProbingParser {
    /** the port for which this record's probes are invoked */
    var port: uint16
    /** the largest depth over all probes registered for this port, per direction */
    var toserverMaxDepth: uint16
    var toclientMaxDepth: uint16
    var toserver: seq<ProbingParserElement>
    var toclient: seq<ProbingParserElement>
    var next: ProbingParser?

    constructor (port: uint16, toserverMaxDepth: uint16, toclientMaxDepth: uint16,
                 toserver: seq<ProbingParserElement>, toclient: seq<ProbingParserElement>,
                 next: ProbingParser?)
      ensures this.port == port && this.next == next
      ensures this.toserverMaxDepth == toserverMaxDepth && this.toclientMaxDepth == toclientMaxDepth
      ensures this.toserver == toserver && this.toclient == toclient
    {
      this.port := port;
      this.toserverMaxDepth := toserverMaxDepth;
      this.toclientMaxDepth := toclientMaxDepth;
      this.toserver := toserver;
      this.toclient := toclient;
      this.next := next;
    }
  }

  /** `nodes` is the list that starts at `head`: NULL for the empty list, and
      otherwise each record's `next` is the following record and the last
      record's `next` is NULL. */
  ghost predicate Chain(head: ProbingParser?, nodes: seq<ProbingParser>)
    reads nodes
  {
    (head == null <==> nodes == []) &&
    (nodes != [] ==> nodes[0] == head && nodes[|nodes| - 1].next == null) &&
    forall i :: 0 <= i < |nodes| - 1 ==> nodes[i].next == nodes[i + 1]
  }

  /** The ports of the records of `nodes`, in list order. */
  ghost function Ports(nodes: seq<ProbingParser>): (ports: seq<uint16>)
    reads nodes
    ensures |ports| == |nodes|
    ensures forall i :: 0 <= i < |nodes| ==> ports[i] == nodes[i].port
  {
    if nodes == [] then [] else [nodes[0].port] + Ports(nodes[1..])
  }

  /** Reference definition of the search: the index of the first occurrence
      of `port` in `ports`, or None when `port` does not occur. */
  function FirstIndexOf(ports: seq<uint16>, port: uint16): (r: Option<nat>)
    ensures r.Some? ==> r.value < |ports| && ports[r.value] == port
    ensures r.Some? ==> forall j :: 0 <= j < r.value ==> ports[j] != port
    ensures r.None? <==> port !in ports
  {
    if ports == [] then None
    else if ports[0] == port then Some(0)
    else match FirstIndexOf(ports[1..], port)
      case None => None
      case Some(k) => Some(k + 1)
  }

  /** Any index at which `port` occurs with no earlier occurrence is the one
      FirstIndexOf finds: the search has exactly one answer. */
  lemma FirstIndexOfIsFirst(ports: seq<uint16>, port: uint16, k: nat)
    requires k < |ports| && ports[k] == port
    requires forall j :: 0 <= j < k ==> ports[j] != port
    ensures FirstIndexOf(ports, port) == Some(k)
  {
  }

  /** The rest of a chain after its head is the chain that starts at the
      head's `next`. */
  lemma ChainTail(head: ProbingParser, nodes: seq<ProbingParser>)
    requires Chain(head, nodes)
    ensures nodes != [] && Chain(head.next, nodes[1..])
  {
    if |nodes| > 1 {
      assert nodes[0].next == nodes[1];
    }
  }

  /** The heap determines the chain: two sequences that both describe the
      list starting at `head` are the same sequence. */
  lemma {:induction false} ChainUnique(head: ProbingParser?, a: seq<ProbingParser>, b: seq<ProbingParser>)
    requires Chain(head, a) && Chain(head, b)
    ensures a == b
    decreases |a|
  {
    if head != null {
      ChainTail(head, a);
      ChainTail(head, b);
      ChainUnique(head.next, a[1..], b[1..]);
      assert a == [head] + a[1..] && b == [head] + b[1..];
    }
  }

  /** A chain is acyclic: no record appears in it twice. */
  lemma {:induction false} ChainDistinct(head: ProbingParser?, nodes: seq<ProbingParser>, i: nat, j: nat)
    requires Chain(head, nodes)
    requires i < j < |nodes|
    ensures nodes[i] != nodes[j]
    decreases |nodes| - j
  {
    if j == |nodes| - 1 {
      // the last record ends the list; nodes[i] does not
      assert nodes[j].next == null && nodes[i].next == nodes[i + 1];
    } else {
      // distinct successors have distinct predecessors
      ChainDistinct(head, nodes, i + 1, j + 1);
      assert nodes[i].next == nodes[i + 1] != nodes[j + 1] == nodes[j].next;
    }
  }

  /** AppLayerGetProbingParsers: the first record of the chain whose port is
      `port`, or NULL when there is none. `ipProto` is accepted and never
      read. The method has no modifies clause, so no record of the chain, nor
      any other object, is changed. The ghost `steps` counts the advances of
      the cursor along `next`; it never exceeds the length of the list. */
  method GetProbingParsers(probingParsers: ProbingParser?, ipProto: uint16, port: uint16,
                           ghost nodes: seq<ProbingParser>)
    returns (pp: ProbingParser?, ghost steps: nat)
    requires Chain(probingParsers, nodes)
    ensures probingParsers == null ==> pp == null
    ensures pp != null ==> pp.port == port
    ensures pp != null ==> steps < |nodes| && pp == nodes[steps] && pp in nodes
    ensures pp != null ==> forall j :: 0 <= j < steps ==> nodes[j].port != port
    ensures pp == null <==> forall j :: 0 <= j < |nodes| ==> nodes[j].port != port
    ensures steps <= |nodes| && (pp == null ==> steps == |nodes|)
    ensures match FirstIndexOf(Ports(nodes), port)
              case None => pp == null
              case Some(k) => pp == nodes[k]
  {
    if probingParsers == null {
      return null, 0;
    }

    pp := probingParsers;
    steps := 0;
    while pp != null
      invariant steps <= |nodes|
      invariant pp == if steps < |nodes| then nodes[steps] else null
      invariant forall j :: 0 <= j < steps ==> nodes[j].port != port
      decreases |nodes| - steps
    {
      if pp.port == port {
        break;
      }
      pp := pp.next;
      steps := steps + 1;
    }

    if pp != null {
      FirstIndexOfIsFirst(Ports(nodes), port, steps);
    }
  }

  /** The `ipProto` argument has no influence: two lookups on the same chain
      and port that differ only in `ipProto` return the same record. */
  method GetProbingParsersIgnoresIpProto(probingParsers: ProbingParser?, ipProtoA: uint16, ipProtoB: uint16,
                                         port: uint16, ghost nodes: seq<ProbingParser>)
    returns (a: ProbingParser?, b: ProbingParser?)
    requires Chain(probingParsers, nodes)
    ensures a == b
    ensures a != null ==> a.port == port
  {
    ghost var stepsA, stepsB;
    a, stepsA := GetProbingParsers(probingParsers, ipProtoA, port, nodes);
    b, stepsB := GetProbingParsers(probingParsers, ipProtoB, port, nodes);
  }
}

/** Port blocks (port_allocator.go). */
module Ports {
  import opened Prelude
  import opened Order
  import opened Config

  const PORT_RANGE_START := 61000
  const PORT_RANGE_END := 65000
  const PORTS_PER_ENV := 100
  const MAX_ENVIRONMENTS := (PORT_RANGE_END - PORT_RANGE_START) / PORTS_PER_ENV

  /** hash is the FNV-1a hash of the environment name. */
  function PickBlockStart(hash: bv32): (start: int)
    ensures PORT_RANGE_START <= start && start + PORTS_PER_ENV <= PORT_RANGE_END
  {
    PORT_RANGE_START + (hash as int % MAX_ENVIRONMENTS) * PORTS_PER_ENV
  }

  /** The hash decides the block: two environments share one exactly when their hashes agree modulo the 40 blocks,
      blocks that differ do not overlap, and each of the 40 is some environment's. */
  lemma HashDecidesBlock(a: bv32, b: bv32)
    ensures PickBlockStart(a) == PickBlockStart(b) <==> a as int % 40 == b as int % 40
    ensures PickBlockStart(a) < PickBlockStart(b) ==> PickBlockStart(a) + 100 <= PickBlockStart(b)
    ensures PickBlockStart(a) == 61000 + 100 * (a as int % 40)
  {
  }

  /** The free ports from p up to end, in order. */
  function FreePorts(p: int, end: int, free: int -> bool): seq<int>
    decreases end - p
  {
    if p >= end then []
    else if free(p) then [p] + FreePorts(p + 1, end, free)
    else FreePorts(p + 1, end, free)
  }

  lemma {:induction false} FreePortsAreAll(p: int, end: int, free: int -> bool)
    ensures forall q :: q in FreePorts(p, end, free) <==> p <= q < end && free(q)
    ensures forall i, j :: 0 <= i < j < |FreePorts(p, end, free)| ==>
      FreePorts(p, end, free)[i] < FreePorts(p, end, free)[j]
    decreases end - p
  {
    if p < end {
      FreePortsAreAll(p + 1, end, free);
      var rest := FreePorts(p + 1, end, free);
      assert forall i :: 0 <= i < |rest| ==> rest[i] in rest;
    }
  }

  /** names[k] gets ports[k]; of a name that occurs twice the later port counts. */
  function Assign(names: seq<string>, ports: seq<int>): PortMap
    requires |names| <= |ports|
  {
    if names == [] then map[]
    else
      var last := |names| - 1;
      Assign(names[..last], ports)[names[last] := ports[last]]
  }

  /** Ports in ascending order, all from lo up to hi: so none occurs twice. */
  ghost predicate Ascending(ports: seq<int>, lo: int, hi: int) {
    (forall i, j :: 0 <= i < j < |ports| ==> ports[i] < ports[j])
    && forall i :: 0 <= i < |ports| ==> lo <= ports[i] < hi
  }

  ghost function Block(hash: bv32, free: int -> bool): seq<int> {
    FreePorts(PickBlockStart(hash), PickBlockStart(hash) + PORTS_PER_ENV, free)
  }

  /** The block is all the free ones of 100 ports, in ascending order. */
  lemma BlockIsWhole(hash: bv32, free: int -> bool)
    ensures forall p :: p in Block(hash, free) <==>
      61000 + 100 * (hash as int % 40) <= p < 61000 + 100 * (hash as int % 40) + 100 && free(p)
    ensures forall i, j :: 0 <= i < j < |Block(hash, free)| ==> Block(hash, free)[i] < Block(hash, free)[j]
  {
    HashDecidesBlock(hash, hash);
    FreePortsAreAll(PickBlockStart(hash), PickBlockStart(hash) + PORTS_PER_ENV, free);
  }

  /** Succeeds exactly when the block has a free port for every name; probes no port twice. */
  method AllocatePortBlock(hash: bv32, serviceNames: seq<string>, free: int -> bool)
    returns (r: Result<PortMap>, ghost probed: seq<int>)
    ensures r.Ok? <==> |serviceNames| <= |Block(hash, free)|
    ensures r.Ok? ==> r.value == Assign(Sort(serviceNames), Block(hash, free))
    ensures Ascending(probed, PickBlockStart(hash), PickBlockStart(hash) + PORTS_PER_ENV)
  {
    hide Sort, PickBlockStart;
    var blockStart := PickBlockStart(hash);
    var end := blockStart + PORTS_PER_ENV;
    ghost var open := FreePorts(blockStart, end, free);
    var ports: PortMap := map[];
    var sorted := Sort(serviceNames);
    var offset := 0;
    probed := [];
    for n := 0 to |sorted|
      invariant 0 <= offset <= PORTS_PER_ENV && n <= |open|
      invariant open[n..] == FreePorts(blockStart + offset, end, free)
      invariant ports == Assign(sorted[..n], open)
      invariant Ascending(probed, blockStart, blockStart + offset)
    {
      var name := sorted[n];
      var port := blockStart + offset;
      if port >= blockStart + PORTS_PER_ENV {
        return Err, probed;
      }
      while !free(port)
        invariant 0 <= offset && port == blockStart + offset < end
        invariant open[n..] == FreePorts(port, end, free)
        invariant Ascending(probed, blockStart, port)
        decreases end - port
      {
        probed := probed + [port];
        offset := offset + 1;
        port := blockStart + offset;
        if port >= blockStart + PORTS_PER_ENV {
          return Err, probed;
        }
      }
      probed := probed + [port];
      assert open[n] == open[n..][0] == port;
      assert open[n + 1..] == open[n..][1..];
      assert sorted[..n + 1][..n] == sorted[..n];
      ports := ports[name := port];
      offset := offset + 1;
    }
    assert sorted[..|sorted|] == sorted;
    return Ok(ports), probed;
  }

  lemma {:induction false} AssignAt(names: seq<string>, ports: seq<int>, k: nat)
    requires |names| <= |ports| && k < |names| && names[k] !in names[k + 1..]
    ensures names[k] in Assign(names, ports) && Assign(names, ports)[names[k]] == ports[k]
  {
    var last := |names| - 1;
    if k < last {
      assert names[..last][k + 1..] == names[k + 1..last] && names[k + 1..] == names[k + 1..last] + [names[last]];
      AssignAt(names[..last], ports, k);
    }
  }

  lemma {:induction false} AssignKeys(names: seq<string>, ports: seq<int>)
    requires |names| <= |ports|
    ensures forall n :: n in Assign(names, ports) <==> n in names
  {
    if names != [] {
      AssignKeys(names[..|names| - 1], ports);
      assert names == names[..|names| - 1] + [names[|names| - 1]];
    }
  }

  lemma StrictlySortedIsDistinct(s: seq<string>)
    requires StrictlySorted(s)
    ensures Distinct(s)
  {
    forall i, j | 0 <= i < j < |s| ensures s[i] != s[j] {
      LessIsTotal(s[i], s[j]);
    }
  }

  /** The k-th smallest of distinct names gets the k-th free port of the block. */
  lemma KthNameGetsKthPort(hash: bv32, names: seq<string>, free: int -> bool, k: nat)
    requires Distinct(names) && k < |names| <= |Block(hash, free)|
    ensures var sorted := Sort(names); var ports := Assign(sorted, Block(hash, free));
      StrictlySorted(sorted) && (forall n :: n in sorted <==> n in names)
      && sorted[k] in ports && ports[sorted[k]] == Block(hash, free)[k]
  {
    var keys := set n | n in names;
    SortSorts(names);
    DistinctOnce(names, keys);
    SetListing(Sort(names), keys);
    StrictlySortedIsDistinct(Sort(names));
    assert Sort(names)[k] !in Sort(names)[k + 1..];
    AssignAt(Sort(names), Block(hash, free), k);
  }

  lemma BlockIsFree(hash: bv32, free: int -> bool)
    ensures forall k :: 0 <= k < |Block(hash, free)| ==>
      PORT_RANGE_START <= Block(hash, free)[k] < PORT_RANGE_END && free(Block(hash, free)[k])
    ensures forall i, j :: 0 <= i < j < |Block(hash, free)| ==> Block(hash, free)[i] < Block(hash, free)[j]
  {
    FreePortsAreAll(PickBlockStart(hash), PickBlockStart(hash) + PORTS_PER_ENV, free);
    forall k | 0 <= k < |Block(hash, free)| ensures Block(hash, free)[k] in Block(hash, free) {
    }
  }

  /** The last place of an element. */
  lemma {:induction false} LastPlace(s: seq<string>, n: string) returns (k: nat)
    requires n in s
    ensures k < |s| && s[k] == n && n !in s[k + 1..]
  {
    k := |s| - 1;
    if s[k] != n {
      assert s == s[..k] + [s[k]];
      var j := LastPlace(s[..k], n);
      assert s[j + 1..] == s[..k][j + 1..] + [s[k]];
      k := j;
    }
  }

  /** The names with a port are the names asked for, repeats or not. */
  lemma EveryNameHasAPort(names: seq<string>, ports: seq<int>)
    requires |names| <= |ports|
    ensures forall n :: n in Assign(Sort(names), ports) <==> n in names
  {
    AssignKeys(Sort(names), ports);
    SortKeepsElements(names);
  }

  /** A name has the port of its last place in the sorted list. */
  lemma RankOf(hash: bv32, names: seq<string>, free: int -> bool, n: string) returns (k: nat)
    requires |names| <= |Block(hash, free)| && n in names
    ensures k < |names| && Sort(names)[k] == n
    ensures var ports := Assign(Sort(names), Block(hash, free)); n in ports && ports[n] == Block(hash, free)[k]
  {
    EveryNameHasAPort(names, Block(hash, free));
    AssignKeys(Sort(names), Block(hash, free));
    k := LastPlace(Sort(names), n);
    AssignAt(Sort(names), Block(hash, free), k);
  }

  /** A name's port is free and in the range. */
  lemma PortIsFree(hash: bv32, names: seq<string>, free: int -> bool, n: string)
    requires |names| <= |Block(hash, free)| && n in names
    ensures var ports := Assign(Sort(names), Block(hash, free));
      n in ports && PORT_RANGE_START <= ports[n] < PORT_RANGE_END && free(ports[n])
  {
    var k := RankOf(hash, names, free, n);
    BlockIsFree(hash, free);
  }

  /** No two names share a port. */
  lemma PortsDiffer(hash: bv32, names: seq<string>, free: int -> bool, a: string, b: string)
    requires |names| <= |Block(hash, free)| && a in names && b in names && a != b
    ensures var ports := Assign(Sort(names), Block(hash, free));
      a in ports && b in ports && ports[a] != ports[b]
  {
    var i := RankOf(hash, names, free, a);
    var j := RankOf(hash, names, free, b);
    BlockIsFree(hash, free);
  }

  /** Every service and infrastructure service, sorted. A name that is both is listed twice. */
  method ServiceNames(cfg: ProjectConfig) returns (names: seq<string>)
    ensures Sorted(names)
    ensures multiset(names) == multiset(Listing(cfg.services.Keys) + Listing(cfg.infraServices.Keys))
    ensures forall n :: n in names <==> n in cfg.services || n in cfg.infraServices
  {
    var own := SortedKeys(cfg.services.Keys);
    var infra := SortedKeys(cfg.infraServices.Keys);
    names := Sort(own + infra);
    SortSorts(own + infra);
    SortKeepsElements(own + infra);
  }
}

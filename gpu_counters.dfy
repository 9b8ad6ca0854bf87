/**
  The GPU side of the "Auto Character Rendering" tweak: which performance
  counters of the "GPU Engine" category are read, and how their readings are
  combined into one utilization figure.

  The counters themselves (category lookup, instance enumeration, NextValue)
  belong to the operating system; here an instance is given as its name and
  the counters the category reports for it, and a counter carries the value
  its second NextValue call returned.
 */
module GpuCounters {

  /** Instances whose name ends with this are the 3D engines. */
  const EngineSuffix: string := "engtype_3D"

  /** The only counter kept from each 3D-engine instance. */
  const UtilizationPercentage: string := "Utilization Percentage"

  /** A performance counter; `reading` is its second sample, taken after the one-second wait. */
  datatype Counter = Counter(counterName: string, reading: real)

  /** An instance of the "GPU Engine" category with the counters the category lists for it. */
  datatype Instance = Instance(name: string, counters: seq<Counter>)

  /** Ordinal suffix test, as `string.EndsWith` is used on instance names. */
  predicate EndsWith(s: string, suffix: string) {
    |suffix| <= |s| && s[|s| - |suffix|..] == suffix
  }

  predicate Is3DEngine(inst: Instance) {
    EndsWith(inst.name, EngineSuffix)
  }

  predicate IsUtilization(c: Counter) {
    c.counterName == UtilizationPercentage
  }

  /** First stage of the query: keep the instances that are 3D engines, in order. */
  function Where3DEngine(insts: seq<Instance>): (r: seq<Instance>)
    ensures |r| <= |insts|
    ensures forall i :: i in r <==> i in insts && Is3DEngine(i)
  {
    if insts == [] then []
    else (if Is3DEngine(insts[0]) then [insts[0]] else []) + Where3DEngine(insts[1..])
  }

  /** The first stage keeps every 3D-engine instance as often as it occurs, and no other instance. */
  lemma {:induction false} Where3DEngineCounts(insts: seq<Instance>)
    ensures forall i :: multiset(Where3DEngine(insts))[i] == if Is3DEngine(i) then multiset(insts)[i] else 0
  {
    if insts != [] {
      assert insts == [insts[0]] + insts[1..];
      Where3DEngineCounts(insts[1..]);
    }
  }

  /** Second stage: concatenate the counters of each instance, in order. */
  function SelectManyCounters(insts: seq<Instance>): (r: seq<Counter>)
    ensures forall c :: c in r <==> exists i :: i in insts && c in i.counters
  {
    if insts == [] then []
    else
      var rest := SelectManyCounters(insts[1..]);
      assert forall i :: i in insts <==> i == insts[0] || i in insts[1..];
      insts[0].counters + rest
  }

  /** Third stage: keep the utilization counters, in order. */
  function WhereUtilization(cs: seq<Counter>): (r: seq<Counter>)
    ensures |r| <= |cs|
    ensures forall c :: c in r <==> c in cs && IsUtilization(c)
  {
    if cs == [] then []
    else (if IsUtilization(cs[0]) then [cs[0]] else []) + WhereUtilization(cs[1..])
  }

  /** The third stage keeps every utilization counter as often as it occurs, and no other counter. */
  lemma {:induction false} WhereUtilizationCounts(cs: seq<Counter>)
    ensures forall c :: multiset(WhereUtilization(cs))[c] == if IsUtilization(c) then multiset(cs)[c] else 0
  {
    if cs != [] {
      assert cs == [cs[0]] + cs[1..];
      WhereUtilizationCounts(cs[1..]);
    }
  }

  /** Selecting over the concatenation of two instance lists concatenates the selections. */
  lemma {:induction false} SelectManyCountersAppend(a: seq<Instance>, b: seq<Instance>)
    ensures SelectManyCounters(a + b) == SelectManyCounters(a) + SelectManyCounters(b)
  {
    if a == [] {
      assert a + b == b;
    } else {
      assert (a + b)[1..] == a[1..] + b;
      SelectManyCountersAppend(a[1..], b);
    }
  }

  /** Filtering a concatenation concatenates the filtered parts: nothing is dropped, duplicated or reordered across the seam. */
  lemma {:induction false} WhereUtilizationAppend(a: seq<Counter>, b: seq<Counter>)
    ensures WhereUtilization(a + b) == WhereUtilization(a) + WhereUtilization(b)
  {
    if a == [] {
      assert a + b == b;
    } else {
      assert (a + b)[1..] == a[1..] + b;
      WhereUtilizationAppend(a[1..], b);
    }
  }

  /**
    The counters Utils.GetCounters returns: exactly the "Utilization
    Percentage" counters of the instances whose name ends with "engtype_3D".
   */
  function GetCounters(insts: seq<Instance>): (r: seq<Counter>)
    ensures forall c :: c in r <==>
      exists i :: i in insts && Is3DEngine(i) && c in i.counters && IsUtilization(c)
  {
    WhereUtilization(SelectManyCounters(Where3DEngine(insts)))
  }

  /** Sum of the readings of the given counters. */
  function GpuUsage(cs: seq<Counter>): (usage: real)
    ensures cs == [] ==> usage == 0.0
    ensures (forall k :: 0 <= k < |cs| ==> cs[k].reading >= 0.0) ==> usage >= 0.0
  {
    if cs == [] then 0.0 else cs[0].reading + GpuUsage(cs[1..])
  }

  /** Reference definition: the sum of the "Utilization Percentage" readings among `cs`, each counted once per occurrence. */
  function UtilizationSum(cs: seq<Counter>): real {
    if cs == [] then 0.0
    else (if IsUtilization(cs[0]) then cs[0].reading else 0.0) + UtilizationSum(cs[1..])
  }

  /** Reference definition: the utilization readings of every 3D-engine instance, added up engine by engine. */
  function EngineUsage(insts: seq<Instance>): real {
    if insts == [] then 0.0
    else (if Is3DEngine(insts[0]) then UtilizationSum(insts[0].counters) else 0.0) + EngineUsage(insts[1..])
  }

  /** Summing the filtered counters adds exactly the utilization readings, each as often as it occurs. */
  lemma {:induction false} GpuUsageOfUtilization(cs: seq<Counter>)
    ensures GpuUsage(WhereUtilization(cs)) == UtilizationSum(cs)
  {
    if cs != [] {
      var head := if IsUtilization(cs[0]) then [cs[0]] else [];
      GpuUsageAppend(head, WhereUtilization(cs[1..]));
      GpuUsageOfUtilization(cs[1..]);
    }
  }

  /**
    The usage read from the selected counters is the sum, over every 3D-engine
    instance, of its utilization readings: the selection keeps each such
    counter exactly as often as it occurs and drops every other one.
   */
  lemma {:induction false} GetCountersUsage(insts: seq<Instance>)
    ensures GpuUsage(GetCounters(insts)) == EngineUsage(insts)
  {
    if insts != [] {
      var h, t := insts[0], insts[1..];
      var head := if Is3DEngine(h) then [h] else [];
      assert Where3DEngine(insts) == head + Where3DEngine(t);
      SelectManyCountersAppend(head, Where3DEngine(t));
      var own := if Is3DEngine(h) then h.counters else [];
      assert SelectManyCounters(head) == own by {
        if Is3DEngine(h) {
          assert SelectManyCounters(head) == h.counters + SelectManyCounters([]);
        }
      }
      WhereUtilizationAppend(own, SelectManyCounters(Where3DEngine(t)));
      GpuUsageAppend(WhereUtilization(own), GetCounters(t));
      GpuUsageOfUtilization(own);
      GetCountersUsage(t);
    }
  }

  /** The usage of a concatenation is the sum of the usages: the readings are added, not averaged. */
  lemma {:induction false} GpuUsageAppend(a: seq<Counter>, b: seq<Counter>)
    ensures GpuUsage(a + b) == GpuUsage(a) + GpuUsage(b)
  {
    if a == [] {
      assert a + b == b;
    } else {
      assert (a + b)[1..] == a[1..] + b;
      GpuUsageAppend(a[1..], b);
    }
  }

  /** With non-negative readings, the usage is at least every single engine's reading. */
  lemma {:induction false} GpuUsageAtLeastEach(cs: seq<Counter>, k: nat)
    requires k < |cs|
    requires forall j :: 0 <= j < |cs| ==> cs[j].reading >= 0.0
    ensures cs[k].reading <= GpuUsage(cs)
  {
    assert forall j :: 0 <= j < |cs[1..]| ==> cs[1..][j].reading >= 0.0 by {
      forall j | 0 <= j < |cs[1..]| ensures cs[1..][j].reading >= 0.0 {
        assert cs[1..][j] == cs[j + 1];
      }
    }
    if k > 0 {
      GpuUsageAtLeastEach(cs[1..], k - 1);
    }
  }

  /** Two 3D engines at 60 percent each give a usage of 120: above 100, and above the step-down limit of 80 though neither engine is. */
  lemma TwoEnginesAdd(a: string, b: string)
    requires EndsWith(a, EngineSuffix) && EndsWith(b, EngineSuffix)
    ensures GpuUsage(GetCounters([
      Instance(a, [Counter(UtilizationPercentage, 60.0)]),
      Instance(b, [Counter(UtilizationPercentage, 60.0)])])) == 120.0
  {
    var c := Counter(UtilizationPercentage, 60.0);
    var insts := [Instance(a, [c]), Instance(b, [c])];
    assert Where3DEngine(insts[1..]) == [insts[1]] + Where3DEngine(insts[2..]);
    assert Where3DEngine(insts) == insts;
    assert SelectManyCounters(insts[1..]) == [c] + SelectManyCounters(insts[2..]);
    assert SelectManyCounters(insts) == [c, c];
    assert WhereUtilization([c, c][1..]) == [c] + WhereUtilization([c, c][2..]);
    assert GetCounters(insts) == [c, c];
    assert GpuUsage([c, c]) == 60.0 + GpuUsage([c, c][1..]);
  }

  /** No 3D-engine counters (the category is empty, or nothing matches) means a usage of zero. */
  lemma NoEnginesMeansIdle(insts: seq<Instance>)
    requires forall i :: i in insts ==> !Is3DEngine(i)
    ensures GpuUsage(GetCounters(insts)) == 0.0
  {
  }
}

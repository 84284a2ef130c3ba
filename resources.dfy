/**
 * The resource handlers that feed the query editor's select boxes: the
 * monitor list, the check list and the instance list, each built from
 * one API call. The JSON encoding of the options is left out; a response
 * carries the option list itself.
 */
module Resources {
  import opened Wrappers
  import opened GoRuntime
  import opened PluginTypes
  import opened Sorting
  import opened Utils

  /** One entry of the monitor list (Name, LogicalName). */
  datatype Monitor = Monitor(name: string, logicalName: string)

  /** One check of a monitor (LogicalName, Name). */
  datatype MonitorCheck = MonitorCheck(logicalName: string, name: string)

  /** The checks of one monitor, as the check endpoint returns them. */
  datatype MonitorChecks = MonitorChecks(monitorLogicalName: string, checks: seq<MonitorCheck>)

  /** The instances of one monitor, as the instance endpoint returns them. */
  datatype MonitorInstances = MonitorInstances(instances: seq<string>)

  /**
   * A CallResourceResponse: a status code and the options its body
   * encodes. The zero response that accompanies an error has status 0 and
   * no body at all.
   */
  datatype ResourceResponse = ResourceResponse(status: int, body: Option<seq<SelectOption>>)

  const StatusOK := 200
  const NoResponse := ResourceResponse(0, None)

  /** The monitor endpoint takes no parameters; the check and instance endpoints take the monitors and the include-shared flag. */
  type MonitorsClient = () -> Result<seq<Monitor>, Error>
  type ChecksClient = (seq<string>, bool) -> Result<seq<MonitorChecks>, Error>
  type InstancesClient = (seq<string>, bool) -> Result<seq<MonitorInstances>, Error>

  /**
   * ResourceMonitorList: one option per monitor, in the order of the
   * list, labelled with the monitor's name and valued with its logical
   * name.
   */
  method ResourceMonitorList(client: MonitorsClient)
    returns (resp: ResourceResponse, err: Option<Error>)
    ensures client().Failure? ==> resp == NoResponse && err == Some(client().error)
    ensures client().Success? ==> err == None && resp.status == StatusOK && resp.body.Some?
    ensures client().Success? ==>
      var ms, options := client().value, resp.body.value;
      && |options| == |ms|
      && forall i | 0 <= i < |ms| :: options[i] == SelectOption(ms[i].name, ms[i].logicalName)
  {
    var monitorList := client();
    if monitorList.Failure? {
      return NoResponse, Some(monitorList.error);
    }
    var ms := monitorList.value;
    var options: seq<SelectOption> := [];
    for i := 0 to |ms|
      invariant |options| == i
      invariant forall k | 0 <= k < i :: options[k] == SelectOption(ms[k].name, ms[k].logicalName)
    {
      options := options + [SelectOption(ms[i].name, ms[i].logicalName)];
    }
    return ResourceResponse(StatusOK, Some(options)), None;
  }

  /** The label of a check option: the monitor's logical name, a colon, the check's name. */
  function CheckLabel(monitorLogicalName: string, checkName: string): string {
    monitorLogicalName + ":" + checkName
  }

  /** The option for check k of entry e. */
  function CheckOption(e: MonitorChecks, k: int): SelectOption
    requires 0 <= k < |e.checks|
  {
    SelectOption(CheckLabel(e.monitorLogicalName, e.checks[k].name), e.checks[k].logicalName)
  }

  /** The options of one entry, in the order of its checks. */
  function EntryOptions(e: MonitorChecks): (r: seq<SelectOption>)
    ensures |r| == |e.checks|
    ensures forall k | 0 <= k < |e.checks| :: r[k] == CheckOption(e, k)
  {
    seq(|e.checks|, k requires 0 <= k < |e.checks| => CheckOption(e, k))
  }

  /** The check options before sorting: entry by entry, check by check. */
  function CheckOptions(entries: seq<MonitorChecks>): seq<SelectOption>
    decreases |entries|
  {
    if entries == [] then []
    else CheckOptions(entries[..|entries| - 1]) + EntryOptions(entries[|entries| - 1])
  }

  /** The number of (entry, check) pairs. */
  function CheckCount(entries: seq<MonitorChecks>): nat
    decreases |entries|
  {
    if entries == [] then 0
    else CheckCount(entries[..|entries| - 1]) + |entries[|entries| - 1].checks|
  }

  /**
   * The unsorted check options are exactly one option per (entry, check)
   * pair: as many as there are pairs, every pair's option among them, and
   * nothing else.
   */
  lemma {:induction false} CheckOptionsArePairs(entries: seq<MonitorChecks>)
    ensures |CheckOptions(entries)| == CheckCount(entries)
    ensures forall i, k | 0 <= i < |entries| && 0 <= k < |entries[i].checks| ::
      CheckOption(entries[i], k) in CheckOptions(entries)
    ensures forall o | o in CheckOptions(entries) ::
      exists i, k | 0 <= i < |entries| && 0 <= k < |entries[i].checks| :: o == CheckOption(entries[i], k)
    decreases |entries|
  {
    if entries != [] {
      var p, e := entries[..|entries| - 1], entries[|entries| - 1];
      CheckOptionsArePairs(p);
      var prefix := CheckOptions(p);
      assert CheckOptions(entries) == prefix + EntryOptions(e);
      forall i, k | 0 <= i < |entries| && 0 <= k < |entries[i].checks|
        ensures CheckOption(entries[i], k) in CheckOptions(entries)
      {
        if i < |p| {
          assert entries[i] == p[i];
          assert CheckOption(p[i], k) in prefix;
        } else {
          assert EntryOptions(e)[k] == CheckOption(entries[i], k);
        }
      }
      forall o | o in CheckOptions(entries)
        ensures exists i, k | 0 <= i < |entries| && 0 <= k < |entries[i].checks| :: o == CheckOption(entries[i], k)
      {
        if o in prefix {
          var i, k :| 0 <= i < |p| && 0 <= k < |p[i].checks| && o == CheckOption(p[i], k);
          assert entries[i] == p[i];
        } else {
          var k :| 0 <= k < |e.checks| && EntryOptions(e)[k] == o;
          assert o == CheckOption(entries[|entries| - 1], k);
        }
      }
    }
  }

  /** Check options are ordered by label alone. */
  predicate ByLabel(a: SelectOption, b: SelectOption) {
    LexLess(a.labelText, b.labelText)
  }

  /** Ordering by label is a strict weak order; options compare equal exactly when their labels are equal. */
  lemma ByLabelStrictWeakOrder()
    ensures StrictWeakOrder(ByLabel)
    ensures forall a, b :: Equivalent(a, b, ByLabel) <==> a.labelText == b.labelText
  {
    LexLessStrictWeakOrder();
    forall a, b ensures Equivalent(a, b, ByLabel) <==> a.labelText == b.labelText {
      assert Equivalent(a, b, ByLabel) <==> Equivalent(a.labelText, b.labelText, LexLess);
      LexLessIrreflexive(a.labelText);
    }
  }

  /** Sorts a sequence with the in-place insertion sort; the result is SortSeq. */
  method SortedCopy<T>(s: seq<T>, less: (T, T) -> bool) returns (r: seq<T>)
    ensures r == SortSeq(s, less)
  {
    var a := new T[|s|](k requires 0 <= k < |s| => s[k]);
    assert a[..] == s;
    InsertionSort(a, less);
    r := a[..];
  }

  /**
   * ResourceCheckList: one option per (entry, check) pair, sorted by
   * label. Go's sort.Slice is not stable, so only sortedness and the
   * multiset of options are promised; the order of equal labels is not.
   */
  method ResourceCheckList(client: ChecksClient, monitors: seq<string>, includeShared: bool)
    returns (resp: ResourceResponse, err: Option<Error>)
    ensures client(monitors, includeShared).Failure? ==>
      resp == NoResponse && err == Some(client(monitors, includeShared).error)
    ensures client(monitors, includeShared).Success? ==>
      err == None && resp.status == StatusOK && resp.body.Some?
    ensures client(monitors, includeShared).Success? ==>
      var options := resp.body.value;
      && SortedBy(options, ByLabel)
      && multiset(options) == multiset(CheckOptions(client(monitors, includeShared).value))
  {
    var checkList := client(monitors, includeShared);
    if checkList.Failure? {
      return NoResponse, Some(checkList.error);
    }
    var entries := checkList.value;
    var options: seq<SelectOption> := [];
    for i := 0 to |entries|
      invariant options == CheckOptions(entries[..i])
    {
      var item := entries[i];
      ghost var before := options;
      for k := 0 to |item.checks|
        invariant options == before + EntryOptions(item)[..k]
      {
        var check := item.checks[k];
        options := options + [SelectOption(CheckLabel(item.monitorLogicalName, check.name), check.logicalName)];
      }
      assert EntryOptions(item)[..|item.checks|] == EntryOptions(item);
      assert entries[..i + 1][..i] == entries[..i];
    }
    assert entries[..|entries|] == entries;
    var sorted := SortedCopy(options, ByLabel);
    ByLabelStrictWeakOrder();
    SortSeqSorted(options, ByLabel);
    SortSeqPermutes(options, ByLabel);
    return ResourceResponse(StatusOK, Some(sorted)), None;
  }

  /** All instances of all entries, entry by entry. */
  function AllInstances(entries: seq<MonitorInstances>): seq<string>
    decreases |entries|
  {
    if entries == [] then []
    else AllInstances(entries[..|entries| - 1]) + entries[|entries| - 1].instances
  }

  /** The instances that appear in some entry. */
  ghost function InstancesOf(entries: seq<MonitorInstances>): set<string> {
    set i, x | 0 <= i < |entries| && x in entries[i].instances :: x
  }

  /** The concatenation holds exactly the instances of the entries. */
  lemma {:induction false} AllInstancesMembers(entries: seq<MonitorInstances>)
    ensures Elements(AllInstances(entries)) == InstancesOf(entries)
    decreases |entries|
  {
    if entries != [] {
      var p, e := entries[..|entries| - 1], entries[|entries| - 1];
      AllInstancesMembers(p);
      assert Elements(AllInstances(entries)) == Elements(AllInstances(p)) + Elements(e.instances);
      forall x | x in InstancesOf(entries) ensures x in InstancesOf(p) + Elements(e.instances) {
        var i :| 0 <= i < |entries| && x in entries[i].instances;
        if i < |p| {
          assert p[i] == entries[i];
        }
      }
      forall x | x in InstancesOf(p) ensures x in InstancesOf(entries) {
        var i :| 0 <= i < |p| && x in p[i].instances;
        assert entries[i] == p[i];
      }
    }
  }

  /** Sorted by `<` and free of duplicates: strictly increasing. */
  lemma SortedDistinctStrict(s: seq<string>)
    requires SortedBy(s, LexLess) && NoDuplicates(s)
    ensures forall i, j | 0 <= i < j < |s| :: LexLess(s[i], s[j])
  {
    forall i, j | 0 <= i < j < |s| ensures LexLess(s[i], s[j]) {
      LexLessTotal(s[i], s[j]);
    }
  }

  /** One option per instance, labelled and valued with the instance. */
  function InstanceOption(instance: string): SelectOption {
    SelectOption(instance, instance)
  }

  /** The values of a list of options. */
  function ValuesOf(options: seq<SelectOption>): set<string> {
    set o | o in options :: o.value
  }

  /** The options for a list of instances, in its order. */
  method InstanceOptions(instances: seq<string>) returns (options: seq<SelectOption>)
    ensures |options| == |instances|
    ensures forall k | 0 <= k < |instances| :: options[k] == InstanceOption(instances[k])
  {
    options := [];
    for i := 0 to |instances|
      invariant |options| == i
      invariant forall k | 0 <= k < i :: options[k] == InstanceOption(instances[k])
    {
      options := options + [InstanceOption(instances[i])];
    }
  }

  /** Options built from a list of instances carry exactly those instances as values. */
  lemma InstanceOptionValues(instances: seq<string>, options: seq<SelectOption>)
    requires |options| == |instances|
    requires forall k | 0 <= k < |instances| :: options[k] == InstanceOption(instances[k])
    ensures ValuesOf(options) == Elements(instances)
  {
    forall x | x in Elements(instances) ensures x in ValuesOf(options) {
      var k :| 0 <= k < |instances| && instances[k] == x;
      assert options[k] in options;
    }
  }

  /**
   * ResourceInstanceList: every instance of every entry once, in
   * ascending order, each as an option whose label is its value.
   */
  method ResourceInstanceList(client: InstancesClient, monitors: seq<string>, includeShared: bool)
    returns (resp: ResourceResponse, err: Option<Error>)
    ensures client(monitors, includeShared).Failure? ==>
      resp == NoResponse && err == Some(client(monitors, includeShared).error)
    ensures client(monitors, includeShared).Success? ==>
      err == None && resp.status == StatusOK && resp.body.Some?
    ensures client(monitors, includeShared).Success? ==>
      var options := resp.body.value;
      && (forall i | 0 <= i < |options| :: options[i].labelText == options[i].value)
      && (forall i, j | 0 <= i < j < |options| :: LexLess(options[i].value, options[j].value))
      && ValuesOf(options) == InstancesOf(client(monitors, includeShared).value)
  {
    var instanceList := client(monitors, includeShared);
    if instanceList.Failure? {
      return NoResponse, Some(instanceList.error);
    }
    var entries := instanceList.value;
    var all: seq<string> := [];
    for i := 0 to |entries|
      invariant all == AllInstances(entries[..i])
    {
      all := all + entries[i].instances;
      assert entries[..i + 1][..i] == entries[..i];
    }
    assert entries[..|entries|] == entries;
    AllInstancesMembers(entries);

    var uniq := UniqStrings(all);
    var sorted := SortedCopy(uniq, LexLess);
    LexLessStrictWeakOrder();
    SortSeqSorted(uniq, LexLess);
    SortSeqPermutes(uniq, LexLess);
    PermutationKeepsDistinct(uniq, sorted);
    SortedDistinctStrict(sorted);
    assert Elements(sorted) == Elements(uniq) by {
      forall x ensures x in sorted <==> x in uniq {
        assert x in sorted <==> x in multiset(sorted);
        assert x in uniq <==> x in multiset(uniq);
      }
    }

    var options := InstanceOptions(sorted);
    InstanceOptionValues(sorted, options);
    return ResourceResponse(StatusOK, Some(options)), None;
  }
}

/**
 * Device selection (ccctrl.py:123-136): discovery must find something, then
 * an optional name allow-list, then the cast-type include/ignore filter, each
 * with its own "nothing left" error.
 */
module Devices {
  import opened Wrappers
  import opened Subsequences
  import opened Errors

  /** A discovered Chromecast as far as selection looks at it. */
  datatype Device = Device(name: string, castType: string)

  /**
   * The selection options given on the command line: `-d` names, `-i`
   * include-types and `-I` ignore-types. A `-d` list that was never given
   * and an empty one are the same here, as both are false at ccctrl.py:126.
   */
  datatype Criteria = Criteria(names: seq<string>, includeTypes: seq<string>, ignoreTypes: seq<string>)

  /** Phase 1 admits a device when there is no allow-list or it names the device. */
  predicate NameAdmits(names: seq<string>, d: Device)
  {
    names == [] || d.name in names
  }

  /** Phase 2 admits a device when its type is not ignored and is included (or nothing is). */
  predicate TypeAdmits(includeTypes: seq<string>, ignoreTypes: seq<string>, d: Device)
  {
    d.castType !in ignoreTypes && (includeTypes == [] || d.castType in includeTypes)
  }

  /** A device survives both phases. */
  predicate Selected(c: Criteria, d: Device)
  {
    NameAdmits(c.names, d) && TypeAdmits(c.includeTypes, c.ignoreTypes, d)
  }

  /** The name allow-list phase (ccctrl.py:126-127). */
  function ByName(devices: seq<Device>, names: seq<string>): (r: seq<Device>)
    ensures names == [] ==> r == devices
    ensures IsSubseq(r, devices)
    ensures forall d :: d in r <==> d in devices && (names == [] || d.name in names)
    ensures forall d :: multiset(r)[d] == if NameAdmits(names, d) then multiset(devices)[d] else 0
  {
    if names == [] then SubseqRefl(devices); devices
    else
      var keep := (d: Device) => d.name in names;
      FilterIsSubseq(devices, keep);
      FilterMembers(devices, keep);
      FilterCount(devices, keep);
      Filter(devices, keep)
  }

  /** The cast-type phase (ccctrl.py:130-134); an ignored type is dropped even if included. */
  function ByType(devices: seq<Device>, includeTypes: seq<string>, ignoreTypes: seq<string>): (r: seq<Device>)
    ensures IsSubseq(r, devices)
    ensures forall d :: d in r <==> d in devices && d.castType !in ignoreTypes
                                    && (includeTypes == [] || d.castType in includeTypes)
    ensures forall d :: multiset(r)[d] == if TypeAdmits(includeTypes, ignoreTypes, d) then multiset(devices)[d] else 0
  {
    var keep := (d: Device) => TypeAdmits(includeTypes, ignoreTypes, d);
    FilterIsSubseq(devices, keep);
    FilterMembers(devices, keep);
    FilterCount(devices, keep);
    Filter(devices, keep)
  }

  /** Discovery check plus both phases, each failing as the tool does (ccctrl.py:124-136). */
  function Select(discovered: seq<Device>, c: Criteria): (r: Result<seq<Device>, Error>)
    ensures discovered == [] ==> r == Failure(NoDevicesDetected)
    ensures r.Failure? ==> r.error == NoDevicesDetected || r.error == NoNameMatch(c.names) || r.error == NoCriteriaMatch
    ensures r.Success? ==> r.value != [] && IsSubseq(r.value, discovered)
  {
    if discovered == [] then Failure(NoDevicesDetected)
    else
      var named := ByName(discovered, c.names);
      if c.names != [] && named == [] then Failure(NoNameMatch(c.names))
      else
        var typed := ByType(named, c.includeTypes, c.ignoreTypes);
        if typed == [] then Failure(NoCriteriaMatch)
        else SubseqTrans(typed, named, discovered); Success(typed)
  }

  /** The two phases together are one order-preserving filter by `Selected`. */
  lemma PhasesCompose(discovered: seq<Device>, c: Criteria)
    ensures ByType(ByName(discovered, c.names), c.includeTypes, c.ignoreTypes)
            == Filter(discovered, d => Selected(c, d))
  {
    var named := ByName(discovered, c.names);
    var typed := ByType(named, c.includeTypes, c.ignoreTypes);
    SubseqTrans(typed, named, discovered);
    FilterUnique(typed, discovered, d => Selected(c, d));
  }

  /**
   * What `Select` reports: exactly one error per failing stage, checked in the
   * tool's order, and on success every selected device in discovery order
   * with all its occurrences, and nothing else.
   */
  lemma SelectOutcome(discovered: seq<Device>, c: Criteria)
    ensures Select(discovered, c) == Failure(NoDevicesDetected) <==> discovered == []
    ensures Select(discovered, c) == Failure(NoNameMatch(c.names))
            <==> discovered != [] && c.names != [] && forall d :: d in discovered ==> d.name !in c.names
    ensures Select(discovered, c) == Failure(NoCriteriaMatch)
            <==> (exists d :: d in discovered && NameAdmits(c.names, d))
                 && forall d :: d in discovered && NameAdmits(c.names, d) ==> !TypeAdmits(c.includeTypes, c.ignoreTypes, d)
    ensures Select(discovered, c).Success? <==> exists d :: d in discovered && Selected(c, d)
    ensures Select(discovered, c).Success? ==>
              var s := Select(discovered, c).value;
              IsSubseq(s, discovered)
              && (forall d :: d in s <==> d in discovered && Selected(c, d))
              && (forall d :: multiset(s)[d] == if Selected(c, d) then multiset(discovered)[d] else 0)
  {
    var named := ByName(discovered, c.names);
    var typed := ByType(named, c.includeTypes, c.ignoreTypes);
    PhasesCompose(discovered, c);
    var keep := (d: Device) => Selected(c, d);
    FilterIsSubseq(discovered, keep);
    FilterMembers(discovered, keep);
    FilterCount(discovered, keep);
    if discovered != [] {
      assert discovered[0] in discovered;
    }
    if named != [] {
      assert named[0] in named;
    }
    if typed != [] {
      assert typed[0] in typed;
    }
  }

  /**
   * The selection is the only order-preserving subsequence of the discovered
   * devices that keeps every occurrence of a selected device and no other.
   */
  lemma SelectUnique(discovered: seq<Device>, c: Criteria, s: seq<Device>)
    requires Select(discovered, c).Success?
    requires IsSubseq(s, discovered)
    requires forall d :: multiset(s)[d] == if Selected(c, d) then multiset(discovered)[d] else 0
    ensures s == Select(discovered, c).value
  {
    PhasesCompose(discovered, c);
    FilterUnique(s, discovered, d => Selected(c, d));
  }
}

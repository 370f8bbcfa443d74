/**
 * The run itself (ccctrl.py:120-164): select the devices, build the actions,
 * then apply every action to every device in turn, or list the devices when
 * no action was asked for. Each device operation is recorded in a trace
 * instead of being sent to the device.
 */
module Control {
  import opened Wrappers
  import opened Errors
  import opened Devices
  import opened Actions

  /** One observable step of a run. */
  datatype Event =
    | Invoked(device: Device, action: Action) // `a.run(d)` (ccctrl.py:162)
    | Listed(device: Device)                  // `print(d)` (ccctrl.py:164)

  /** What the runner does for one device. */
  function PerDevice(d: Device, actions: seq<Action>): seq<Event>
  {
    if actions == [] then [Listed(d)] else seq(|actions|, j requires 0 <= j < |actions| => Invoked(d, actions[j]))
  }

  /** Device-major order: all of the first device's steps, then the next device's, and so on. */
  function DeviceMajor(devices: seq<Device>, actions: seq<Action>): seq<Event>
    decreases |devices|
  {
    if devices == [] then []
    else DeviceMajor(devices[..|devices| - 1], actions) + PerDevice(devices[|devices| - 1], actions)
  }

  lemma {:induction false} DeviceMajorLength(devices: seq<Device>, actions: seq<Action>)
    ensures |DeviceMajor(devices, actions)| == |devices| * (if actions == [] then 1 else |actions|)
    decreases |devices|
  {
    if devices != [] {
      DeviceMajorLength(devices[..|devices| - 1], actions);
      var m := if actions == [] then 1 else |actions|;
      assert (|devices| - 1) * m + m == |devices| * m;
    }
  }

  lemma {:induction false} Positions(i: nat, j: nat, m: nat, n: nat)
    requires i < n && j < m
    ensures 0 <= i * m && i * m + j < n * m
  {
    if i > 0 {
      Positions(i - 1, j, m, n - 1);
      assert i * m == (i - 1) * m + m;
      assert n * m == (n - 1) * m + m;
    }
  }

  /**
   * Step `j` of device `i` sits at position `i * m + j` of the trace, where
   * `m` is the number of steps per device.
   */
  lemma {:induction false} DeviceMajorAt(devices: seq<Device>, actions: seq<Action>, m: nat, i: nat, j: nat)
    requires m == (if actions == [] then 1 else |actions|)
    requires i < |devices| && j < m
    ensures 0 <= i * m + j < |DeviceMajor(devices, actions)|
    ensures DeviceMajor(devices, actions)[i * m + j] == PerDevice(devices[i], actions)[j]
    decreases |devices|
  {
    var n := |devices|;
    var front := devices[..n - 1];
    var last := PerDevice(devices[n - 1], actions);
    DeviceMajorLength(devices, actions);
    DeviceMajorLength(front, actions);
    assert |last| == m;
    assert DeviceMajor(devices, actions) == DeviceMajor(front, actions) + last;
    Positions(i, j, m, n);
    if i < n - 1 {
      DeviceMajorAt(front, actions, m, i, j);
      assert front[i] == devices[i];
    } else {
      assert i * m + j - |DeviceMajor(front, actions)| == j;
    }
  }

  /** Position `k` of the trace exists and invokes `a` on `d`. */
  predicate InvokedAt(trace: seq<Event>, k: int, d: Device, a: Action)
  {
    0 <= k < |trace| && trace[k] == Invoked(d, a)
  }

  lemma InvokedPosition(devices: seq<Device>, actions: seq<Action>, i: nat, j: nat)
    requires actions != [] && i < |devices| && j < |actions|
    ensures InvokedAt(DeviceMajor(devices, actions), i * |actions| + j, devices[i], actions[j])
  {
    DeviceMajorAt(devices, actions, |actions|, i, j);
    assert PerDevice(devices[i], actions)[j] == Invoked(devices[i], actions[j]);
  }

  /**
   * The trace is exactly the device-major listing: with actions, entry
   * `i * |actions| + j` is action `j` on device `i` and there are no other
   * entries; with none, entry `i` lists device `i` and nothing is invoked.
   */
  lemma DeviceMajorOrder(devices: seq<Device>, actions: seq<Action>)
    ensures var trace := DeviceMajor(devices, actions);
            actions != [] ==>
              |trace| == |devices| * |actions|
              && forall i, j :: 0 <= i < |devices| && 0 <= j < |actions| ==>
                   InvokedAt(trace, i * |actions| + j, devices[i], actions[j])
    ensures var trace := DeviceMajor(devices, actions);
            actions == [] ==>
              |trace| == |devices| && forall i :: 0 <= i < |devices| ==> trace[i] == Listed(devices[i])
  {
    var trace := DeviceMajor(devices, actions);
    DeviceMajorLength(devices, actions);
    if actions != [] {
      forall i, j | 0 <= i < |devices| && 0 <= j < |actions|
        ensures InvokedAt(trace, i * |actions| + j, devices[i], actions[j])
      {
        InvokedPosition(devices, actions, i, j);
      }
    } else {
      forall i | 0 <= i < |devices| ensures trace[i] == Listed(devices[i]) {
        DeviceMajorAt(devices, actions, 1, i, 0);
        assert i * 1 + 0 == i;
      }
    }
  }

  /**
   * The runner loop (ccctrl.py:156-164). With actions, the trace holds, for
   * each device in order, each action in order and nothing else; without
   * actions, it only lists each device.
   */
  method Run(devices: seq<Device>, actions: seq<Action>) returns (trace: seq<Event>)
    ensures trace == DeviceMajor(devices, actions)
    ensures actions != [] ==>
              |trace| == |devices| * |actions|
              && forall i, j :: 0 <= i < |devices| && 0 <= j < |actions| ==>
                   InvokedAt(trace, i * |actions| + j, devices[i], actions[j])
    ensures actions == [] ==>
              |trace| == |devices| && forall i :: 0 <= i < |devices| ==> trace[i] == Listed(devices[i])
  {
    trace := [];
    var i := 0;
    while i < |devices|
      invariant 0 <= i <= |devices|
      invariant trace == DeviceMajor(devices[..i], actions)
    {
      var d := devices[i];
      if actions != [] {
        var k := 0;
        ghost var before := trace;
        while k < |actions|
          invariant 0 <= k <= |actions|
          invariant trace == before + PerDevice(d, actions)[..k]
        {
          trace := trace + [Invoked(d, actions[k])];
          k := k + 1;
        }
        assert PerDevice(d, actions)[..k] == PerDevice(d, actions);
      } else {
        trace := trace + [Listed(d)];
      }
      assert devices[..i + 1][..i] == devices[..i];
      i := i + 1;
    }
    assert devices[..i] == devices;
    DeviceMajorOrder(devices, actions);
  }

  /**
   * The whole `__main__` block. The first failing check, in the tool's order
   * (discovery, name filter, type filter, volume), is what is reported, and
   * then nothing at all is done to any device; otherwise the trace is the
   * device-major run of the built actions over the selected devices.
   */
  method Execute(discovered: seq<Device>, c: Criteria, flags: Flags) returns (outcome: Result<seq<Event>, Error>)
    ensures Select(discovered, c).Failure? ==> outcome == Failure(Select(discovered, c).error)
    ensures Select(discovered, c).Success? && !VolumeArgumentOk(flags) ==> outcome == Failure(VolumeOutOfRange)
    ensures outcome.Success? <==> Select(discovered, c).Success? && VolumeArgumentOk(flags)
    ensures outcome.Success? ==> outcome.value == DeviceMajor(Select(discovered, c).value, ActionList(flags))
  {
    var selected := Select(discovered, c);
    if selected.Failure? {
      return Failure(selected.error);
    }
    var built := BuildActions(flags);
    if built.Failure? {
      return Failure(built.error);
    }
    var trace := Run(selected.value, built.value);
    outcome := Success(trace);
  }
}

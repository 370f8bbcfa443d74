/**
 * Actions and the action builder (ccctrl.py:86-111, 137-155). The source
 * dispatches by method name through `getattr`; here the actions form a closed
 * datatype, and the name-and-arguments call each one stands for is given by
 * `Invocation`.
 */
module Actions {
  import opened Wrappers
  import opened Subsequences
  import opened Errors

  /**
   * A Python float as `argparse` produces it for `--set-volume`: a finite
   * value, an infinity, or NaN. Only the comparisons at ccctrl.py:138 are
   * applied to it.
   */
  datatype Float = Finite(value: real) | PosInf | NegInf | NaN

  /** IEEE `x < y` for a finite `y`; false whenever `x` is NaN. */
  predicate Less(x: Float, y: real)
  {
    match x
    case Finite(v) => v < y
    case NegInf => true
    case PosInf => false
    case NaN => false
  }

  /** IEEE `x > y` for a finite `y`; false whenever `x` is NaN. */
  predicate Greater(x: Float, y: real)
  {
    match x
    case Finite(v) => v > y
    case PosInf => true
    case NegInf => false
    case NaN => false
  }

  /** The guard of ccctrl.py:138 as written: reject when below 0.0 or above 1.0. */
  predicate RejectedAsWritten(v: Float)
    ensures RejectedAsWritten(v) ==> !VolumeInRange(v)
  {
    Less(v, 0.0) || Greater(v, 1.0)
  }

  /** The guard as intended: accept exactly the values in the closed range [0.0, 1.0]. */
  predicate VolumeInRange(v: Float)
  {
    v.Finite? && 0.0 <= v.value <= 1.0
  }

  /** The guard as written lets NaN through, although NaN is not in [0.0, 1.0]. */
  lemma NaNPassesGuard()
    ensures !RejectedAsWritten(NaN) && !VolumeInRange(NaN)
  {
  }

  /** Apart from NaN, the guard as written rejects exactly what is out of range. */
  lemma GuardAgreesOffNaN(v: Float)
    requires v != NaN
    ensures RejectedAsWritten(v) <==> !VolumeInRange(v)
  {
  }

  /** The action flags of the command line (ccctrl.py:41-83). */
  datatype Flags = Flags(
    setVolume: Option<Float>,
    show: bool,
    mute: bool,
    unmute: bool,
    reboot: bool,
    volumeUp: bool,
    volumeDown: bool)

  /** One operation applied to a device. */
  datatype Action =
    | SetVolume(level: real)
    | Show
    | SetMuted(muted: bool)
    | Reboot
    | VolumeUp
    | VolumeDown

  /** A set-volume request, if any, passes the range check. */
  predicate VolumeArgumentOk(flags: Flags)
  {
    flags.setVolume.Some? ==> VolumeInRange(flags.setVolume.value)
  }

  /** The level a set-volume request carries (0.0 when there is none). */
  function RequestedLevel(flags: Flags): real
  {
    if flags.setVolume.Some? && flags.setVolume.value.Finite? then flags.setVolume.value.value else 0.0
  }

  /** Whether the flags ask for action `a`. */
  predicate Requested(flags: Flags, a: Action)
  {
    match a
    case SetVolume(level) => flags.setVolume == Some(Finite(level))
    case Show => flags.show
    case SetMuted(muted) => if muted then flags.mute else flags.unmute
    case Reboot => flags.reboot
    case VolumeUp => flags.volumeUp
    case VolumeDown => flags.volumeDown
  }

  /** The builder's fixed precedence: the position of each kind of action. */
  function Rank(a: Action): int
  {
    match a
    case SetVolume(_) => 0
    case Show => 1
    case SetMuted(muted) => if muted then 2 else 3
    case Reboot => 4
    case VolumeUp => 5
    case VolumeDown => 6
  }

  /** Every kind of action once, in precedence order. */
  function Precedence(level: real): seq<Action>
  {
    [SetVolume(level), Show, SetMuted(true), SetMuted(false), Reboot, VolumeUp, VolumeDown]
  }

  /** `Requested` for fixed flags, as a filter predicate. */
  function Wanted(flags: Flags): Action -> bool
  {
    a => Requested(flags, a)
  }

  /** Reference definition of the built list: the requested part of the precedence order. */
  function ActionList(flags: Flags): seq<Action>
  {
    Filter(Precedence(RequestedLevel(flags)), Wanted(flags))
  }

  /** How many action flags are given. */
  function FlagCount(flags: Flags): nat
  {
    (if flags.setVolume.Some? then 1 else 0) + (if flags.show then 1 else 0)
    + (if flags.mute then 1 else 0) + (if flags.unmute then 1 else 0)
    + (if flags.reboot then 1 else 0) + (if flags.volumeUp then 1 else 0)
    + (if flags.volumeDown then 1 else 0)
  }

  /** The mutually exclusive group of ccctrl.py:41, which the builder itself does not enforce. */
  predicate AtMostOneAction(flags: Flags)
  {
    FlagCount(flags) <= 1
  }

  function Opt(b: bool, a: Action): seq<Action>
  {
    if b then [a] else []
  }

  /** The reference list written out flag by flag. */
  lemma ActionListUnfolded(flags: Flags)
    requires VolumeArgumentOk(flags)
    ensures ActionList(flags)
            == Opt(flags.setVolume.Some?, SetVolume(RequestedLevel(flags))) + (Opt(flags.show, Show)
               + (Opt(flags.mute, SetMuted(true)) + (Opt(flags.unmute, SetMuted(false))
               + (Opt(flags.reboot, Reboot) + (Opt(flags.volumeUp, VolumeUp) + Opt(flags.volumeDown, VolumeDown))))))
  {
    var keep := Wanted(flags);
    var p := Precedence(RequestedLevel(flags));
    assert Filter(p[7..], keep) == [] by {
      assert p[7..] == [];
    }
    ghost var t6 := Opt(flags.volumeDown, VolumeDown);
    assert Filter(p[6..], keep) == t6 by {
      assert p[6] == VolumeDown && keep(p[6]) == flags.volumeDown;
      FilterStep(p, 6, keep);
    }
    ghost var t5 := Opt(flags.volumeUp, VolumeUp) + t6;
    assert Filter(p[5..], keep) == t5 by {
      assert p[5] == VolumeUp && keep(p[5]) == flags.volumeUp;
      FilterStep(p, 5, keep);
    }
    ghost var t4 := Opt(flags.reboot, Reboot) + t5;
    assert Filter(p[4..], keep) == t4 by {
      assert p[4] == Reboot && keep(p[4]) == flags.reboot;
      FilterStep(p, 4, keep);
    }
    ghost var t3 := Opt(flags.unmute, SetMuted(false)) + t4;
    assert Filter(p[3..], keep) == t3 by {
      assert p[3] == SetMuted(false) && keep(p[3]) == flags.unmute;
      FilterStep(p, 3, keep);
    }
    ghost var t2 := Opt(flags.mute, SetMuted(true)) + t3;
    assert Filter(p[2..], keep) == t2 by {
      assert p[2] == SetMuted(true) && keep(p[2]) == flags.mute;
      FilterStep(p, 2, keep);
    }
    ghost var t1 := Opt(flags.show, Show) + t2;
    assert Filter(p[1..], keep) == t1 by {
      assert p[1] == Show && keep(p[1]) == flags.show;
      FilterStep(p, 1, keep);
    }
    ghost var t0 := Opt(flags.setVolume.Some?, SetVolume(RequestedLevel(flags))) + t1;
    assert Filter(p[0..], keep) == t0 by {
      assert p[0] == SetVolume(RequestedLevel(flags)) && keep(p[0]) == flags.setVolume.Some?;
      FilterStep(p, 0, keep);
    }
    assert p[0..] == p;
  }

  lemma Reassociate<T>(a: seq<T>, b: seq<T>, c: seq<T>, d: seq<T>, e: seq<T>, f: seq<T>, g: seq<T>)
    ensures a + b + c + d + e + f + g == a + (b + (c + (d + (e + (f + g)))))
  {
    assert e + f + g == e + (f + g);
    assert d + e + f + g == d + (e + (f + g));
    assert c + d + e + f + g == c + (d + (e + (f + g)));
    assert b + c + d + e + f + g == b + (c + (d + (e + (f + g))));
  }

  lemma OptLength(b: bool, a: Action)
    ensures |Opt(b, a)| == if b then 1 else 0
  {
  }

  /**
   * The builder (ccctrl.py:137-155): an out-of-range volume fails before any
   * list exists; otherwise the requested actions in precedence order.
   */
  method BuildActions(flags: Flags) returns (r: Result<seq<Action>, Error>)
    ensures r.Failure? <==> !VolumeArgumentOk(flags)
    ensures r.Failure? ==> r.error == VolumeOutOfRange
    ensures r.Success? ==> r.value == ActionList(flags)
  {
    var actions: seq<Action>;
    if flags.setVolume.Some? {
      var v := flags.setVolume.value;
      if Less(v, 0.0) || Greater(v, 1.0) || v.NaN? {
        return Failure(VolumeOutOfRange);
      }
      actions := [SetVolume(v.value)];
    } else {
      actions := [];
    }
    ghost var expected := Opt(flags.setVolume.Some?, SetVolume(RequestedLevel(flags)));
    assert actions == expected;
    if flags.show {
      actions := actions + [Show];
    }
    expected := expected + Opt(flags.show, Show);
    assert actions == expected;
    if flags.mute {
      actions := actions + [SetMuted(true)];
    }
    expected := expected + Opt(flags.mute, SetMuted(true));
    assert actions == expected;
    if flags.unmute {
      actions := actions + [SetMuted(false)];
    }
    expected := expected + Opt(flags.unmute, SetMuted(false));
    assert actions == expected;
    if flags.reboot {
      actions := actions + [Reboot];
    }
    expected := expected + Opt(flags.reboot, Reboot);
    assert actions == expected;
    if flags.volumeUp {
      actions := actions + [VolumeUp];
    }
    expected := expected + Opt(flags.volumeUp, VolumeUp);
    assert actions == expected;
    if flags.volumeDown {
      actions := actions + [VolumeDown];
    }
    expected := expected + Opt(flags.volumeDown, VolumeDown);
    assert actions == expected;
    assert actions == ActionList(flags) by {
      ActionListUnfolded(flags);
      Reassociate(Opt(flags.setVolume.Some?, SetVolume(RequestedLevel(flags))), Opt(flags.show, Show),
                  Opt(flags.mute, SetMuted(true)), Opt(flags.unmute, SetMuted(false)),
                  Opt(flags.reboot, Reboot), Opt(flags.volumeUp, VolumeUp), Opt(flags.volumeDown, VolumeDown));
    }
    r := Success(actions);
  }

  /** The built list holds exactly the requested actions. */
  lemma ActionListMembers(flags: Flags)
    ensures forall a :: a in ActionList(flags) <==> Requested(flags, a)
  {
    var keep := Wanted(flags);
    var p := Precedence(RequestedLevel(flags));
    FilterMembers(p, keep);
    forall a | Requested(flags, a) ensures a in p {
      if a.SetVolume? {
        assert p[0] == a;
      }
    }
  }

  /** The built list follows the precedence order, so holds no action twice. */
  lemma ActionListAscending(flags: Flags)
    ensures Ascending(ActionList(flags), Rank)
  {
    var p := Precedence(RequestedLevel(flags));
    FilterIsSubseq(p, Wanted(flags));
    SubseqAscending(ActionList(flags), p, Rank);
  }

  /**
   * The built list has one entry per action flag; under the command line's
   * mutual exclusion it has at most one.
   */
  lemma ActionListLength(flags: Flags)
    requires VolumeArgumentOk(flags)
    ensures |ActionList(flags)| == FlagCount(flags)
    ensures AtMostOneAction(flags) ==> |ActionList(flags)| <= 1
  {
    ActionListUnfolded(flags);
    OptLength(flags.setVolume.Some?, SetVolume(RequestedLevel(flags)));
    OptLength(flags.show, Show);
    OptLength(flags.mute, SetMuted(true));
    OptLength(flags.unmute, SetMuted(false));
    OptLength(flags.reboot, Reboot);
    OptLength(flags.volumeUp, VolumeUp);
    OptLength(flags.volumeDown, VolumeDown);
  }

  /**
   * The order of the built list depends only on which actions were asked
   * for: any list of exactly the requested actions that follows the
   * precedence order is the built list, whatever order the flags came in.
   */
  lemma OrderIsPrecedence(flags: Flags, other: seq<Action>)
    requires Ascending(other, Rank)
    requires forall a :: a in other <==> Requested(flags, a)
    ensures other == ActionList(flags)
  {
    ActionListMembers(flags);
    ActionListAscending(flags);
    AscendingUnique(other, ActionList(flags), Rank);
  }

  /** An argument of a device operation. */
  datatype Arg = RealArg(r: real) | BoolArg(b: bool)

  /** A device operation named as the device object names it, with its positional arguments. */
  datatype Call = Call(name: string, args: seq<Arg>)

  /**
   * The `Action(name, args)` record each action stands for (ccctrl.py:141-155),
   * invoked through `getattr` (ccctrl.py:108-111); the show action reads status
   * instead and has none.
   */
  function Invocation(a: Action): (c: Option<Call>)
    ensures c.None? <==> a == Show
  {
    match a
    case SetVolume(level) => Some(Call("set_volume", [RealArg(level)]))
    case Show => None
    case SetMuted(muted) => Some(Call("set_volume_muted", [BoolArg(muted)]))
    case Reboot => Some(Call("reboot", []))
    case VolumeUp => Some(Call("volume_up", []))
    case VolumeDown => Some(Call("volume_down", []))
  }

  /** The action a call record stands for, if any. */
  function Decode(c: Call): Option<Action>
  {
    if c.name == "set_volume" && |c.args| == 1 && c.args[0].RealArg? then Some(SetVolume(c.args[0].r))
    else if c.name == "set_volume_muted" && |c.args| == 1 && c.args[0].BoolArg? then Some(SetMuted(c.args[0].b))
    else if c.name == "reboot" && c.args == [] then Some(Reboot)
    else if c.name == "volume_up" && c.args == [] then Some(VolumeUp)
    else if c.name == "volume_down" && c.args == [] then Some(VolumeDown)
    else None
  }

  /** The closed datatype loses nothing against the name-and-arguments record. */
  lemma InvocationRoundTrip(a: Action)
    requires a != Show
    ensures Decode(Invocation(a).value) == Some(a)
  {
  }

  /**
   * Conversely, every record that decodes is the record of the action it
   * decodes to: the decodable records are exactly the call records of the
   * five non-show actions, at any argument value.
   */
  lemma DecodeSound(c: Call, a: Action)
    requires Decode(c) == Some(a)
    ensures a != Show && Invocation(a) == Some(c)
  {
    if c.name == "set_volume" && |c.args| == 1 && c.args[0].RealArg? {
      assert c.args == [RealArg(c.args[0].r)];
    } else if c.name == "set_volume_muted" && |c.args| == 1 && c.args[0].BoolArg? {
      assert c.args == [BoolArg(c.args[0].b)];
    }
  }

  /** A device's status as the show action reads it. */
  datatype Status = Status(volumeLevel: real, volumeMuted: bool)

  /** What the show action prints. */
  datatype Report = VolumeLine(level: real, state: string) | NoStatusLine

  /** The show action (ccctrl.py:88-98). */
  function ShowReport(status: Option<Status>): Report
  {
    match status
    case None => NoStatusLine
    case Some(s) => VolumeLine(s.volumeLevel, if s.volumeMuted then "muted" else "unmuted")
  }
}

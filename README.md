# Chromecast control panel: selection and dispatch model

A Dafny model of the command-line tool `ccctrl.py`. The tool discovers
Chromecast devices on the local network. It narrows them down by name and by
cast type, builds a list of control actions from its flags, and then applies
every action to every selected device. The model covers that pipeline and
proves what it promises:

- which devices are chosen, in which order, and with which error when none are;
- which volumes are accepted;
- what the action list holds and in what order;
- what the runner does to each device, and in what order.

Files, one module each:

- `wrappers.dfy` (`Wrappers`): `Option` and `Result`.
- `subsequences.dfy` (`Subsequences`): `Filter`, the list comprehension
  `[x for x in xs if keep(x)]`, with its laws: membership, occurrence counts,
  order preservation and transitivity (`IsSubseq`, `SubseqTrans`), and uniqueness. It also holds
  the facts about sequences in ascending rank order that the action builder
  uses.
- `errors.dfy` (`Errors`): the four error conditions and their messages.
- `devices.dfy` (`Devices`): devices, the selection criteria and the two
  filter phases.
- `actions.dfy` (`Actions`): Python floats as far as the volume guard sees
  them, the closed action datatype that replaces the `getattr` dispatch, the
  action builder (a method) and its reference definition `ActionList`. The
  reference definition is the requested part of the fixed precedence order
  set-volume, show, mute, unmute, reboot, volume-up, volume-down. This
  module also holds the show action's report.
- `control.dfy` (`Control`): the runner loop (a method with nested loops
  that extends a trace) and `Execute`, the whole `__main__` block.

Device operations do not reach a device. Each one is recorded in the trace:
`Invoked(device, action)` for `a.run(d)` and `Listed(device)` for the
`print(d)` fallback. Discovery is an input sequence. Stopping the process
with an error is a `Failure` result. A `Failure` carries no trace, so an
error means no device was touched.

Three points of the code's behaviour that the model keeps:

- The name-filter "nothing matched" check runs only when names were given
  (ccctrl.py:126-129). With no names, an empty result can only come from the
  type filter.
- The action builder does not enforce the mutually exclusive group. `argparse`
  enforces it (ccctrl.py:41). The model states it separately as
  `AtMostOneAction` and does not apply it in the builder.
- A volume is checked only after both device filters have succeeded, so a
  device error takes precedence over a volume error (ccctrl.py:124-139).

## Model

| member | source | states |
|---|---|---|
| Devices.ByName | ccctrl.py:126-127 | With no allow-list the devices are unchanged. Otherwise the result is exactly the devices whose name is in the list, in their original order, each with all of its occurrences. |
| Devices.ByType | ccctrl.py:130-134 | A device survives iff its type is not ignored and the include-list is empty or holds its type. An ignored type is dropped even when it is included. The result is a subsequence of the input that keeps every occurrence of a survivor. |
| Devices.PhasesCompose | ccctrl.py:126-134 | The two phases in sequence are one order-preserving filter by the combined rule `Selected`. |
| Devices.SelectOutcome | ccctrl.py:123-136 | Failure "no devices detected" iff discovery is empty. Failure "no name match" iff discovery is non-empty, names were given and none matches. Failure "no criteria match" iff some device passes the name phase and none passes the type phase. Success iff some discovered device is selected, and then the result is an order-preserving subsequence holding exactly the selected devices with all their occurrences. |
| Devices.Select | ccctrl.py:123-136 | Empty discovery is the discovery error. Every failure is one of the three selection errors. A success is a non-empty, order-preserving subsequence of the discovered devices. Its full contract (each error exactly when its stage leaves nothing, and exactly the selected devices on success) is given by the SelectOutcome row. |
| Devices.SelectUnique | ccctrl.py:126-134 | Any subsequence of the discovered devices that keeps every occurrence of a selected device and no other device is the selection. |
| Errors.Message | ccctrl.py:124-139 | The four message texts passed to the error reporter. Each is a sentence ending in a period. That the messages tell the errors apart is given by the MessagesDistinct row. |
| Errors.MessagesDistinct | ccctrl.py:124-139 | Errors of different kinds never print the same message. Two name-filter messages are equal only if the lists they show are equal, and then the name lists are equal when no name holds a single quote. |
| Errors.JoinNamesInjective | ccctrl.py:129 | For names without single quotes, the rendered list determines the list of names. |
| Errors.ReprNames | ccctrl.py:129 | The list shown in the name-filter message is bracketed like a Python list repr. |
| Errors.ErrorLineDetermines | ccctrl.py:114-117 | Equal printed error lines come from equal messages. So they come from the same kind of error, and from the same error unless it is a name-filter error whose names hold a single quote. |
| Actions.RejectedAsWritten | ccctrl.py:138 | The guard as written never rejects a volume in [0.0, 1.0]. That it lets NaN through is given by the NaNPassesGuard row. |
| Actions.NaNPassesGuard | ccctrl.py:137-141 | As written, the range guard does not reject NaN, although NaN is not in [0.0, 1.0]. |
| Actions.GuardAgreesOffNaN | ccctrl.py:138 | For every value except NaN, the guard as written rejects exactly the values outside the closed range [0.0, 1.0], so both bounds are accepted. |
| Actions.BuildActions | ccctrl.py:137-155 | Fails with the volume error iff a set-volume value is given that is not in [0.0, 1.0] (corrected guard, see Findings). Otherwise it returns the reference list: the requested actions in the fixed precedence order. |
| Actions.ActionListMembers | ccctrl.py:137-155 | An action is in the built list iff its flag was given, and a set-volume action carries the given level. |
| Actions.ActionListAscending | ccctrl.py:137-155 | The built list follows the order set-volume, show, mute, unmute, reboot, volume-up, volume-down, and so holds no action twice. |
| Actions.ActionListLength | ccctrl.py:41-155 | The built list has one entry per action flag given. Under the command line's mutually exclusive group it has at most one. |
| Actions.OrderIsPrecedence | ccctrl.py:137-155 | Any list that holds exactly the requested actions in precedence order is the built list. The order depends only on which flags were given, never on the order they appeared in. |
| Actions.ActionListUnfolded | ccctrl.py:137-155 | The reference list, flag by flag: at most one entry per flag, concatenated in precedence order. |
| Actions.Invocation | ccctrl.py:101-111 | Every action except show stands for a named device call with arguments. Show reads status instead and makes no call. |
| Actions.InvocationRoundTrip | ccctrl.py:108-111 | The closed action datatype loses nothing against the name-and-arguments record: decoding an action's call gives the action back. |
| Actions.DecodeSound | ccctrl.py:141-155 | Every call record that decodes to an action is exactly that action's record. So the decodable records are exactly the call records of the five non-show actions, at any level or flag value, and show has none. |
| Control.DeviceMajorLength | ccctrl.py:156-164 | There are as many trace entries as devices times actions, or one per device when there are no actions. |
| Control.DeviceMajorAt | ccctrl.py:156-164 | Step j for device i is at position i*m+j of the trace, where m is the number of steps per device. |
| Control.InvokedPosition | ccctrl.py:156-162 | With actions, position i*n+j of the trace, where n is the number of actions, invokes action j on device i. |
| Control.DeviceMajorOrder | ccctrl.py:156-164 | With actions, the trace is each device in order with each action in list order, and nothing else. With no actions, each device is listed once and nothing is invoked. |
| Control.Run | ccctrl.py:156-164 | The nested loop produces exactly the device-major trace, entry by entry as `DeviceMajorOrder` states. |
| Control.Execute | ccctrl.py:120-164 | The first failing check, in the order discovery, name filter, type filter, volume, is the reported error, and then no device is touched. It succeeds iff selection succeeds and the volume is in [0.0, 1.0] (corrected guard, see Findings), and the trace is then the device-major run of the built actions over the selected devices. |

## Left out

- Argument parsing (ccctrl.py:6-83) is `argparse` plumbing. The flags are a `Flags` value and the criteria a `Criteria` value. The mutually exclusive group is the separate predicate `AtMostOneAction`.
- Discovery (`get_chromecasts`, ccctrl.py:123) is a network call into the pychromecast library. It is an input sequence here.
- The device operations reached through `getattr` (ccctrl.py:110-111) are calls into pychromecast. They become trace entries, and their effect on the device is not modelled.
- Exceptions raised by those operations would abort the run. The model has no failing operation.
- Console output is not modelled. This covers "Scanning for Chromecast devices...", the per-device header "Device: ...", the `--verbose` line "Running ...", and the text `print(d)` writes for a device. The `--verbose` flag therefore does not appear in `Flags`.
- Leaving the process through the bare `raise SystemExit` (ccctrl.py:117) is a `Failure` result. That exit carries no code, so the process ends with status 0: a `Failure` means "message printed, run stopped", not a non-zero exit status. The exit status is not modelled.
- ShowReport: does not round the level to two decimals (`round`, ccctrl.py:93), because that is float formatting. It also reads a given status, not the device's live status after earlier actions in the same run.
- ReprNames: quotes each name in single quotes. It does not model Python's choice of double quotes or its escaping of special characters in `repr`. So the rendered list determines the names only when no name holds a single quote (JoinNamesInjective).
- Devices are values `(name, castType)`. Two discovered devices with equal name and type cannot be told apart, whereas the source holds distinct objects.

## Findings

| source | as written | input that shows it | evidently intended | confidence | as-written member | corrected member |
|---|---|---|---|---|---|---|
| ccctrl.py:138 | The guard rejects a volume only if it compares below 0.0 or above 1.0. Every comparison with NaN is false, so NaN is accepted and passed on to `set_volume`. | `--set-volume nan` (argparse's `float` accepts "nan") | Accept exactly the values in [0.0, 1.0] and report "Volume must be between 0.0 and 1.0." for anything else, NaN included | medium, not executed | Actions.RejectedAsWritten, Actions.NaNPassesGuard | Actions.BuildActions |

# Multi-Mouse Sensitivity Changer, modelled in Dafny

The application lets you give each mouse its own pointer speed. It listens to raw
mouse input, finds out which device moved, and writes the speed configured for that
device to the system. The write is throttled: it happens only when the speed differs
from the last one written and at least 200 ms have passed since the last write.
The application also has dialogs for describing devices:

- an add/edit dialog, which captures a device path from the next movement, proposes an
  unused icon colour and validates its text boxes;
- a step-by-step wizard, which refuses a path that is already configured, comparing
  without regard to case;
- a list editor, which works on copies of the profiles and adds, overwrites in place or
  removes them.

The project has these modules:

- `Text`: the .NET string operations the code relies on. These are ordinal comparison
  ignoring case, `Char.IsWhiteSpace`, `String.IsNullOrWhiteSpace` and `String.Trim`.
- `RawInput`: reading one `WM_INPUT` notification. What the Win32 calls report is given
  as a value.
- `Switching`: the speed switcher of `Program.cs`.
  - The decision for one notification is the function `Classify`.
  - Whole message sequences are `Run` and `RunWritten`.
  - The class `SpeedSwitcher` carries `_lastSpeed`, `_lastSwitchMs` and a ghost log of
    the speeds written to the system. Its methods are proved against those functions.
- `Forms`: the types the dialogs share: colours, dialog results, the mutable
  `DeviceProfile` object and the capture window.
- `AddDevice`, `DeviceWizard`, `ManageDevices`: one class per dialog, whose methods
  update the dialog's fields as the event handlers do.

Two consequences of the code are easy to miss. A change of device is debounced
like any other change: a second device moving 50 ms after a switch is ignored, and
its movement switches the speed only once 200 ms have passed. And `_lastSwitchMs`
starts at 0, so nothing is written during the first 200 ms, not even for the very
first movement. `Switching.DeviceChangeIsDebounced` and `Switching.QuietStart`
state both behaviours.

## Model

| member | source | states |
|---|---|---|
| Text.ToUpper | Multi-Mouse-Sensitivity-Changer/Program.cs:108-109 | an ASCII-only approximation of the case mapping of OrdinalIgnoreCase: the ASCII lower-case letters map to their upper-case letters, every other character is left alone |
| Text.EqualsIgnoreCase | Multi-Mouse-Sensitivity-Changer/Program.cs:108-109 | defines ordinal comparison ignoring case: same length and the same upper-cased character at every position; its properties are the three lemmas below |
| Text.CaseVariantsEqual | Multi-Mouse-Sensitivity-Changer/Program.cs:108-109 | strings that differ only in the case of letters compare equal under OrdinalIgnoreCase |
| Text.EqualsIgnoreCaseReflexive | Multi-Mouse-Sensitivity-Changer/Program.cs:108-109 | a string equals itself ignoring case |
| Text.EqualsIgnoreCaseSymmetric | Multi-Mouse-Sensitivity-Changer/Program.cs:108-109 | comparison ignoring case is symmetric |
| Text.EqualsIgnoreCaseTransitive | Multi-Mouse-Sensitivity-Changer/Program.cs:108-109 | comparison ignoring case is transitive, which is what a HashSet with that comparer relies on |
| Text.IsWhiteSpace | Multi-Mouse-Sensitivity-Changer/AddDeviceForm.cs:279 | defines Char.IsWhiteSpace: the Unicode space, line and paragraph separators, U+0009 to U+000D and U+0085 |
| Text.IsBlank | Multi-Mouse-Sensitivity-Changer/AddDeviceForm.cs:279-291 | defines String.IsNullOrWhiteSpace of a non-null text: every character is white space; its link to Trim is TrimEmptyIffBlank |
| Text.TrimStart | Multi-Mouse-Sensitivity-Changer/AddDeviceForm.cs:302-303 | the result is no longer than the input and does not start with white space |
| Text.TrimStartDropsBlankPrefix | Multi-Mouse-Sensitivity-Changer/AddDeviceForm.cs:302-303 | the result of TrimStart is a suffix of the input, and what it dropped is all white space |
| Text.TrimEnd | Multi-Mouse-Sensitivity-Changer/AddDeviceForm.cs:302-303 | the result is no longer than the input and does not end with white space |
| Text.TrimEndDropsBlankSuffix | Multi-Mouse-Sensitivity-Changer/AddDeviceForm.cs:302-303 | the result of TrimEnd is a prefix of the input, and what it dropped is all white space |
| Text.Trim | Multi-Mouse-Sensitivity-Changer/AddDeviceForm.cs:302-303 | String.Trim: a non-empty result neither starts nor ends with white space and is no longer than the input |
| Text.TrimIsSlice | Multi-Mouse-Sensitivity-Changer/AddDeviceForm.cs:302-303 | the trimmed text is one contiguous slice of the input, with only white space before and after it |
| Text.SliceOfSuffix | Multi-Mouse-Sensitivity-Changer/AddDeviceForm.cs:302-303 | trimming the end of the text left after trimming its start leaves a slice of the original text, followed in it by white space only |
| Text.TrimEmptyIffBlank | Multi-Mouse-Sensitivity-Changer/AddDeviceForm.cs:279-291 | a text trims to the empty string exactly when String.IsNullOrWhiteSpace holds for it |
| Text.TrimIdempotent | Multi-Mouse-Sensitivity-Changer/AddDeviceForm.cs:302-303 | trimming an already trimmed text changes nothing |
| RawInput.ReadMotion | Multi-Mouse-Sensitivity-Changer/Program.cs:81-97 | a read that yields a device yields the device of the report; MotionOnlyFromMovingMouse characterises when that happens |
| RawInput.MotionOnlyFromMovingMouse | Multi-Mouse-Sensitivity-Changer/Program.cs:81-97 | a device is read exactly when the size query is non-zero, the fetch returns that size, the header is a mouse and not both delta fields, as the code declares them, are zero |
| RawInput.GetDeviceName | Multi-Mouse-Sensitivity-Changer/Program.cs:129-147 | empty when the size query gives 0 or the fetch returns uint.MaxValue, otherwise the text in the buffer |
| RawInput.GetDeviceNameFromMessage | Multi-Mouse-Sensitivity-Changer/AddDeviceForm.cs:375-401 | a non-empty result is the device name of a mouse report with a non-zero delta field |
| RawInput.CaptureCallbackArgument | Multi-Mouse-Sensitivity-Changer/AddDeviceForm.cs:363-373 | the capture callback receives only a non-empty device path of a WM_INPUT mouse motion report |
| RawInput.CaptureCallbackExactly | Multi-Mouse-Sensitivity-Changer/AddDeviceForm.cs:363-422 | the capture callback fires if and only if every read step succeeds, a delta field is non-zero and the name is non-empty |
| RawInput.ZeroMotionHasNoPath | Multi-Mouse-Sensitivity-Changer/AddDeviceForm.cs:392-393 | a report whose two delta fields, as the code declares them, are zero never yields a path and never fires the callback |
| Switching.ClampSpeed | Multi-Mouse-Sensitivity-Changer/Program.cs:149-154 | the written speed lies in [1, 20], equals the request when that is in range, and is the value in range nearest to the request |
| Switching.TargetSpeed | Multi-Mouse-Sensitivity-Changer/Program.cs:107-110 | the target is the X8 speed, the mouse speed or -1 |
| Switching.MousePathGetsMouseSpeed | Multi-Mouse-Sensitivity-Changer/Program.cs:109 | a path matching the mouse path but not the X8 path gets the mouse speed |
| Switching.X8PathComparedFirst | Multi-Mouse-Sensitivity-Changer/Program.cs:108 | a path matching the X8 path gets the X8 speed even if it also matches the mouse path |
| Switching.TargetSpeedIgnoresCase | Multi-Mouse-Sensitivity-Changer/Program.cs:107-110 | paths that are equal ignoring case get the same target speed |
| Switching.Classify | Multi-Mouse-Sensitivity-Changer/Program.cs:79-120 | a switch is to a configured, non-negative speed different from the last one, and only once 200 ms have passed since the last switch |
| Switching.Next | Multi-Mouse-Sensitivity-Changer/Program.cs:79-120 | defines the statics after one notification: (speed, now) on a switch, unchanged otherwise; characterised by WriteExactlyWhen |
| Switching.Written | Multi-Mouse-Sensitivity-Changer/Program.cs:115-119 | defines the system writes of one notification: the clamped speed on a switch, none otherwise; characterised by WriteExactlyWhen |
| Switching.WriteExactlyWhen | Multi-Mouse-Sensitivity-Changer/Program.cs:79-120 | a notification writes if and only if its path is non-empty, both configured paths are non-empty, the path is known, the speed is new and 200 ms have passed; a write is the clamped target and sets the state to (target, now), otherwise the state is unchanged |
| Switching.FilteredNotificationIsIgnored | Multi-Mouse-Sensitivity-Changer/Program.cs:81-112 | a notification that is unreadable, not a mouse report with a non-zero delta field, nameless, meets an unconfigured path or an unknown device changes nothing and writes nothing |
| Switching.UnknownPathIgnored | Multi-Mouse-Sensitivity-Changer/Program.cs:107-112 | a path matching neither configured path has the target -1, changes no state and writes nothing |
| Switching.AppliedSpeedNotRewritten | Multi-Mouse-Sensitivity-Changer/Program.cs:115-119 | after a switch, the same notification never writes again, however late it comes |
| Switching.QuietFirstInterval | Multi-Mouse-Sensitivity-Changer/Program.cs:25-26 | from the initial state (-1, 0) nothing is written before 200 ms |
| Switching.Step | Multi-Mouse-Sensitivity-Changer/Program.cs:71-77 | defines WndProc's effect on the statics: only WM_INPUT is handled; characterised by StepCases |
| Switching.StepWritten | Multi-Mouse-Sensitivity-Changer/Program.cs:71-77 | defines the system writes of one dispatched message: those of the notification for WM_INPUT, none for any other message; characterised by StepCases |
| Switching.StepCases | Multi-Mouse-Sensitivity-Changer/Program.cs:71-77 | a message that writes is a WM_INPUT whose verdict is a switch; one that does not write leaves the state alone |
| Switching.SwitchesAreSpacedAndDistinct | Multi-Mouse-Sensitivity-Changer/Program.cs:115-119 | over any message sequence, consecutive switches are at least 200 ms apart and always change the speed |
| Switching.RunWrittenMatchesSwitches | Multi-Mouse-Sensitivity-Changer/Program.cs:115-119 | the log of writes is the clamped speed of each switch, in order |
| Switching.RunEndsAtLastSwitch | Multi-Mouse-Sensitivity-Changer/Program.cs:115-119 | the state after a run is the state right after its last switch, or the starting state when nothing switched |
| Switching.SpeedStaysConfigured | Multi-Mouse-Sensitivity-Changer/Program.cs:18-19 | the last speed stays -1 or a configured speed, and every written value is a configured speed after clamping |
| Switching.QuietStart | Multi-Mouse-Sensitivity-Changer/Program.cs:25-26 | messages that all arrive before 200 ms write nothing and leave the initial state |
| Switching.DroppedNotificationForgotten | Multi-Mouse-Sensitivity-Changer/Program.cs:115-120 | a notification that did not switch has no later effect: nothing is queued for a retry |
| Switching.Run | Multi-Mouse-Sensitivity-Changer/Program.cs:63-68 | defines the statics after a sequence of dispatched messages; its properties are the lemmas on switches above |
| Switching.RunWritten | Multi-Mouse-Sensitivity-Changer/Program.cs:63-68 | defines the log of system writes over a sequence of dispatched messages; characterised by RunWrittenMatchesSwitches and SpeedStaysConfigured |
| Switching.RunUnfold | Multi-Mouse-Sensitivity-Changer/Program.cs:63-68 | running a non-empty sequence is handling its first message and then running the rest |
| Switching.MessageLoopStep | Multi-Mouse-Sensitivity-Changer/Program.cs:63-68 | one dispatched message keeps the message loop's invariant |
| Switching.DeviceChangeIsDebounced | Multi-Mouse-Sensitivity-Changer/Program.cs:115-119 | with two devices, a movement at 0 ms is ignored, one at 1000 ms switches, the other device at 1050 ms is ignored and at 1300 ms switches |
| Switching.SourcePathsDiffer | Multi-Mouse-Sensitivity-Changer/Program.cs:12-16 | the two shipped device paths differ even ignoring case |
| Switching.SpeedSwitcher.State | Multi-Mouse-Sensitivity-Changer/Program.cs:25-26 | the switcher's state is the pair of its two statics |
| Switching.SpeedSwitcher.constructor | Multi-Mouse-Sensitivity-Changer/Program.cs:25-26 | the statics start at (-1, 0) with nothing written |
| Switching.SpeedSwitcher.SetMouseSpeed | Multi-Mouse-Sensitivity-Changer/Program.cs:149-154 | appends the clamped speed to the log of system writes |
| Switching.SpeedSwitcher.HandleRawInput | Multi-Mouse-Sensitivity-Changer/Program.cs:79-127 | the new statics and the writes are those of `Next` and `Written` for the old state |
| Switching.SpeedSwitcher.WndProc | Multi-Mouse-Sensitivity-Changer/Program.cs:71-77 | only WM_INPUT reaches HandleRawInput |
| Switching.SpeedSwitcher.MessageLoop | Multi-Mouse-Sensitivity-Changer/Program.cs:63-68 | after a sequence of messages the statics and the log are those of `Run` and `RunWritten` |
| Forms.DeviceProfile.constructor | Multi-Mouse-Sensitivity-Changer/AddDeviceForm.cs:301-311 | a profile holds the given name, path, speed, colour and options |
| Forms.DeviceProfile.Basic | Multi-Mouse-Sensitivity-Changer/ManageDevicesForm.cs:81 | the four-argument profile holds the given name, path, speed and colour |
| Forms.CaptureWindow.constructor | Multi-Mouse-Sensitivity-Changer/AddDeviceForm.cs:344-361 | a new capture window is live |
| Forms.CaptureWindow.Dispose | Multi-Mouse-Sensitivity-Changer/AddDeviceForm.cs:424-427 | a disposed capture window is no longer live |
| AddDevice.UsedColors | Multi-Mouse-Sensitivity-Changer/AddDeviceForm.cs:328 | a null colour list gives the empty set; otherwise the set holds exactly the listed colours |
| AddDevice.FirstUnusedIndex | Multi-Mouse-Sensitivity-Changer/AddDeviceForm.cs:329 | FirstOrDefault stops at the first colour not in use: all before it are used, it is not |
| AddDevice.FirstOrDefaultUnused | Multi-Mouse-Sensitivity-Changer/AddDeviceForm.cs:329 | the result is default(Color) or a palette colour not in use |
| AddDevice.GetDefaultColor | Multi-Mouse-Sensitivity-Changer/AddDeviceForm.cs:314-331 | the default colour is always one of the eight palette colours |
| AddDevice.DefaultColorIsFirstUnused | Multi-Mouse-Sensitivity-Changer/AddDeviceForm.cs:314-331 | the default colour is the palette colour at the first position not in use |
| AddDevice.DefaultColorWhenAllUsed | Multi-Mouse-Sensitivity-Changer/AddDeviceForm.cs:330 | when every palette colour is in use, SteelBlue (the first) is reused |
| AddDevice.DefaultColorForNoColors | Multi-Mouse-Sensitivity-Changer/AddDeviceForm.cs:328-330 | with a null colour list the first palette colour is chosen |
| AddDevice.PathCheckedBeforeName | Multi-Mouse-Sensitivity-Changer/AddDeviceForm.cs:279-284 | a blank path is reported whatever the name is |
| AddDevice.SaveRejection | Multi-Mouse-Sensitivity-Changer/AddDeviceForm.cs:277-291 | defines SaveDevice's verdict: a blank path first, then a blank name, otherwise accepted; characterised by SaveAcceptsTrimmedNonEmpty and PathCheckedBeforeName |
| AddDevice.SaveAcceptsTrimmedNonEmpty | Multi-Mouse-Sensitivity-Changer/AddDeviceForm.cs:277-297 | the save is accepted if and only if name and path are non-empty after trimming; the saved name and path then start with a non-white-space character and are already trimmed |
| AddDevice.AddDeviceForm.constructor | Multi-Mouse-Sensitivity-Changer/AddDeviceForm.cs:209-236 | editing copies the profile's values and retitles the dialog; adding takes the system settings, no startup apply, auto-apply on, and the default colour |
| AddDevice.AddDeviceForm.BeginCapture | Multi-Mouse-Sensitivity-Changer/AddDeviceForm.cs:239-244 | any previous capture window is disposed and a new live one replaces it; the inputs are untouched |
| AddDevice.AddDeviceForm.OnDeviceCaptured | Multi-Mouse-Sensitivity-Changer/AddDeviceForm.cs:246-256 | a blank path changes nothing; otherwise the path box takes the path and the capture window is disposed and cleared |
| AddDevice.AddDeviceForm.OnCaptureMessage | Multi-Mouse-Sensitivity-Changer/AddDeviceForm.cs:363-373 | only the non-blank path of a mouse report with a non-zero delta field reaches the callback: it fills the path box, disposes and clears the capture window and sets the status; any other message changes nothing; name, speed, colour and options never change |
| AddDevice.AddDeviceForm.ChooseColor | Multi-Mouse-Sensitivity-Changer/AddDeviceForm.cs:265-275 | the colour changes only when the colour dialog returns OK; every other input, the window, the status, the result and the saved profile stay |
| AddDevice.AddDeviceForm.BuildProfileFromForm | Multi-Mouse-Sensitivity-Changer/AddDeviceForm.cs:299-312 | a new profile with the trimmed name and path and the control values |
| AddDevice.AddDeviceForm.SaveDevice | Multi-Mouse-Sensitivity-Changer/AddDeviceForm.cs:277-297 | the verdict is SaveRejection of the boxes, checked path first; a rejection resets the dialog result and keeps the old profile; acceptance stores a new profile with the trimmed name and path and the control values; inputs, window and status stay |
| AddDevice.AddDeviceForm.SaveClicked | Multi-Mouse-Sensitivity-Changer/AddDeviceForm.cs:196-207 | the dialog ends with OK if and only if the save was accepted, with the new trimmed profile stored then; after a rejection the result is DialogResult.None, so the dialog stays open, and the old profile is kept; inputs, window and status stay |
| AddDevice.AddDeviceForm.OnFormClosed | Multi-Mouse-Sensitivity-Changer/AddDeviceForm.cs:333-338 | closing disposes the capture window without clearing the field; inputs, status, result and profile stay |
| DeviceWizard.ContainsPath | Multi-Mouse-Sensitivity-Changer/DeviceWizardForm.cs:133-137 | defines membership in the HashSet of existing paths built with the ignore-case comparer: some listed path equals the path ignoring case |
| DeviceWizard.SaveCheck | Multi-Mouse-Sensitivity-Changer/DeviceWizardForm.cs:119-141 | defines OnSave's verdict: blank name, then blank path, then a known path; characterised by SaveAcceptsExactly and the lemmas after it |
| DeviceWizard.BlankAfterTrimIffBlank | Multi-Mouse-Sensitivity-Changer/DeviceWizardForm.cs:23-24 | checking the trimmed text for blankness is the same as checking the raw text |
| DeviceWizard.SaveAcceptsExactly | Multi-Mouse-Sensitivity-Changer/DeviceWizardForm.cs:119-141 | OnSave accepts if and only if name and path are not blank and no existing path equals the trimmed path ignoring case |
| DeviceWizard.NameCheckedFirst | Multi-Mouse-Sensitivity-Changer/DeviceWizardForm.cs:121-125 | a blank name is reported first, whatever the path |
| DeviceWizard.PathCheckedSecond | Multi-Mouse-Sensitivity-Changer/DeviceWizardForm.cs:127-131 | with a name present, a blank path is reported whatever the existing paths |
| DeviceWizard.KnownPathRefused | Multi-Mouse-Sensitivity-Changer/DeviceWizardForm.cs:133-137 | a configured path typed in another case or with surrounding white space is refused as a duplicate |
| DeviceWizard.VerdictIgnoresCase | Multi-Mouse-Sensitivity-Changer/DeviceWizardForm.cs:133-137 | paths whose trimmed forms are equal ignoring case get the same verdict |
| DeviceWizard.DeviceWizardForm.constructor | Multi-Mouse-Sensitivity-Changer/DeviceWizardForm.cs:27-73 | a null path list counts as empty; the dialog starts idle with empty boxes and speed 10 |
| DeviceWizard.DeviceWizardForm.DeviceName | Multi-Mouse-Sensitivity-Changer/DeviceWizardForm.cs:23 | the trimmed name is empty exactly when the name box is blank |
| DeviceWizard.DeviceWizardForm.DevicePath | Multi-Mouse-Sensitivity-Changer/DeviceWizardForm.cs:24 | the trimmed path is empty exactly when the path box is blank |
| DeviceWizard.DeviceWizardForm.StopCapture | Multi-Mouse-Sensitivity-Changer/DeviceWizardForm.cs:90-98 | capture stops: the window is disposed and cleared, the button reads "Start capture", the status is the given text |
| DeviceWizard.DeviceWizardForm.ToggleCapture | Multi-Mouse-Sensitivity-Changer/DeviceWizardForm.cs:75-88 | the capturing flag flips; stopping disposes the window; starting opens a new one, or throws with the flag already set when registration fails |
| DeviceWizard.DeviceWizardForm.ToggleTwice | Multi-Mouse-Sensitivity-Changer/DeviceWizardForm.cs:75-98 | two toggles restore the capturing state, and from idle leave no capture window |
| DeviceWizard.DeviceWizardForm.OnDeviceCaptured | Multi-Mouse-Sensitivity-Changer/DeviceWizardForm.cs:100-110 | after a capture the dialog is not capturing and the path box holds the captured path |
| DeviceWizard.DeviceWizardForm.OnCaptureMessage | Multi-Mouse-Sensitivity-Changer/DeviceWizardForm.cs:162-172 | only a non-empty path of a WM_INPUT stops the capture, disposes and clears the window, fills the path box and sets the status; any other message leaves capture, window, path and status; name, speed, result and closed state never change |
| DeviceWizard.DeviceWizardForm.OnSave | Multi-Mouse-Sensitivity-Changer/DeviceWizardForm.cs:119-141 | the verdict is SaveCheck of the boxes as they were, read through DeviceName and DevicePath in the order name, path, duplicate; only acceptance sets OK and closes; a rejection changes no field; the dialog's invariant is kept |
| DeviceWizard.DeviceWizardForm.OnFormClosed | Multi-Mouse-Sensitivity-Changer/DeviceWizardForm.cs:143-147 | closing stops any capture with an empty status; the boxes, speed, result and closed state stay |
| ManageDevices.CloneProfile | Multi-Mouse-Sensitivity-Changer/ManageDevicesForm.cs:79-82 | a new object with the source's name, path, speed and colour |
| ManageDevices.AnyNameMatch | Multi-Mouse-Sensitivity-Changer/ManageDevicesForm.cs:148 | true if and only if some element other than the ignored one, by reference, has the name ignoring case |
| ManageDevices.IndexOf | Multi-Mouse-Sensitivity-Changer/ManageDevicesForm.cs:140 | the first position of the element, or the length when absent |
| ManageDevices.RemoveFirst | Multi-Mouse-Sensitivity-Changer/ManageDevicesForm.cs:140 | defines BindingList.Remove by reference: the first occurrence is taken out, if any; characterised by RemoveAbsent, RemoveListed and RemoveListedDistinct |
| ManageDevices.DeleteAtMultiset | Multi-Mouse-Sensitivity-Changer/ManageDevicesForm.cs:140 | deleting one position removes exactly one occurrence of its element |
| ManageDevices.DeleteAtDistinct | Multi-Mouse-Sensitivity-Changer/ManageDevicesForm.cs:140 | in a list without duplicates, deleting a position removes that element entirely and keeps the list free of duplicates |
| ManageDevices.RemoveAbsent | Multi-Mouse-Sensitivity-Changer/ManageDevicesForm.cs:140 | removing an element that is not listed changes nothing |
| ManageDevices.FirstPosition | Multi-Mouse-Sensitivity-Changer/ManageDevicesForm.cs:140 | a listed element is found at a position holding it, and Remove deletes exactly that position |
| ManageDevices.RemoveListed | Multi-Mouse-Sensitivity-Changer/ManageDevicesForm.cs:140 | removing a listed element drops one occurrence at its first position and keeps the others in order |
| ManageDevices.RemoveListedDistinct | Multi-Mouse-Sensitivity-Changer/ManageDevicesForm.cs:140 | in a duplicate-free list, removing a listed element removes it entirely and keeps the list free of duplicates |
| ManageDevices.ManageDevicesForm.constructor | Multi-Mouse-Sensitivity-Changer/ManageDevicesForm.cs:17-19 | the list holds new, pairwise distinct clones of the given profiles, in order, with the same name, path, speed and colour |
| ManageDevices.ManageDevicesForm.NameExists | Multi-Mouse-Sensitivity-Changer/ManageDevicesForm.cs:146-149 | defines the name check as AnyNameMatch over the current list; its properties are the three lemmas below |
| ManageDevices.ManageDevicesForm.NameExistsWithoutIgnore | Multi-Mouse-Sensitivity-Changer/ManageDevicesForm.cs:146-149 | with no profile to ignore, every listed profile is considered |
| ManageDevices.ManageDevicesForm.NameOfEditedProfileIsFree | Multi-Mouse-Sensitivity-Changer/ManageDevicesForm.cs:146-149 | the edited profile's own name is not taken for its edit, though it is taken for a new profile |
| ManageDevices.ManageDevicesForm.NameExistsIgnoresCase | Multi-Mouse-Sensitivity-Changer/ManageDevicesForm.cs:146-149 | names equal ignoring case get the same answer |
| ManageDevices.ManageDevicesForm.AddProfile | Multi-Mouse-Sensitivity-Changer/ManageDevicesForm.cs:101-111 | the new profile is appended at the end only for OK with a profile, after which its name exists; otherwise the list is unchanged |
| ManageDevices.ManageDevicesForm.EditSelectedProfile | Multi-Mouse-Sensitivity-Changer/ManageDevicesForm.cs:113-130 | a confirmed edit overwrites exactly name, path, speed and colour of the selected profile; the list and all other profiles are unchanged; no selection or no OK changes nothing |
| ManageDevices.ManageDevicesForm.RemoveSelectedProfile | Multi-Mouse-Sensitivity-Changer/ManageDevicesForm.cs:132-144 | on Yes the selected profile leaves the list and the others keep their order; otherwise nothing changes |

## Left out

- Window creation, raw-input registration, the Win32 buffers, console output and all
  WinForms layout, message boxes, colour dialog and list view rendering
  (`RefreshList`). These are foreign calls or presentation only. What the Win32 calls
  report is a parameter of the model.
- The process stopwatch is not modelled. Its reading is the parameter `now`.
- The `SystemParametersInfo` write is not modelled. It is recorded in the ghost log
  `written`.
- The size that the second `GetRawInputData` call writes back through its `ref`
  argument is not modelled. The fetch is compared with the size from the first call.
- `TestSettings` and `TestSpeed` apply settings through `Program.ApplyProfileSettings`
  and `NativeMethods.SetMouseSpeed`. Neither is part of this model.
- `Program.EnsureRawInputRegistration` is not part of this model, and neither is
  `Program.GetSystemMouseSettings`, whose result is a parameter. The wizard's
  `Program.RawInputHelper` is also not part of this model; the device path it reads is
  a parameter of `OnCaptureMessage`.
- `BeginInvoke` and `InvokeRequired` thread marshalling is not modelled. Callbacks are
  taken to run on the dialog's thread.
- Text.ToUpper: folds ASCII letters only. The ordinal comparison ignoring case also
  folds other letters (accented Latin, Greek, Cyrillic), which the model compares as
  different; a Unicode case table is not part of this model.
- A null string is not distinguished from an empty one. The colour list of the add/edit
  dialog and the path list of the wizard, which the code accepts as null, are an
  `Option`.
- ManageDevices.ManageDevicesForm.constructor: takes a sequence of profile objects, so
  neither the list nor an element can be null. It does not model the
  ArgumentNullException that a null list raises, nor the NullReferenceException that
  cloning a null element raises.
- The RAWMOUSE layout is not modelled. The fields `lastX` and `lastY` are the two 32-bit
  values the code's declaration reads as lLastX and lLastY, and the model tests them as
  the code does. That declaration lists ulButtons and usButtonFlags/usButtonData one
  after the other where Win32 overlays them, so those values sit 4 bytes later than the
  Win32 lLastX and lLastY; and the mouse data is read at offset 16, which in a 64-bit
  process still lies inside the 24-byte header. What the two fields hold in a real
  report, and so which reports pass the zero-delta test, is not captured.
- ManageDevices.RemoveFirst: finds the profile by reference, where BindingList.Remove
  uses Equals. The two agree on the assumption that Program.DeviceProfile, which is not
  part of this model, does not override Equals.
- `UpdatedProfiles` is not modelled. It only copies the list out.
- The list editor passes its `NameExists` callback to the add/edit dialog, whose
  constructor expects colours. The model does not connect the dialogs to one another.
- DeviceProfile's four-argument constructor is not part of this model. The fields it
  does not take get fixed values, and no contract depends on them.
- AddDevice.AddDeviceForm.constructor: requires speed and scroll values inside the
  ranges of the NumericUpDown controls. It does not model the exception that an
  out-of-range value raises.
- ManageDevices.ManageDevicesForm.AddProfile: requires the dialog's new profile to be an
  object not already listed, as a newly built profile always is. It does not model
  adding the same object twice.

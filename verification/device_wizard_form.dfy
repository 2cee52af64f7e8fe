/**
 DeviceWizardForm: the step-by-step dialog that captures a new device path, names
 it and refuses a path that is already configured (compared ignoring case).
 */
module DeviceWizard {
  import opened Wrappers
  import opened Text
  import opened Forms
  import RawInput

  /** Membership in the HashSet built with StringComparer.OrdinalIgnoreCase. */
  predicate ContainsPath(existing: seq<string>, path: string)
  {
    exists e | e in existing :: EqualsIgnoreCase(e, path)
  }

  /** String.IsNullOrWhiteSpace of a trimmed text box is the same as of the raw text. */
  lemma BlankAfterTrimIffBlank(s: string)
    ensures IsBlank(Trim(s)) <==> IsBlank(s)
  {
    TrimEmptyIffBlank(s);
  }

  /** The checks of OnSave, in order: the trimmed name, the trimmed path, then the
      trimmed path against the existing paths. */
  function SaveCheck(nameText: string, pathText: string, existing: seq<string>): Option<Rejection>
  {
    if IsBlank(Trim(nameText)) then Some(MissingName)
    else if IsBlank(Trim(pathText)) then Some(MissingPath)
    else if ContainsPath(existing, Trim(pathText)) then Some(DuplicatePath)
    else None
  }

  /** OnSave accepts exactly when name and path are not blank and no existing path
      equals the trimmed path ignoring case. */
  lemma {:induction false} SaveAcceptsExactly(nameText: string, pathText: string, existing: seq<string>)
    ensures SaveCheck(nameText, pathText, existing) == None <==>
      && !IsBlank(nameText)
      && !IsBlank(pathText)
      && forall e | e in existing :: !EqualsIgnoreCase(e, Trim(pathText))
  {
    BlankAfterTrimIffBlank(nameText);
    BlankAfterTrimIffBlank(pathText);
  }

  /** A blank name is reported first, whatever the path is. */
  lemma {:induction false} NameCheckedFirst(nameText: string, pathText: string, existing: seq<string>)
    requires IsBlank(nameText)
    ensures SaveCheck(nameText, pathText, existing) == Some(MissingName)
  {
    BlankAfterTrimIffBlank(nameText);
  }

  /** A blank path is reported when the name is present, whatever the existing paths are. */
  lemma {:induction false} PathCheckedSecond(nameText: string, pathText: string, existing: seq<string>)
    requires !IsBlank(nameText) && IsBlank(pathText)
    ensures SaveCheck(nameText, pathText, existing) == Some(MissingPath)
  {
    BlankAfterTrimIffBlank(nameText);
    BlankAfterTrimIffBlank(pathText);
  }

  /** A configured path typed in another case or with surrounding white space is
      still refused as a duplicate. */
  lemma {:induction false} KnownPathRefused(nameText: string, pathText: string, existing: seq<string>, known: string)
    requires !IsBlank(nameText) && !IsBlank(pathText)
    requires known in existing && EqualsIgnoreCase(known, Trim(pathText))
    ensures SaveCheck(nameText, pathText, existing) == Some(DuplicatePath)
  {
    BlankAfterTrimIffBlank(nameText);
    BlankAfterTrimIffBlank(pathText);
  }

  /** The duplicate check sees only the case-folded trimmed path: two paths that
      are equal ignoring case get the same verdict. */
  lemma {:induction false} VerdictIgnoresCase(nameText: string, p1: string, p2: string, existing: seq<string>)
    requires EqualsIgnoreCase(Trim(p1), Trim(p2))
    ensures SaveCheck(nameText, p1, existing) == SaveCheck(nameText, p2, existing)
  {
    if ContainsPath(existing, Trim(p1)) {
      var e :| e in existing && EqualsIgnoreCase(e, Trim(p1));
      EqualsIgnoreCaseTransitive(e, Trim(p1), Trim(p2));
    }
    if ContainsPath(existing, Trim(p2)) {
      var e :| e in existing && EqualsIgnoreCase(e, Trim(p2));
      EqualsIgnoreCaseSymmetric(Trim(p1), Trim(p2));
      EqualsIgnoreCaseTransitive(e, Trim(p2), Trim(p1));
    }
    BlankAfterTrimIffBlank(p1);
    BlankAfterTrimIffBlank(p2);
    assert Trim(p1) == [] <==> Trim(p2) == [];
    TrimEmptyIffBlank(p1);
    TrimEmptyIffBlank(p2);
  }

  const START_CAPTURE := "Start capture"
  const STOP_CAPTURE := "Stop capture"

  class DeviceWizardForm {
    const existingPaths: seq<string>
    var nameText: string
    var pathText: string
    var speedValue: int
    var capturing: bool
    var captureWindow: CaptureWindow?
    var statusText: string
    var captureButtonText: string
    var dialogResult: DialogResult
    var closed: bool

    /** The capture button reads "Stop capture" exactly while capturing, and a capture
        window exists only while capturing and is then live. (A failed registration
        can leave the dialog capturing without a window.) */
    ghost predicate Valid()
      reads this, captureWindow
    {
      && captureButtonText == (if capturing then STOP_CAPTURE else START_CAPTURE)
      && (captureWindow != null ==> capturing && captureWindow.live)
    }

    constructor (existing: Option<seq<string>>)
      ensures existingPaths == (if existing.Some? then existing.value else [])
      ensures nameText == "" && pathText == "" && speedValue == 10
      ensures !capturing && captureWindow == null && dialogResult == NoResult && !closed
      ensures Valid()
    {
      existingPaths := if existing.Some? then existing.value else [];
      nameText := "";
      pathText := "";
      speedValue := 10;
      capturing := false;
      captureWindow := null;
      statusText := "";
      captureButtonText := START_CAPTURE;
      dialogResult := NoResult;
      closed := false;
    }

    /** The DeviceName property: the trimmed name box, empty exactly when blank. */
    function DeviceName(): (name: string)
      reads this
      ensures name == [] <==> IsBlank(nameText)
    {
      TrimEmptyIffBlank(nameText);
      Trim(nameText)
    }

    /** The DevicePath property: the trimmed path box, empty exactly when blank. */
    function DevicePath(): (path: string)
      reads this
      ensures path == [] <==> IsBlank(pathText)
    {
      TrimEmptyIffBlank(pathText);
      Trim(pathText)
    }

    /** Disposes and forgets the capture window and shows `status`. */
    method StopCapture(status: string)
      modifies this, captureWindow
      ensures !capturing && captureWindow == null && Valid()
      ensures old(captureWindow) != null ==> !old(captureWindow).live
      ensures statusText == status
      ensures nameText == old(nameText) && pathText == old(pathText) && speedValue == old(speedValue)
      ensures dialogResult == old(dialogResult) && closed == old(closed)
    {
      if captureWindow != null {
        captureWindow.Dispose();
      }
      captureWindow := null;
      capturing := false;
      captureButtonText := START_CAPTURE;
      statusText := status;
    }

    /** The capture button. Stopping disposes the window; starting sets the flag and then
        opens a window, whose constructor throws (`thrown`) when `registers` is false,
        that is when registering the window for raw mouse input fails. */
    method ToggleCapture(registers: bool) returns (thrown: bool)
      requires Valid()
      modifies this, captureWindow
      ensures Valid()
      ensures capturing == !old(capturing)
      ensures old(capturing) ==>
        && !thrown && captureWindow == null && statusText == "Capture stopped."
        && (old(captureWindow) != null ==> !old(captureWindow).live)
      ensures !old(capturing) ==>
        && thrown == !registers
        && statusText == "Move the device you want to add..."
        && (registers ==> captureWindow != null && fresh(captureWindow))
        && (!registers ==> captureWindow == null)
      ensures nameText == old(nameText) && pathText == old(pathText) && speedValue == old(speedValue)
      ensures dialogResult == old(dialogResult) && closed == old(closed)
    {
      if capturing {
        StopCapture("Capture stopped.");
        return false;
      }
      statusText := "Move the device you want to add...";
      captureButtonText := STOP_CAPTURE;
      capturing := true;
      if !registers {
        return true;
      }
      captureWindow := new CaptureWindow();
      thrown := false;
    }

    /** Two clicks on the capture button restore the capturing state; starting from
        idle they leave no capture window behind. */
    method ToggleTwice(first: bool, second: bool)
      requires Valid()
      modifies this, captureWindow
      ensures Valid()
      ensures capturing == old(capturing)
      ensures !old(capturing) ==> captureWindow == null
      ensures pathText == old(pathText) && nameText == old(nameText)
    {
      var _ := ToggleCapture(first);
      var _ := ToggleCapture(second);
    }

    /** The capture callback: capture stops and the path box takes the path. */
    method OnDeviceCaptured(devicePath: string)
      modifies this, captureWindow
      ensures !capturing && captureWindow == null && Valid()
      ensures old(captureWindow) != null ==> !old(captureWindow).live
      ensures pathText == devicePath && statusText == "Device captured."
      ensures nameText == old(nameText) && speedValue == old(speedValue)
      ensures dialogResult == old(dialogResult) && closed == old(closed)
    {
      StopCapture("Device captured.");
      pathText := devicePath;
    }

    /** A window message reaching the live capture window, with the device path the
        raw-input helper reads from it: only a non-empty path of a WM_INPUT is passed on. */
    method OnCaptureMessage(msg: nat, devicePath: string)
      requires Valid() && captureWindow != null
      modifies this, captureWindow
      ensures Valid()
      ensures msg == RawInput.WM_INPUT && devicePath != [] ==>
        && !capturing && captureWindow == null && !old(captureWindow).live
        && pathText == devicePath && statusText == "Device captured."
      ensures !(msg == RawInput.WM_INPUT && devicePath != []) ==>
        && capturing && captureWindow == old(captureWindow) && captureWindow.live
        && pathText == old(pathText) && statusText == old(statusText)
      ensures nameText == old(nameText) && speedValue == old(speedValue)
      ensures dialogResult == old(dialogResult) && closed == old(closed)
    {
      if msg == RawInput.WM_INPUT && devicePath != [] {
        OnDeviceCaptured(devicePath);
      }
    }

    /** The Save button: each failed check shows its warning and ends the handler; on
        acceptance the dialog result is OK and the dialog closes. Closing raises
        FormClosed, whose handler is OnFormClosed, run by the caller once the modal loop
        ends the dialog. */
    method OnSave() returns (rejection: Option<Rejection>)
      requires Valid()
      modifies this
      ensures Valid()
      ensures rejection == SaveCheck(old(nameText), old(pathText), existingPaths)
      ensures rejection.None? ==> dialogResult == OK && closed
      ensures rejection.Some? ==> dialogResult == old(dialogResult) && closed == old(closed)
      ensures nameText == old(nameText) && pathText == old(pathText) && speedValue == old(speedValue)
      ensures statusText == old(statusText) && captureButtonText == old(captureButtonText)
      ensures capturing == old(capturing) && captureWindow == old(captureWindow)
    {
      if IsBlank(DeviceName()) {
        return Some(MissingName);
      }
      if IsBlank(DevicePath()) {
        return Some(MissingPath);
      }
      if ContainsPath(existingPaths, DevicePath()) {
        return Some(DuplicatePath);
      }
      dialogResult := OK;
      closed := true;
      rejection := None;
    }

    /** Closing the dialog stops any capture with an empty status. */
    method OnFormClosed()
      modifies this, captureWindow
      ensures !capturing && captureWindow == null && Valid() && statusText == ""
      ensures old(captureWindow) != null ==> !old(captureWindow).live
      ensures nameText == old(nameText) && pathText == old(pathText) && dialogResult == old(dialogResult)
      ensures speedValue == old(speedValue) && closed == old(closed)
    {
      StopCapture("");
    }
  }
}

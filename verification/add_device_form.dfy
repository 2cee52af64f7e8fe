/**
 AddDeviceForm: the dialog that creates or edits one device profile. It picks a
 default icon colour, captures a device path from the next mouse movement, and
 validates and trims the text boxes when the user saves.
 */
module AddDevice {
  import opened Wrappers
  import opened Text
  import opened Forms
  import RawInput

  /** The icon colours offered to a new device, in order of preference. */
  const Palette: seq<Color> := [SteelBlue, ForestGreen, OrangeRed, SlateBlue, DarkCyan, Goldenrod, Crimson, Teal]

  /** The set of colours already in use: empty when no list is given, otherwise the
      listed colours. */
  function UsedColors(existingColors: Option<seq<Color>>): (used: set<Color>)
    ensures existingColors.None? ==> used == {}
    ensures existingColors.Some? ==> forall c :: c in used <==> c in existingColors.value
  {
    match existingColors
    case None => {}
    case Some(colors) => set c | c in colors
  }

  /** Where FirstOrDefault stops: the position of the first colour not in `used`,
      or |colors| when every colour is used. */
  function FirstUnusedIndex(colors: seq<Color>, used: set<Color>): (i: nat)
    ensures i <= |colors|
    ensures forall j | 0 <= j < i :: colors[j] in used
    ensures i < |colors| ==> colors[i] !in used
  {
    if colors == [] then 0
    else if colors[0] !in used then 0
    else 1 + FirstUnusedIndex(colors[1..], used)
  }

  /** The first colour of `colors` that is not in use, or default(Color) when all are used. */
  function FirstOrDefaultUnused(colors: seq<Color>, used: set<Color>): (c: Color)
    ensures c == Empty || (c in colors && c !in used)
  {
    var i := FirstUnusedIndex(colors, used);
    if i < |colors| then colors[i] else Empty
  }

  /** GetDefaultColor: the first palette colour not yet used, or the first palette
      colour when all are used. */
  function GetDefaultColor(existingColors: Option<seq<Color>>): (r: Color)
    ensures r in Palette
  {
    var unused := FirstOrDefaultUnused(Palette, UsedColors(existingColors));
    if unused == Empty then Palette[0] else unused
  }

  /** The result is the palette colour at the first position not in use. */
  lemma {:induction false} DefaultColorIsFirstUnused(existingColors: Option<seq<Color>>, k: nat)
    requires k < |Palette|
    requires Palette[k] !in UsedColors(existingColors)
    requires forall j | 0 <= j < k :: Palette[j] in UsedColors(existingColors)
    ensures GetDefaultColor(existingColors) == Palette[k]
  {
    var used := UsedColors(existingColors);
    var i := FirstUnusedIndex(Palette, used);
    assert i <= k;
    assert i >= k;
  }

  /** When every palette colour is in use, the first palette colour is reused. */
  lemma {:induction false} DefaultColorWhenAllUsed(existingColors: Option<seq<Color>>)
    requires forall c | c in Palette :: c in UsedColors(existingColors)
    ensures GetDefaultColor(existingColors) == Palette[0]
  {
    var used := UsedColors(existingColors);
    var i := FirstUnusedIndex(Palette, used);
    assert forall j | 0 <= j < |Palette| :: Palette[j] in used;
    assert i == |Palette|;
  }

  /** A null colour list counts as empty, so the first palette colour is chosen. */
  lemma DefaultColorForNoColors()
    ensures GetDefaultColor(None) == Palette[0]
  {
    DefaultColorIsFirstUnused(None, 0);
  }

  /** The text box checks of SaveDevice, in order: the path first, then the name. */
  function SaveRejection(nameText: string, pathText: string): Option<Rejection>
  {
    if IsBlank(pathText) then Some(MissingPath)
    else if IsBlank(nameText) then Some(MissingName)
    else None
  }

  /** A blank path is reported whatever the name is. */
  lemma PathCheckedBeforeName(nameText: string, pathText: string)
    requires IsBlank(pathText)
    ensures SaveRejection(nameText, pathText) == Some(MissingPath)
  {
  }

  /** SaveDevice accepts exactly when both text boxes are non-empty once trimmed, so
      the saved name and path are non-empty and have no white space at either end. */
  lemma {:induction false} SaveAcceptsTrimmedNonEmpty(nameText: string, pathText: string)
    ensures SaveRejection(nameText, pathText) == None <==> Trim(nameText) != [] && Trim(pathText) != []
    ensures SaveRejection(nameText, pathText) == None ==>
      && !IsWhiteSpace(Trim(nameText)[0]) && !IsWhiteSpace(Trim(pathText)[0])
      && Trim(Trim(nameText)) == Trim(nameText) && Trim(Trim(pathText)) == Trim(pathText)
  {
    TrimEmptyIffBlank(nameText);
    TrimEmptyIffBlank(pathText);
    TrimIdempotent(nameText);
    TrimIdempotent(pathText);
  }

  /** Program.GetSystemMouseSettings' result, as far as the dialog reads it. */
  datatype MouseSettings = MouseSettings(
    speed: int,
    enhancePointerPrecision: bool,
    verticalScrollLines: int,
    horizontalScrollChars: int,
    swapButtons: bool)

  /** The ranges of the speed and scroll NumericUpDown controls. */
  predicate InSelectorRanges(speed: int, scrollLines: int, scrollChars: int)
  {
    1 <= speed <= 20 && 1 <= scrollLines <= 100 && 1 <= scrollChars <= 100
  }

  /** The values of the input controls. */
  datatype FormInputs = FormInputs(name: string, path: string, speed: int, color: Color, options: PointerOptions)

  class AddDeviceForm {
    var nameText: string
    var pathText: string
    var speedValue: int
    var selectedColor: Color
    var options: PointerOptions
    const title: string
    var statusText: string
    var captureWindow: CaptureWindow?
    var dialogResult: DialogResult
    var newProfile: DeviceProfile?

    ghost function Inputs(): FormInputs
      reads this
    {
      FormInputs(nameText, pathText, speedValue, selectedColor, options)
    }

    /** Fills the controls from `existing`, or from the system settings and a default
        colour when there is none. */
    constructor (existing: DeviceProfile?, existingColors: Option<seq<Color>>, defaults: MouseSettings)
      requires existing != null ==>
        InSelectorRanges(existing.speed, existing.options.verticalScrollLines, existing.options.horizontalScrollChars)
      requires existing == null ==>
        InSelectorRanges(defaults.speed, defaults.verticalScrollLines, defaults.horizontalScrollChars)
      ensures existing != null ==>
        && Inputs() == FormInputs(existing.name, existing.devicePath, existing.speed, existing.iconColor, existing.options)
        && title == "Edit device"
      ensures existing == null ==>
        && Inputs() == FormInputs("", "", defaults.speed, GetDefaultColor(existingColors),
             PointerOptions(defaults.enhancePointerPrecision, defaults.verticalScrollLines,
                            defaults.horizontalScrollChars, defaults.swapButtons, false, true))
        && title == "Add new device"
      ensures captureWindow == null && newProfile == null && dialogResult == NoResult
    {
      title := if existing != null then "Edit device" else "Add new device";
      nameText := "";
      pathText := "";
      speedValue := 10;
      selectedColor := Gray;
      options := PointerOptions(false, 3, 3, false, false, false);
      statusText := "Move your device to capture its path.";
      captureWindow := null;
      dialogResult := NoResult;
      newProfile := null;
      new;
      if existing != null {
        nameText := existing.name;
        pathText := existing.devicePath;
        speedValue := existing.speed;
        selectedColor := existing.iconColor;
        options := existing.options;
      } else {
        speedValue := defaults.speed;
        options := PointerOptions(defaults.enhancePointerPrecision, defaults.verticalScrollLines,
                                  defaults.horizontalScrollChars, defaults.swapButtons, false, true);
        selectedColor := GetDefaultColor(existingColors);
      }
    }

    /** Disposes any previous capture window and opens a new one. */
    method BeginCapture()
      modifies this, captureWindow
      ensures captureWindow != null && fresh(captureWindow) && captureWindow.live
      ensures old(captureWindow) != null ==> !old(captureWindow).live
      ensures Inputs() == old(Inputs()) && newProfile == old(newProfile) && dialogResult == old(dialogResult)
      ensures statusText == "Listening for mouse movement... move the new device now."
    {
      if captureWindow != null {
        captureWindow.Dispose();
      }
      captureWindow := new CaptureWindow();
      statusText := "Listening for mouse movement... move the new device now.";
    }

    /** The capture callback: a blank path is ignored; otherwise the path box takes it
        and the capture window is disposed and forgotten. */
    method OnDeviceCaptured(devicePath: string)
      modifies this, captureWindow
      ensures IsBlank(devicePath) ==>
        && Inputs() == old(Inputs()) && statusText == old(statusText)
        && captureWindow == old(captureWindow)
        && (captureWindow != null ==> captureWindow.live == old(captureWindow.live))
      ensures !IsBlank(devicePath) ==>
        && Inputs() == old(Inputs()).(path := devicePath)
        && captureWindow == null
        && (old(captureWindow) != null ==> !old(captureWindow).live)
        && statusText == "Captured device path. You can rename it and choose a default speed."
      ensures newProfile == old(newProfile) && dialogResult == old(dialogResult)
    {
      if IsBlank(devicePath) {
        return;
      }
      pathText := devicePath;
      statusText := "Captured device path. You can rename it and choose a default speed.";
      if captureWindow != null {
        captureWindow.Dispose();
      }
      captureWindow := null;
    }

    /** A window message reaching the capture window: the callback runs only with the
        non-empty path of a mouse motion report. */
    method OnCaptureMessage(msg: nat, m: RawInput.RawInputMessage)
      modifies this, captureWindow
      ensures var arg := RawInput.CaptureCallbackArgument(msg, m);
        && Inputs() == old(Inputs()).(path := if arg.Some? && !IsBlank(arg.value) then arg.value else old(pathText))
        && (arg.Some? && !IsBlank(arg.value) ==>
              && captureWindow == null
              && (old(captureWindow) != null ==> !old(captureWindow).live)
              && statusText == "Captured device path. You can rename it and choose a default speed.")
        && (!(arg.Some? && !IsBlank(arg.value)) ==>
              && captureWindow == old(captureWindow)
              && (captureWindow != null ==> captureWindow.live == old(captureWindow.live))
              && statusText == old(statusText))
      ensures newProfile == old(newProfile) && dialogResult == old(dialogResult)
    {
      var arg := RawInput.CaptureCallbackArgument(msg, m);
      if arg.Some? {
        OnDeviceCaptured(arg.value);
      }
    }

    /** The colour dialog's choice replaces the colour only when confirmed. */
    method ChooseColor(result: DialogResult, picked: Color)
      modifies this
      ensures Inputs() == old(Inputs()).(color := if result == OK then picked else old(selectedColor))
      ensures captureWindow == old(captureWindow) && newProfile == old(newProfile) && dialogResult == old(dialogResult)
      ensures statusText == old(statusText)
    {
      if result == OK {
        selectedColor := picked;
      }
    }

    /** A new profile from the controls, with name and path trimmed. */
    method BuildProfileFromForm() returns (profile: DeviceProfile)
      ensures fresh(profile)
      ensures profile.name == Trim(nameText) && profile.devicePath == Trim(pathText)
      ensures profile.speed == speedValue && profile.iconColor == selectedColor && profile.options == options
    {
      profile := new DeviceProfile(Trim(nameText), Trim(pathText), speedValue, selectedColor, options);
    }

    /** The Save button's handler. A rejection resets the dialog result so that the
        dialog stays open; an accepted save stores a new, trimmed profile. */
    method SaveDevice() returns (rejection: Option<Rejection>)
      modifies this
      ensures rejection == SaveRejection(nameText, pathText)
      ensures rejection.Some? ==> dialogResult == NoResult && newProfile == old(newProfile)
      ensures rejection.None? ==>
        && dialogResult == old(dialogResult)
        && newProfile != null && fresh(newProfile)
        && newProfile.name == Trim(nameText) && newProfile.devicePath == Trim(pathText)
        && newProfile.speed == speedValue && newProfile.iconColor == selectedColor
        && newProfile.options == options
      ensures Inputs() == old(Inputs()) && captureWindow == old(captureWindow) && statusText == old(statusText)
    {
      if IsBlank(pathText) {
        dialogResult := NoResult;
        return Some(MissingPath);
      }
      if IsBlank(nameText) {
        dialogResult := NoResult;
        return Some(MissingName);
      }
      var profile := BuildProfileFromForm();
      var name, path := Trim(nameText), Trim(pathText);
      profile.name := name;
      profile.devicePath := path;
      newProfile := profile;
      rejection := None;
    }

    /** A click on Save: the button's DialogResult.OK is set first, then SaveDevice runs,
        so the dialog closes with OK exactly when the save is accepted. */
    method SaveClicked() returns (rejection: Option<Rejection>)
      modifies this
      ensures rejection == SaveRejection(nameText, pathText)
      ensures dialogResult == OK <==> rejection.None?
      ensures rejection.Some? ==> dialogResult == NoResult && newProfile == old(newProfile)
      ensures rejection.None? ==>
        && newProfile != null && fresh(newProfile)
        && newProfile.name == Trim(nameText) && newProfile.devicePath == Trim(pathText)
        && newProfile.speed == speedValue && newProfile.iconColor == selectedColor
        && newProfile.options == options
      ensures Inputs() == old(Inputs()) && captureWindow == old(captureWindow) && statusText == old(statusText)
    {
      dialogResult := OK;
      rejection := SaveDevice();
    }

    /** Closing the dialog disposes the capture window (the field keeps its value). */
    method OnFormClosed()
      modifies this, captureWindow
      ensures captureWindow == old(captureWindow) && (captureWindow != null ==> !captureWindow.live)
      ensures Inputs() == old(Inputs()) && newProfile == old(newProfile) && dialogResult == old(dialogResult)
      ensures statusText == old(statusText)
    {
      if captureWindow != null {
        captureWindow.Dispose();
      }
    }
  }
}

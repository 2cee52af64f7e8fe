/**
 Types shared by the three dialogs: colours, dialog results, the device profile
 object they create and edit, and the raw-input capture window they open.
 */
module Forms {

  /** System.Drawing.Color as far as the dialogs use it: `Empty` is default(Color),
      the named colours are the ones the dialogs name, and `Argb` is any other colour
      (one picked in the colour dialog, say). */
  datatype Color =
    | Empty
    | Gray
    | SteelBlue
    | ForestGreen
    | OrangeRed
    | SlateBlue
    | DarkCyan
    | Goldenrod
    | Crimson
    | Teal
    | Argb(argb: int)

  /** System.Windows.Forms.DialogResult; `NoResult` stands for DialogResult.None. */
  datatype DialogResult = NoResult | OK | Cancel | Yes | No

  /** Why a dialog refused to save, i.e. which warning box it showed. */
  datatype Rejection = MissingName | MissingPath | DuplicatePath

  /** The profile fields the editing dialog sets besides name, path, speed and colour. */
  datatype PointerOptions = PointerOptions(
    enhancePointerPrecision: bool,
    verticalScrollLines: int,
    horizontalScrollChars: int,
    swapButtons: bool,
    applyOnStartup: bool,
    autoApply: bool)

  /** The values the four-argument constructor gives the other fields. That constructor
      is not part of this model; these are placeholders that no contract relies on. */
  const BasicOptions := PointerOptions(false, 3, 3, false, false, true)

  /** Program.DeviceProfile: a mutable object; the list editor changes its fields in
      place and compares profiles by reference. */
  class DeviceProfile {
    var name: string
    var devicePath: string
    var speed: int
    var iconColor: Color
    var options: PointerOptions

    /** The ten-argument constructor used by AddDeviceForm.BuildProfileFromForm. */
    constructor (name: string, devicePath: string, speed: int, iconColor: Color, options: PointerOptions)
      ensures this.name == name && this.devicePath == devicePath && this.speed == speed
      ensures this.iconColor == iconColor && this.options == options
    {
      this.name := name;
      this.devicePath := devicePath;
      this.speed := speed;
      this.iconColor := iconColor;
      this.options := options;
    }

    /** The four-argument constructor used by ManageDevicesForm.CloneProfile. */
    constructor Basic(name: string, devicePath: string, speed: int, iconColor: Color)
      ensures this.name == name && this.devicePath == devicePath && this.speed == speed
      ensures this.iconColor == iconColor
    {
      this.name := name;
      this.devicePath := devicePath;
      this.speed := speed;
      this.iconColor := iconColor;
      this.options := BasicOptions;
    }
  }

  /** RawInputCaptureWindow: a native message-only window that exists from its
      construction until Dispose destroys its handle. */
  class CaptureWindow {
    var live: bool

    constructor ()
      ensures live
    {
      live := true;
    }

    method Dispose()
      modifies this
      ensures !live
    {
      live := false;
    }
  }
}

/**
 Reading one WM_INPUT notification. The Win32 calls GetRawInputData and
 GetRawInputDeviceInfo are foreign; what they report for one notification is
 given as a value (RawInputMessage, DeviceNameQuery), and the decisions the
 application takes on those reports are modelled as functions.
 */
module RawInput {
  import opened Wrappers

  const WM_INPUT: nat := 0x00FF
  const RIM_TYPEMOUSE: nat := 0
  /** uint.MaxValue, the error return of GetRawInputDeviceInfo. */
  const UINT_MAX: nat := 0xFFFF_FFFF

  /** What GetRawInputDeviceInfo(RIDI_DEVICENAME) reports for one device handle:
      the size from the first (query) call, the return value of the second (fetch)
      call, and the text that PtrToStringAnsi reads from the buffer. */
  datatype DeviceNameQuery = DeviceNameQuery(requiredSize: nat, fetchResult: nat, text: string)

  /** What GetRawInputData(RID_INPUT) reports for one WM_INPUT lParam: the size from
      the first (query) call, the return value of the second (fetch) call, and the
      RAWINPUT fields read from the buffer: the header type, the two 32-bit fields the
      code's RAWMOUSE declaration calls lLastX and lLastY, and the device handle,
      represented by what its name query reports. */
  datatype RawInputMessage = RawInputMessage(
    requiredSize: nat,
    fetchResult: nat,
    dwType: nat,
    lastX: int,
    lastY: int,
    device: DeviceNameQuery)

  /** The outcome of reading the RAWINPUT structure, in the order the checks are made. */
  datatype MotionRead = ReadFailed | NotMouse | NoMotion | Motion(device: DeviceNameQuery)

  /** The checks shared by Program.HandleRawInput and RawInputCaptureWindow.GetDeviceNameFromMessage:
      a zero size, a short fetch, a non-mouse header or both delta fields zero end the read. */
  function ReadMotion(m: RawInputMessage): (r: MotionRead)
    ensures r.Motion? ==> r.device == m.device
  {
    if m.requiredSize == 0 then ReadFailed
    else if m.fetchResult != m.requiredSize then ReadFailed
    else if m.dwType != RIM_TYPEMOUSE then NotMouse
    else if m.lastX == 0 && m.lastY == 0 then NoMotion
    else Motion(m.device)
  }

  /** A read yields a device exactly for a completely fetched mouse report with a
      non-zero delta field. */
  lemma MotionOnlyFromMovingMouse(m: RawInputMessage)
    ensures ReadMotion(m).Motion? <==>
      && m.requiredSize != 0
      && m.fetchResult == m.requiredSize
      && m.dwType == RIM_TYPEMOUSE
      && (m.lastX != 0 || m.lastY != 0)
  {
  }

  /** GetDeviceName: the empty string when the size query gives 0 or the fetch fails,
      otherwise the text read from the buffer. */
  function GetDeviceName(q: DeviceNameQuery): (r: string)
    ensures r != [] ==> r == q.text
    ensures q.requiredSize != 0 && q.fetchResult != UINT_MAX ==> r == q.text
    ensures q.requiredSize == 0 || q.fetchResult == UINT_MAX ==> r == []
  {
    if q.requiredSize == 0 then ""
    else if q.fetchResult == UINT_MAX then ""
    else q.text
  }

  /** RawInputCaptureWindow.GetDeviceNameFromMessage: the device path of a mouse motion
      report, or the empty string. */
  function GetDeviceNameFromMessage(m: RawInputMessage): (r: string)
    ensures r != [] ==> ReadMotion(m).Motion? && r == m.device.text
  {
    match ReadMotion(m)
    case Motion(device) => GetDeviceName(device)
    case _ => ""
  }

  /** RawInputCaptureWindow.WndProc: the argument the capture callback is invoked with,
      if it is invoked at all. */
  function CaptureCallbackArgument(msg: nat, m: RawInputMessage): (r: Option<string>)
    ensures r.Some? ==> msg == WM_INPUT && r.value != [] && ReadMotion(m).Motion?
    ensures r.Some? ==> r.value == m.device.text
  {
    if msg == WM_INPUT then
      var devicePath := GetDeviceNameFromMessage(m);
      if devicePath != [] then Some(devicePath) else None
    else
      None
  }

  /** The capture callback fires exactly for a WM_INPUT mouse report with a non-zero
      delta field whose device name could be read and is not empty. */
  lemma {:induction false} CaptureCallbackExactly(msg: nat, m: RawInputMessage)
    ensures CaptureCallbackArgument(msg, m).Some? <==>
      && msg == WM_INPUT
      && m.requiredSize != 0 && m.fetchResult == m.requiredSize
      && m.dwType == RIM_TYPEMOUSE
      && (m.lastX != 0 || m.lastY != 0)
      && m.device.requiredSize != 0 && m.device.fetchResult != UINT_MAX
      && m.device.text != []
  {
    MotionOnlyFromMovingMouse(m);
  }

  /** A report whose two delta fields, as the code declares them, are zero never yields
      a device path. */
  lemma ZeroMotionHasNoPath(msg: nat, m: RawInputMessage)
    requires m.lastX == 0 && m.lastY == 0
    ensures GetDeviceNameFromMessage(m) == []
    ensures CaptureCallbackArgument(msg, m) == None
  {
  }
}

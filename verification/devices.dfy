/** The scalar slices and the device status records: `bpm`, `live`,
    `usbManager`, `modvManager`, `fivetwelveManager` and `connectionManager`. */
module Devices {
  import opened Objects
  import opened Actions

  const InitialBpm: int := 130

  /** `bpm`: SET_BPM replaces the tempo; every other action keeps it. */
  function Bpm(bpm: int, a: Action): (r: int)
    ensures a.SetBpm? ==> r == a.value
    ensures !a.SetBpm? ==> r == bpm
  {
    match a
    case SetBpm(value) => value
    case _ => bpm
  }

  /** `live`: SET_LIVE replaces the flag; every other action keeps it. */
  function Live(live: bool, a: Action): (r: bool)
    ensures a.SetLive? ==> r == a.isLive
    ensures !a.SetLive? ==> r == live
  {
    match a
    case SetLive(isLive) => isLive
    case _ => live
  }

  /** Only the last of two SET_BPM actions has any effect. */
  lemma BpmLastWins(bpm: int, x: int, y: int)
    ensures Bpm(Bpm(bpm, SetBpm(x)), SetBpm(y)) == y
  {
  }

  datatype UsbState = UsbState(lastTransmission: int)

  /** `usbManager`: SEND_UNIVERSE_TO_USB records the time of the last transmission. */
  function UsbManager(s: UsbState, a: Action): (r: UsbState)
    ensures a.SendUniverseToUsb? ==> r.lastTransmission == a.value
    ensures !a.SendUniverseToUsb? ==> r == s
  {
    match a
    case SendUniverseToUsb(value) => s.(lastTransmission := value)
    case _ => s
  }

  datatype ModvState = ModvState(color: seq<int>, connected: bool)

  const InitialModv := ModvState([0, 0, 0], false)

  /** `modvManager`: CONNECT_MODV sets the connection flag and SET_MODV_COLOR
      the colour, each leaving the other field as it was. */
  function ModvManager(s: ModvState, a: Action): (r: ModvState)
    ensures a.ConnectModv? ==> r.connected == a.connected && r.color == s.color
    ensures a.SetModvColor? ==> r.color == a.color && r.connected == s.connected
    ensures !a.ConnectModv? && !a.SetModvColor? ==> r == s
  {
    match a
    case ConnectModv(connected) => s.(connected := connected)
    case SetModvColor(color) => s.(color := color)
    case _ => s
  }

  /** `lastTransmission` is absent from the initial state until the first send. */
  datatype FivetwelveState = FivetwelveState(connected: bool, lastTransmission: Option<int>)

  const InitialFivetwelve := FivetwelveState(false, None)

  /** `fivetwelveManager`: CONNECT_FIVETWELVE sets the connection flag and
      SEND_UNIVERSE_TO_FIVETWELVE the time of the last transmission. */
  function FivetwelveManager(s: FivetwelveState, a: Action): (r: FivetwelveState)
    ensures a.ConnectFivetwelve? ==> r.connected == a.connected && r.lastTransmission == s.lastTransmission
    ensures a.SendUniverseToFivetwelve? ==> r.lastTransmission == Some(a.value) && r.connected == s.connected
    ensures !a.ConnectFivetwelve? && !a.SendUniverseToFivetwelve? ==> r == s
  {
    match a
    case ConnectFivetwelve(connected) => s.(connected := connected)
    case SendUniverseToFivetwelve(value) => s.(lastTransmission := Some(value))
    case _ => s
  }

  datatype Link = Link(connected: bool)

  datatype ConnectionState = ConnectionState(usb: Link, bluetooth: Link)

  const InitialConnections := ConnectionState(Link(false), Link(false))

  /** `connectionManager`: CONNECT_USB and CONNECT_BLUETOOTH each replace one
      link's status and keep the other link. */
  function ConnectionManager(s: ConnectionState, a: Action): (r: ConnectionState)
    ensures a.ConnectUsb? ==> r.usb.connected == a.connected && r.bluetooth == s.bluetooth
    ensures a.ConnectBluetooth? ==> r.bluetooth.connected == a.connected && r.usb == s.usb
    ensures !a.ConnectUsb? && !a.ConnectBluetooth? ==> r == s
  {
    match a
    case ConnectUsb(connected) => s.(usb := Link(connected))
    case ConnectBluetooth(connected) => s.(bluetooth := Link(connected))
    case _ => s
  }
}

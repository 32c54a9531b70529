/**
 * The session link (services/BluetoothService.ts): the one process-wide
 * object that owns at most one connection, the host/guest role flag, a
 * single listener slot and the receive subscriptions.
 *
 * The Bluetooth library and the Android permission request are outside the
 * model: their answers (permission granted, adapter available, the device
 * that accept or connect returned, the bonded devices) are parameters. What
 * the link does to the outside world is recorded in four logs: the frames
 * written to a device, the messages handed to a listener, the
 * subscriptions removed and the devices asked to disconnect.
 */
module Link {
  import opened Text
  import opened Messages

  /** A device handle as the Bluetooth library reports it. */
  datatype BTDevice = BTDevice(id: string, name: Option<string>, address: Option<string>)

  /** The {id, name, address} record searchDevices returns (services/BluetoothService.ts:17-21). */
  datatype DeviceItem = DeviceItem(id: string, name: Option<string>, address: Option<string>)

  /** The callbacks the app registers in the listener slot. */
  datatype Listener =
    | LobbyListener   // the lobby's message handler (components/GameModeSelector.tsx:37-50)
    | MatchListener   // the match's handleRemoteMessage (app/game.tsx:263-328)
    | IdleListener    // the `() => {}` both register when they unmount

  /** A receive subscription made by device.onDataReceived. */
  datatype Subscription = Subscription(device: BTDevice)

  /** The errors the link's async operations reject with. */
  datatype LinkError =
    | PermissionsNotGranted        // 'Bluetooth permissions not granted'
    | BluetoothNotAvailable        // 'Bluetooth not available'
    | NotConnected                 // 'Not connected to any device'
    | LibraryError(message: string) // a rejection of accept or connectToDevice passed through

  datatype Result<T> = Ok(value: T) | Err(error: LinkError)

  datatype Write = Write(device: BTDevice, text: string)
  datatype Dispatch = Dispatch(listener: Listener, message: GameMessage)

  /** The name a host announces for the peer that connected. */
  function PeerName(d: BTDevice): string {
    match d.name
    case Some(n) => n
    case None => "Jugador"
  }

  function ToItem(d: BTDevice): DeviceItem {
    DeviceItem(d.id, d.name, d.address)
  }

  class BluetoothService {
    var connectedDevice: Option<BTDevice>
    var isHost: bool
    var messageCallback: Option<Listener>
    var subscriptions: seq<Subscription>

    /** Every call of device.write, in order. */
    var writes: seq<Write>
    /** Every call of the registered listener, in order. */
    var dispatched: seq<Dispatch>
    /** Every subscription whose remove() was called, in order. */
    var removed: seq<Subscription>
    /** Every device whose disconnect() was called, in order. */
    var closed: seq<BTDevice>

    /** The current device is always being listened to, and subscriptions exist only while connected. */
    ghost predicate Valid()
      reads this
    {
      && (connectedDevice.Some? <==> subscriptions != [])
      && (connectedDevice.Some? ==> Subscription(connectedDevice.value) in subscriptions)
    }

    constructor ()
      ensures Valid()
      ensures connectedDevice == None && !isHost && messageCallback == None && subscriptions == []
      ensures writes == [] && dispatched == [] && removed == [] && closed == []
    {
      connectedDevice := None;
      isHost := false;
      messageCallback := None;
      subscriptions := [];
      writes := [];
      dispatched := [];
      removed := [];
      closed := [];
    }

    /** Hands a message to the current listener, if there is one. */
    method OnMessage(m: GameMessage)
      modifies this`dispatched
      ensures dispatched == old(dispatched) + (match messageCallback
                                                case Some(l) => [Dispatch(l, m)]
                                                case None => [])
    {
      if messageCallback.Some? {
        dispatched := dispatched + [Dispatch(messageCallback.value, m)];
      }
    }

    method ListenToDevice(device: BTDevice)
      modifies this`subscriptions
      ensures subscriptions == old(subscriptions) + [Subscription(device)]
    {
      subscriptions := subscriptions + [Subscription(device)];
    }

    /**
     * Host side: waits for one peer, then announces it locally as
     * PLAYER_JOINED and starts listening to it.
     */
    method StartServer(permitted: bool, available: bool, accepted: Result<BTDevice>)
      returns (r: Result<()>)
      requires Valid()
      modifies this`isHost, this`connectedDevice, this`dispatched, this`subscriptions
      ensures Valid()
      ensures !permitted ==> r == Err(PermissionsNotGranted) && unchanged(this)
      ensures permitted ==> isHost
      ensures permitted && !available ==> r == Err(BluetoothNotAvailable)
      ensures permitted && available && accepted.Err? ==> r == Err(accepted.error)
      ensures r.Err? ==> connectedDevice == old(connectedDevice) && subscriptions == old(subscriptions)
                         && dispatched == old(dispatched)
      ensures r.Ok? <==> permitted && available && accepted.Ok?
      ensures r.Ok? ==>
        && connectedDevice == Some(accepted.value)
        && subscriptions == old(subscriptions) + [Subscription(accepted.value)]
        && dispatched == old(dispatched) + (match messageCallback
                                             case Some(l) => [Dispatch(l, PlayerJoined(PeerName(accepted.value)))]
                                             case None => [])
    {
      if !permitted {
        return Err(PermissionsNotGranted);
      }
      isHost := true;
      if !available {
        return Err(BluetoothNotAvailable);
      }
      if accepted.Err? {
        return Err(accepted.error);
      }
      var device := accepted.value;
      connectedDevice := Some(device);
      OnMessage(PlayerJoined(PeerName(device)));
      ListenToDevice(device);
      r := Ok(());
    }

    /** Guest side: lists the bonded devices, one item per device, in the same order. */
    method SearchDevices(permitted: bool, bonded: Result<seq<BTDevice>>)
      returns (r: Result<seq<DeviceItem>>)
      ensures !permitted ==> r == Err(PermissionsNotGranted)
      ensures permitted && bonded.Err? ==> r == Err(bonded.error)
      ensures r.Ok? <==> permitted && bonded.Ok?
      ensures r.Ok? ==> |r.value| == |bonded.value|
      ensures r.Ok? ==> forall i :: 0 <= i < |r.value| ==>
                          r.value[i].id == bonded.value[i].id
                          && r.value[i].name == bonded.value[i].name
                          && r.value[i].address == bonded.value[i].address
      ensures r.Ok? ==> forall i :: 0 <= i < |r.value| ==> r.value[i] == ToItem(bonded.value[i])
    {
      if !permitted {
        return Err(PermissionsNotGranted);
      }
      if bonded.Err? {
        return Err(bonded.error);
      }
      var items := seq(|bonded.value|, i requires 0 <= i < |bonded.value| => ToItem(bonded.value[i]));
      r := Ok(items);
    }

    /**
     * Guest side: connects to the chosen device and listens to it. There is
     * no permission check and nothing is announced.
     */
    method ConnectToDevice(deviceId: string, connected: Result<BTDevice>) returns (r: Result<()>)
      requires Valid()
      modifies this`isHost, this`connectedDevice, this`subscriptions
      ensures Valid()
      ensures connected.Err? ==> r == Err(connected.error) && unchanged(this)
      ensures connected.Ok? ==>
        && r == Ok(())
        && connectedDevice == Some(connected.value)
        && !isHost
        && subscriptions == old(subscriptions) + [Subscription(connected.value)]
    {
      if connected.Err? {
        return Err(connected.error);
      }
      var device := connected.value;
      connectedDevice := Some(device);
      isHost := false;
      ListenToDevice(device);
      r := Ok(());
    }

    /**
     * A frame arrives on a live subscription: it is parsed and handed to the
     * listener, or, if it does not parse, logged and dropped.
     */
    method OnDataReceived(sub: Subscription, raw: string)
      requires sub in subscriptions
      modifies this`dispatched
      ensures dispatched == old(dispatched) + (match (Decode(raw), messageCallback)
                                                case (Some(m), Some(l)) => [Dispatch(l, m)]
                                                case _ => [])
    {
      var parsed := Decode(raw);
      if parsed.Some? {
        OnMessage(parsed.value);
      }
    }

    /** Writes the message's JSON text and one delimiter to the connected device. */
    method SendMessage(m: GameMessage) returns (r: Result<()>)
      modifies this`writes
      ensures connectedDevice == None ==> r == Err(NotConnected) && writes == old(writes)
      ensures connectedDevice.Some? ==> r == Ok(()) && writes == old(writes) + [Write(connectedDevice.value, Frame(m))]
    {
      if connectedDevice.None? {
        return Err(NotConnected);
      }
      writes := writes + [Write(connectedDevice.value, Encode(m) + "\n")];
      r := Ok(());
    }

    /** Replaces the single listener slot. */
    method OnMessageReceived(callback: Listener)
      modifies this`messageCallback
      ensures messageCallback == Some(callback)
    {
      messageCallback := Some(callback);
    }

    /**
     * Removes every subscription, then asks the kept device, if any, to
     * disconnect, and drops the device, the role and the listener.
     * `closing` is the device's answer; a rejection is swallowed, so the
     * new state is the same whatever it is.
     */
    method Disconnect(closing: Result<()>)
      modifies this`subscriptions, this`removed, this`closed, this`connectedDevice, this`isHost, this`messageCallback
      ensures Valid()
      ensures removed == old(removed) + old(subscriptions)
      ensures closed == old(closed) + (match old(connectedDevice)
                                       case Some(d) => [d]
                                       case None => [])
      ensures subscriptions == [] && connectedDevice == None && !isHost && messageCallback == None
    {
      var i := 0;
      while i < |subscriptions|
        invariant 0 <= i <= |subscriptions|
        invariant subscriptions == old(subscriptions)
        invariant removed == old(removed) + subscriptions[..i]
        invariant closed == old(closed) && connectedDevice == old(connectedDevice)
      {
        removed := removed + [subscriptions[i]];
        i := i + 1;
      }
      subscriptions := [];
      if connectedDevice.Some? {
        // a rejection in `closing` is caught and only logged
        closed := closed + [connectedDevice.value];
      }
      connectedDevice := None;
      isHost := false;
      messageCallback := None;
    }

    method IsConnected() returns (b: bool)
      ensures b <==> connectedDevice.Some?
    {
      b := connectedDevice != None;
    }

    method IsHostDevice() returns (b: bool)
      ensures b == isHost
    {
      b := isHost;
    }
  }
}

/**
 * The game-mode lobby (components/GameModeSelector.tsx): a modal with a
 * main menu, a multiplayer menu, a host waiting room and a guest device
 * list. Its five state fields change on button presses, on the session
 * link's answers and on the PLAYER_JOINED and GAME_START messages that
 * reach it through the link's listener slot.
 *
 * Closing the modal and navigating are events; the alert texts are the
 * source's own literals (the translated titles of the panels are left out).
 */
module Lobby {
  import opened Text
  import opened Messages
  import opened Link

  datatype Mode = SingleMode | MultiMode
  datatype MultiplayerStep = SelectStep | HostStep | JoinStep

  /** The four blocks the modal can render. */
  datatype Panel = MainMenu | MultiplayerSelect | HostWaiting | JoinSearching

  datatype LobbyEvent =
    | CloseModal
    | OpenGame(mode: string)              // router.push to /game with that mode
    | ErrorAlert(title: string, message: string)

  /** e?.message for the link's rejections. */
  function ErrorText(e: LinkError): string {
    match e
    case PermissionsNotGranted => "Bluetooth permissions not granted"
    case BluetoothNotAvailable => "Bluetooth not available"
    case NotConnected => "Not connected to any device"
    case LibraryError(message) => message
  }

  /** The panels rendered for a mode and step, in the order of the markup. */
  function Panels(mode: Option<Mode>, step: MultiplayerStep): seq<Panel> {
    (if mode.None? then [MainMenu] else [])
    + (if mode == Some(MultiMode) && step == SelectStep then [MultiplayerSelect] else [])
    + (if mode == Some(MultiMode) && step == HostStep then [HostWaiting] else [])
    + (if mode == Some(MultiMode) && step == JoinStep then [JoinSearching] else [])
  }

  /** The panel the step selects inside the multiplayer menu. */
  function StepPanel(step: MultiplayerStep): Panel {
    match step
    case SelectStep => MultiplayerSelect
    case HostStep => HostWaiting
    case JoinStep => JoinSearching
  }

  /**
   * As long as the mode is never 'single', exactly one panel renders: the
   * main menu when no mode is chosen, else the one the step selects.
   */
  lemma ExactlyOnePanel(mode: Option<Mode>, step: MultiplayerStep)
    requires mode != Some(SingleMode)
    ensures |Panels(mode, step)| == 1
    ensures Panels(mode, step)[0] == MainMenu <==> mode.None?
    ensures mode.Some? ==> Panels(mode, step) == [StepPanel(step)]
  {
    if mode.None? {
      assert Panels(mode, step) == [MainMenu];
    } else {
      assert mode.value != SingleMode;
      assert mode == Some(MultiMode);
      match step
      case SelectStep => assert Panels(mode, step) == [MultiplayerSelect];
      case HostStep => assert Panels(mode, step) == [HostWaiting];
      case JoinStep => assert Panels(mode, step) == [JoinSearching];
    }
  }

  /** With the mode 'single' nothing would render at all. */
  lemma SingleModeRendersNothing(step: MultiplayerStep)
    ensures Panels(Some(SingleMode), step) == []
  {
  }

  /** What the host waiting room shows. */
  datatype HostView = HostView(subtitle: string, spinner: bool, startButton: bool)

  /** JavaScript truthiness of the recorded peer name: null and '' are both falsy. */
  predicate Joined(connectedPlayer: Option<string>) {
    connectedPlayer.Some? && connectedPlayer.value != ""
  }

  function HostWaitingView(connectedPlayer: Option<string>, isBusy: bool): HostView {
    if Joined(connectedPlayer) then HostView(connectedPlayer.value + " conectado", isBusy, true)
    else HostView("Esperando jugador...", isBusy, false)
  }

  /**
   * The start button appears exactly when the recorded peer name is
   * non-empty, the subtitle then names that peer, and otherwise (no peer,
   * or a peer whose name is empty) it is the waiting text.
   */
  lemma StartButtonOnlyWhenJoined(connectedPlayer: Option<string>, isBusy: bool)
    ensures var v := HostWaitingView(connectedPlayer, isBusy);
      && (v.startButton <==> connectedPlayer.Some? && connectedPlayer.value != "")
      && (Joined(connectedPlayer) ==> v.subtitle == connectedPlayer.value + " conectado")
      && (!Joined(connectedPlayer) ==> v.subtitle == "Esperando jugador...")
      && v.spinner == isBusy
  {
  }

  /** An empty device name reads as no peer: the button stays hidden. */
  lemma EmptyNameIsNotJoined(isBusy: bool)
    ensures !HostWaitingView(Some(""), isBusy).startButton
    ensures HostWaitingView(Some(""), isBusy).subtitle == "Esperando jugador..."
  {
  }

  /** d.name ?? d.address ?? d.id */
  function DeviceLabel(d: DeviceItem): (shown: string)
    ensures d.name.Some? ==> shown == d.name.value
    ensures d.name.None? && d.address.Some? ==> shown == d.address.value
    ensures d.name.None? && d.address.None? ==> shown == d.id
  {
    match d.name
    case Some(n) => n
    case None =>
      match d.address
      case Some(a) => a
      case None => d.id
  }

  /** The guest's device list: one entry per device, in order, or the empty marker. */
  function DeviceList(devices: seq<DeviceItem>): (rows: seq<string>)
    ensures devices == [] ==> rows == ["(Vacío)"]
    ensures devices != [] ==> |rows| == |devices| && forall i :: 0 <= i < |devices| ==> rows[i] == DeviceLabel(devices[i])
  {
    if devices == [] then ["(Vacío)"] else seq(|devices|, i requires 0 <= i < |devices| => DeviceLabel(devices[i]))
  }

  class GameModeSelector {
    const link: BluetoothService
    var selectedMode: Option<Mode>
    var multiplayerStep: MultiplayerStep
    var isBusy: bool
    var devices: seq<DeviceItem>
    var connectedPlayer: Option<string>
    var events: seq<LobbyEvent>

    /** Nothing ever sets the mode to 'single'. */
    ghost predicate Valid()
      reads this
    {
      selectedMode != Some(SingleMode)
    }

    /** The panels the modal renders now. */
    function Rendered(): seq<Panel>
      reads this
    {
      Panels(selectedMode, multiplayerStep)
    }

    constructor (link: BluetoothService)
      ensures this.link == link && Valid()
      ensures selectedMode == None && multiplayerStep == SelectStep && !isBusy
      ensures devices == [] && connectedPlayer == None && events == []
    {
      this.link := link;
      selectedMode := None;
      multiplayerStep := SelectStep;
      isBusy := false;
      devices := [];
      connectedPlayer := None;
      events := [];
    }

    /** The effect that registers cb in the link's listener slot, and its cleanup. */
    method Register()
      modifies link`messageCallback
      ensures link.messageCallback == Some(LobbyListener)
    {
      link.OnMessageReceived(LobbyListener);
    }

    method Unregister()
      modifies link`messageCallback
      ensures link.messageCallback == Some(IdleListener)
    {
      link.OnMessageReceived(IdleListener);
    }

    /** cb: PLAYER_JOINED names the peer; GAME_START closes the modal and opens the match. */
    method Receive(msg: GameMessage)
      modifies this`connectedPlayer, this`events
      ensures msg.PlayerJoined? ==> connectedPlayer == Some(msg.playerName) && events == old(events)
      ensures msg.GameStart? ==> connectedPlayer == old(connectedPlayer)
                                 && events == old(events) + [CloseModal, OpenGame("multi")]
      ensures !msg.PlayerJoined? && !msg.GameStart? ==> unchanged(this)
    {
      if msg.PlayerJoined? {
        connectedPlayer := Some(msg.playerName);
      }
      if msg.GameStart? {
        events := events + [CloseModal, OpenGame("multi")];
      }
    }

    /** The effect on `visible`: a hidden modal forgets everything. */
    method VisibilityChanged(visible: bool)
      modifies this`selectedMode, this`multiplayerStep, this`devices, this`connectedPlayer, this`isBusy
      ensures old(Valid()) ==> Valid()
      ensures !visible ==> selectedMode == None && multiplayerStep == SelectStep && devices == []
                           && connectedPlayer == None && !isBusy
      ensures visible ==> unchanged(this)
    {
      if !visible {
        selectedMode := None;
        multiplayerStep := SelectStep;
        devices := [];
        connectedPlayer := None;
        isBusy := false;
      }
    }

    method HandleSinglePlayer()
      modifies this`events
      ensures events == old(events) + [CloseModal, OpenGame("single")]
    {
      events := events + [CloseModal, OpenGame("single")];
    }

    method HandleMultiplayer()
      modifies this`selectedMode, this`multiplayerStep
      ensures Valid()
      ensures selectedMode == Some(MultiMode) && multiplayerStep == SelectStep
    {
      selectedMode := Some(MultiMode);
      multiplayerStep := SelectStep;
    }

    /**
     * Host button: go to the waiting room and start the server. Success
     * delivers PLAYER_JOINED to the lobby if it holds the listener slot;
     * failure alerts and goes back to the multiplayer menu. Busy ends false.
     */
    method HandleHost(permitted: bool, available: bool, accepted: Result<BTDevice>)
      requires link.Valid()
      modifies this`multiplayerStep, this`isBusy, this`connectedPlayer, this`events
      modifies link`isHost, link`connectedDevice, link`dispatched, link`subscriptions
      ensures link.Valid()
      ensures !isBusy
      ensures var r := if !permitted then Err(PermissionsNotGranted)
                       else if !available then Err(BluetoothNotAvailable)
                       else if accepted.Err? then Err(accepted.error)
                       else Ok(());
        && (r.Err? ==> multiplayerStep == SelectStep && connectedPlayer == old(connectedPlayer)
                       && events == old(events) + [ErrorAlert("Error", ErrorText(r.error))])
        && (r.Ok? ==> multiplayerStep == HostStep && events == old(events)
                      && link.connectedDevice == Some(accepted.value)
                      && connectedPlayer == (if link.messageCallback == Some(LobbyListener)
                                             then Some(PeerName(accepted.value)) else old(connectedPlayer)))
    {
      multiplayerStep := HostStep;
      isBusy := true;
      var r := link.StartServer(permitted, available, accepted);
      if r.Err? {
        events := events + [ErrorAlert("Error", ErrorText(r.error))];
        multiplayerStep := SelectStep;
      } else if link.messageCallback == Some(LobbyListener) {
        Receive(PlayerJoined(PeerName(accepted.value)));
      }
      isBusy := false;
    }

    /** Start button: GAME_START goes out first; only if it could be sent does the match open. */
    method StartGameAsHost()
      modifies this`events, link`writes
      ensures link.connectedDevice.Some? ==>
        && link.writes == old(link.writes) + [Write(link.connectedDevice.value, Frame(GameStart))]
        && events == old(events) + [CloseModal, OpenGame("multi")]
      ensures link.connectedDevice.None? ==>
        && link.writes == old(link.writes)
        && events == old(events) + [ErrorAlert("Error", "No se pudo iniciar la partida")]
    {
      var r := link.SendMessage(GameStart);
      if r.Ok? {
        events := events + [CloseModal, OpenGame("multi")];
      } else {
        events := events + [ErrorAlert("Error", "No se pudo iniciar la partida")];
      }
    }

    /** Join button: go to the device list and fill it; failure alerts and goes back. */
    method HandleJoin(permitted: bool, bonded: Result<seq<BTDevice>>)
      modifies this`multiplayerStep, this`isBusy, this`devices, this`events
      ensures !isBusy
      ensures permitted && bonded.Ok? ==>
        && multiplayerStep == JoinStep && events == old(events)
        && |devices| == |bonded.value|
        && forall i :: 0 <= i < |devices| ==> devices[i] == ToItem(bonded.value[i])
      ensures !(permitted && bonded.Ok?) ==>
        && multiplayerStep == SelectStep && devices == old(devices)
        && events == old(events) + [ErrorAlert("Error", ErrorText(if !permitted then PermissionsNotGranted else bonded.error))]
    {
      multiplayerStep := JoinStep;
      isBusy := true;
      var r := link.SearchDevices(permitted, bonded);
      if r.Ok? {
        devices := r.value;
      } else {
        events := events + [ErrorAlert("Error", ErrorText(r.error))];
        multiplayerStep := SelectStep;
      }
      isBusy := false;
    }

    /** A device row: connect, and wait for the host's GAME_START; never navigates by itself. */
    method ConnectTo(dev: DeviceItem, connected: Result<BTDevice>)
      requires link.Valid()
      modifies this`isBusy, this`events, link`isHost, link`connectedDevice, link`subscriptions
      ensures link.Valid()
      ensures !isBusy
      ensures connected.Ok? ==> events == old(events) && link.connectedDevice == Some(connected.value) && !link.isHost
      ensures connected.Err? ==> events == old(events) + [ErrorAlert("Error al conectar", ErrorText(connected.error))]
      ensures forall e :: e in events[|old(events)|..] ==> e.ErrorAlert?
    {
      isBusy := true;
      var r := link.ConnectToDevice(dev.id, connected);
      if r.Err? {
        events := events + [ErrorAlert("Error al conectar", ErrorText(r.error))];
      }
      isBusy := false;
    }

    /** Back: from the multiplayer menu to the main menu; from a sub-panel to the multiplayer menu. */
    method HandleBack()
      modifies this`selectedMode, this`multiplayerStep, this`devices, this`connectedPlayer, this`isBusy
      ensures old(Valid()) ==> Valid()
      ensures old(multiplayerStep) == SelectStep ==>
        selectedMode == None && multiplayerStep == SelectStep && devices == old(devices)
        && connectedPlayer == old(connectedPlayer) && isBusy == old(isBusy)
      ensures old(multiplayerStep) != SelectStep ==>
        selectedMode == old(selectedMode) && multiplayerStep == SelectStep && devices == []
        && connectedPlayer == None && !isBusy
    {
      if multiplayerStep == SelectStep {
        selectedMode := None;
        return;
      }
      multiplayerStep := SelectStep;
      devices := [];
      connectedPlayer := None;
      isBusy := false;
    }
  }
}

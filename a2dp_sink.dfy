/**
 * The connection state machine of the A2DP sink profile: three states
 * (Disconnected, Pending, Connected), the device slots that say which device
 * is connected, being connected or connecting in, the playing device, the
 * audio-focus flag and the per-device audio configurations.
 *
 * Every handler runs to completion on the machine's own thread. What the
 * handler cannot see — the replies of the native stack, of the audio manager,
 * of the AVRCP controller and of the adapter service — comes in as an
 * `Environment`; what it does to the outside world is appended to `effects`.
 * Messages posted to the machine's own handler are kept in `queue`; messages
 * put aside with `deferMessage` in `deferred`.
 *
 * A `transitionTo` takes effect once the handler has returned: the new
 * state's `enter` runs (Disconnected and Pending drop every queued
 * REQUEST_AUDIO_FOCUS, Connected announces "not playing" for the current
 * device), then the deferred messages go to the front of the queue.
 */
module A2dpSink {
  import opened Wrappers

  // Message codes (`what`) of the machine.
  const CONNECT: int := 1
  const DISCONNECT: int := 2
  const REQUEST_AUDIO_FOCUS: int := 4
  const STACK_EVENT: int := 101
  const CONNECT_TIMEOUT: int := 201

  // Delays of the messages the machine posts to itself, in milliseconds.
  const CONNECT_TIMEOUT_DELAY_MS: nat := 30000
  const AUDIO_FOCUS_REQUEST_MESSAGE_DELAYED: nat := 500

  // Connection states reported by the native stack.
  const CONNECTION_STATE_DISCONNECTED: int := 0
  const CONNECTION_STATE_CONNECTING: int := 1
  const CONNECTION_STATE_CONNECTED: int := 2
  const CONNECTION_STATE_DISCONNECTING: int := 3

  // Audio states reported by the native stack.
  const AUDIO_STATE_REMOTE_SUSPEND: int := 0
  const AUDIO_STATE_STOPPED: int := 1
  const AUDIO_STATE_STARTED: int := 2

  // Focus states told to the native stack.
  const STATE_FOCUS_LOST: int := 0
  const STATE_FOCUS_READY: int := 1
  const STATE_FOCUS_GRANTED: int := 3

  // AVRCP pass-through commands.
  const AVRC_ID_PLAY: int := 0x44
  const AVRC_ID_PAUSE: int := 0x46
  const KEY_STATE_PRESSED: int := 0
  const KEY_STATE_RELEASED: int := 1

  // Connection priorities of the profile service.
  const PRIORITY_OFF: int := 0
  const PRIORITY_UNDEFINED: int := -1

  // Arguments of the native initialisation: one sink connection, no multicast.
  const MAX_A2DP_SINK_CONNECTIONS: int := 1
  const MULTICAST_STATE: int := 0

  /** A remote device, identified by its address. */
  datatype Device = Device(address: string)

  datatype SmState = Disconnected | Pending | Connected

  /** `mAudioFocusAcquired`: AUDIO_FOCUS_LOSS, _GAIN, _LOSS_TRANSIENT, _LOSS_CAN_DUCK. */
  datatype Focus = Loss | Gain | LossTransient | LossCanDuck

  /** The profile connection states that are broadcast and reported to callers. */
  datatype ProfileState = StateDisconnected | StateConnecting | StateConnected | StateDisconnecting

  /** The playing states that are broadcast. */
  datatype PlayState = Playing | NotPlaying

  datatype ChannelConfig = ChannelInMono | ChannelInStereo
  datatype Encoding = EncodingPcm16Bit

  datatype AudioConfig = AudioConfig(sampleRate: int, channelConfig: ChannelConfig, encoding: Encoding)

  /** What the stack reports; the device is the one its address names. */
  datatype StackEvent =
    | ConnectionStateChanged(connState: int, device: Device)
    | AudioStateChanged(audioState: int, device: Device)
    | AudioConfigChanged(config: AudioConfig, device: Device)

  datatype Message =
    | Connect(device: Device)
    | Disconnect(device: Device)
    | RequestAudioFocus(device: Device)
    | Stack(event: StackEvent)
    | ConnectTimeout

  /** A message posted to the machine's handler, with its delay. */
  datatype Queued = Queued(msg: Message, delayMs: nat)

  /** `processMessage`'s verdict; `NullPointer` is the exception a null target raises. */
  datatype Outcome = Handled | NotHandled | NullPointer

  datatype OtherProfileResult = ProfileConnRejected | ProfileConnConnected

  /** What the handlers do to the outside world, in order. */
  datatype Effect =
    | InitNative(maxConnections: int, multicastState: int)
    | CleanupNative
    | ConnectNative(device: Device)
    | DisconnectNative(device: Device)
    | InformFocusState(focusState: int)
    | ConnectionStateBroadcast(device: Device, newState: ProfileState, prevState: ProfileState)
    | PlayingStateBroadcast(playingDevice: Option<Device>, newPlay: PlayState, prevPlay: PlayState)
    | AudioConfigBroadcast(device: Device, config: AudioConfig)
    | RequestFocus
    | AbandonFocus
    | PassThrough(device: Device, keyId: int, keyState: int)
    | ConnectOtherProfile(device: Device, result: OtherProfileResult)

  /** The adapter service as seen by `okToConnect`, for the device in question. */
  datatype AdapterState = AdapterState(quietMode: bool, priority: int, bonded: bool)

  /**
   * The replies of everything outside the machine during one handler:
   * `connectA2dpNative`, `disconnectA2dpNative`, whether the audio manager
   * answers AUDIOFOCUS_REQUEST_GRANTED, whether the AVRCP controller is up
   * and knows the device, and the adapter service (null when absent).
   */
  datatype Environment = Environment(
    connectOk: bool,
    disconnectOk: bool,
    focusGranted: bool,
    avrcpConnected: bool,
    adapter: Option<AdapterState>)

  /** How the audio manager reports a focus change to the listener. */
  datatype FocusChange = ChangeLoss | ChangeLossTransient | ChangeLossTransientCanDuck | ChangeGain | ChangeOther

  /** The message code (`what`) a message is sent with. */
  function What(m: Message): int
  {
    match m
    case Connect(_) => CONNECT
    case Disconnect(_) => DISCONNECT
    case RequestAudioFocus(_) => REQUEST_AUDIO_FOCUS
    case Stack(_) => STACK_EVENT
    case ConnectTimeout => CONNECT_TIMEOUT
  }

  /** `removeMessages(what)`: the queue without the messages of that code, order kept. */
  function Without(q: seq<Queued>, what: int): (r: seq<Queued>)
    ensures |r| <= |q|
  {
    if q == [] then []
    else Without(q[..|q| - 1], what) + (if What(q[|q| - 1].msg) == what then [] else [q[|q| - 1]])
  }

  /** `removeMessages` removes exactly the messages of its code. */
  lemma {:induction false} WithoutMembers(q: seq<Queued>, what: int)
    ensures forall x :: x in Without(q, what) <==> x in q && What(x.msg) != what
  {
    if q != [] {
      var n := |q| - 1;
      WithoutMembers(q[..n], what);
      assert q == q[..n] + [q[n]];
    }
  }

  lemma WithoutAppend(q: seq<Queued>, x: Queued, what: int)
    ensures Without(q + [x], what) == Without(q, what) + (if What(x.msg) == what then [] else [x])
  {
    assert (q + [x])[..|q|] == q;
  }

  /** Entering Pending after posting the timeout leaves the timeout last. */
  lemma TimeoutBehindDeferred(front: seq<Message>, q: seq<Queued>, timeout: Queued)
    requires What(timeout.msg) != REQUEST_AUDIO_FOCUS
    ensures Immediate(front) + Without(q + [timeout], REQUEST_AUDIO_FOCUS)
            == Immediate(front) + Without(q, REQUEST_AUDIO_FOCUS) + [timeout]
  {
    WithoutAppend(q, timeout, REQUEST_AUDIO_FOCUS);
  }

  /** Deferred messages as they land at the front of the queue: undelayed, order kept. */
  function Immediate(ms: seq<Message>): (r: seq<Queued>)
    ensures |r| == |ms|
    ensures forall i :: 0 <= i < |ms| ==> r[i] == Queued(ms[i], 0)
  {
    if ms == [] then [] else [Queued(ms[0], 0)] + Immediate(ms[1..])
  }

  /**
   * Once the queue holds no CONNECT_TIMEOUT, neither dropping focus requests
   * nor putting deferred connection requests in front brings one back.
   */
  lemma TimeoutStaysCancelled(front: seq<Message>, q: seq<Queued>)
    requires RequestsOnly(front) && NoneWith(q, CONNECT_TIMEOUT)
    ensures NoneWith(Immediate(front) + q, CONNECT_TIMEOUT)
    ensures NoneWith(Immediate(front) + Without(q, REQUEST_AUDIO_FOCUS), CONNECT_TIMEOUT)
  {
    WithoutMembers(q, REQUEST_AUDIO_FOCUS);
  }

  /** No queued message has code `what`. */
  predicate NoneWith(q: seq<Queued>, what: int) {
    forall x :: x in q ==> What(x.msg) != what
  }

  /** Only connection requests are ever deferred. */
  predicate RequestsOnly(ms: seq<Message>) {
    forall i :: 0 <= i < |ms| ==> ms[i].Connect? || ms[i].Disconnect?
  }

  /** `k` copies of `d`. */
  function Copies(d: Device, k: nat): (r: seq<Device>)
    ensures |r| == k
    ensures forall i :: 0 <= i < k ==> r[i] == d
  {
    seq(k, _ => d)
  }

  lemma CopiesAppend(d: Device, k: nat)
    ensures Copies(d, k + 1) == Copies(d, k) + [d]
  {
  }

  /** The inner loop of `getDevicesMatchingConnectionStates`: `device` is added once per entry equal to its state. */
  method AddPerMatch(list: seq<Device>, device: Device, connectionState: ProfileState, states: seq<ProfileState>)
    returns (r: seq<Device>)
    ensures r == list + Copies(device, multiset(states)[connectionState])
  {
    r := list;
    var i := 0;
    while i < |states|
      invariant 0 <= i <= |states|
      invariant r == list + Copies(device, multiset(states[..i])[connectionState])
    {
      assert states[..i + 1] == states[..i] + [states[i]];
      if connectionState == states[i] {
        CopiesAppend(device, multiset(states[..i])[connectionState]);
        r := r + [device];
      }
      i := i + 1;
    }
    assert states[..i] == states;
  }

  /** The broadcast the Connected state's `enter` makes. */
  function EnteredConnected(current: Option<Device>): Effect {
    PlayingStateBroadcast(current, NotPlaying, Playing)
  }

  /** The queue after entering `dest`: Disconnected and Pending drop focus requests. */
  function EnterQueue(dest: SmState, q: seq<Queued>): seq<Queued> {
    if dest == Connected then q else Without(q, REQUEST_AUDIO_FOCUS)
  }

  /** The two key events of an AVRCP pass-through command, when the controller can send it. */
  function PassThru(device: Device, keyId: int, avrcpConnected: bool): seq<Effect> {
    if avrcpConnected then [PassThrough(device, keyId, KEY_STATE_PRESSED), PassThrough(device, keyId, KEY_STATE_RELEASED)]
    else []
  }

  /** `connectOtherProfile`, made only when the adapter service exists. */
  function OtherProfile(adapter: Option<AdapterState>, device: Device, result: OtherProfileResult): seq<Effect> {
    if adapter.Some? then [ConnectOtherProfile(device, result)] else []
  }

  /** The audio configuration the stack's report describes: mono exactly for one channel. */
  function ConfigFromStack(sampleRate: int, channelCount: int): (c: AudioConfig)
    ensures c.sampleRate == sampleRate
    ensures c.channelConfig == ChannelInMono <==> channelCount == 1
    ensures c.encoding == EncodingPcm16Bit
  {
    AudioConfig(sampleRate, if channelCount == 1 then ChannelInMono else ChannelInStereo, EncodingPcm16Bit)
  }

  class A2dpSinkStateMachine {
    var state: SmState
    /** The device connected before the state changed. */
    var current: Option<Device>
    /** The device to be connected. */
    var target: Option<Device>
    /** The device connecting to us, only while Pending. */
    var incoming: Option<Device>
    var playing: Option<Device>
    var focus: Focus
    var configs: map<Device, AudioConfig>
    var queue: seq<Queued>
    var deferred: seq<Message>
    var effects: seq<Effect>

    /**
     * Which slots may be set in which state: an incoming device excludes the
     * other two, Disconnected has none, Connected has exactly the current
     * device, Pending has at least one, and current and target differ.
     * Then the slots alone tell whether the machine is Disconnected.
     */
    predicate RolesConsistent(): (r: bool)
      reads this`state, this`current, this`target, this`incoming
      ensures r ==> (state == Disconnected <==> current.None? && target.None? && incoming.None?)
    {
      && (incoming.Some? ==> current.None? && target.None?)
      && (state == Disconnected ==> current.None? && target.None? && incoming.None?)
      && (state == Connected ==> current.Some? && target.None? && incoming.None?)
      && (state == Pending ==> current.Some? || target.Some? || incoming.Some?)
      && (current.Some? && target.Some? ==> current != target)
    }

    /**
     * The one message that leaves the slots inconsistent: the stack reports
     * that the target disconnected while Pending also holds a different
     * current device.
     */
    predicate BreaksRoles(msg: Message)
      reads this`state, this`current, this`target
    {
      && state == Pending && current.Some? && target.Some? && current != target
      && msg == Stack(ConnectionStateChanged(CONNECTION_STATE_DISCONNECTED, target.value))
    }

    /** The messages the current state does not handle (`processMessage` returns NOT_HANDLED). */
    predicate Refuses(msg: Message)
      reads this`state, this`current, this`target, this`incoming
    {
      match state
      case Disconnected =>
        current.Some? || target.Some? || incoming.Some? || msg.RequestAudioFocus? || msg.ConnectTimeout?
      case Pending => msg.RequestAudioFocus?
      case Connected => current.None? || msg.ConnectTimeout?
    }

    constructor ()
      ensures state == Disconnected
      ensures current.None? && target.None? && incoming.None? && playing.None?
      ensures focus == Loss && configs == map[]
      ensures queue == [] && deferred == []
      ensures effects == [InitNative(MAX_A2DP_SINK_CONNECTIONS, MULTICAST_STATE)]
      ensures RolesConsistent()
    {
      state := Disconnected;
      current, target, incoming, playing := None, None, None, None;
      focus := Loss;
      configs := map[];
      queue := [];
      deferred := [];
      effects := [InitNative(MAX_A2DP_SINK_CONNECTIONS, MULTICAST_STATE)];
    }

    /** Native clean-up, then every stored audio configuration is forgotten. */
    method Cleanup()
      modifies this`configs, this`effects
      ensures configs == map[]
      ensures effects == old(effects) + [CleanupNative]
    {
      effects := effects + [CleanupNative];
      configs := map[];
    }

    /** The stored audio configuration of a device, null when none was reported. */
    function GetAudioConfig(device: Device): (c: Option<AudioConfig>)
      reads this`configs
      ensures c.Some? <==> device in configs
      ensures c.Some? ==> c.value == configs[device]
    {
      if device in configs then Some(configs[device]) else None
    }

    /**
     * The connection state of a device: CONNECTED only for the current device
     * in Connected, DISCONNECTING only for the current device while Pending
     * (unless it is also the target), CONNECTING for the target or incoming
     * device while Pending, DISCONNECTED otherwise.
     */
    function GetConnectionState(device: Device): (s: ProfileState)
      reads this`state, this`current, this`target, this`incoming
      requires state == Connected ==> current.Some?
      ensures state == Disconnected ==> s == StateDisconnected
      ensures s == StateConnected <==> state == Connected && current == Some(device)
      ensures s == StateConnecting <==>
        state == Pending && (target == Some(device) || (incoming == Some(device) && current != Some(device)))
      ensures s == StateDisconnecting <==> state == Pending && current == Some(device) && target != Some(device)
    {
      if state == Disconnected then StateDisconnected
      else if state == Pending then
        if target == Some(device) then StateConnecting
        else if current == Some(device) then StateDisconnecting
        else if incoming == Some(device) then StateConnecting
        else StateDisconnected
      else if current.value == device then StateConnected
      else StateDisconnected
    }

    /** The connected devices: the devices whose connection state is CONNECTED. */
    function GetConnectedDevices(): (devices: seq<Device>)
      reads this`state, this`current, this`target, this`incoming
      requires state == Connected ==> current.Some?
      ensures |devices| <= 1
      ensures forall d :: d in devices <==> GetConnectionState(d) == StateConnected
    {
      if state == Connected then [current.value] else []
    }

    /**
     * The bonded devices offering an audio source, in the adapter's order,
     * each repeated once per entry of `states` equal to its connection state.
     */
    function MatchingDevices(bonded: seq<Device>, audioSources: set<Device>, states: seq<ProfileState>): seq<Device>
      reads this`state, this`current, this`target, this`incoming
      requires state == Connected ==> current.Some?
    {
      if bonded == [] then []
      else
        var n := |bonded| - 1;
        var device := bonded[n];
        MatchingDevices(bonded[..n], audioSources, states)
          + (if device in audioSources then Copies(device, multiset(states)[GetConnectionState(device)]) else [])
    }

    /** A device is listed exactly when it is bonded, offers an audio source, and its state is asked for. */
    lemma {:induction false} MatchingDevicesMembers(bonded: seq<Device>, audioSources: set<Device>,
                                                    states: seq<ProfileState>, d: Device)
      requires state == Connected ==> current.Some?
      ensures d in MatchingDevices(bonded, audioSources, states)
          <==> d in bonded && d in audioSources && GetConnectionState(d) in states
    {
      if bonded != [] {
        var n := |bonded| - 1;
        MatchingDevicesMembers(bonded[..n], audioSources, states, d);
        assert bonded == bonded[..n] + [bonded[n]];
      }
    }

    /**
     * `getDevicesMatchingConnectionStates`, given the adapter's bonded devices
     * in its iteration order and the ones whose UUIDs include the audio source.
     */
    method GetDevicesMatchingConnectionStates(bonded: seq<Device>, audioSources: set<Device>, states: seq<ProfileState>)
      returns (devices: seq<Device>)
      requires state == Connected ==> current.Some?
      requires forall i, j :: 0 <= i < j < |bonded| ==> bonded[i] != bonded[j]  // the adapter's bonded set
      ensures devices == MatchingDevices(bonded, audioSources, states)
    {
      devices := [];
      var j := 0;
      while j < |bonded|
        invariant 0 <= j <= |bonded|
        invariant devices == MatchingDevices(bonded[..j], audioSources, states)
      {
        var device := bonded[j];
        assert bonded[..j + 1][..j] == bonded[..j];
        if device in audioSources {
          devices := AddPerMatch(devices, device, GetConnectionState(device), states);
        }
        j := j + 1;
      }
      assert bonded[..j] == bonded;
    }

    /** A device is playing exactly when it is the playing device. */
    function IsPlaying(device: Device): (p: bool)
      reads this`playing
      ensures p <==> playing == Some(device)
    {
      playing.Some? && device == playing.value
    }

    /**
     * Whether an incoming connection is accepted: never without the adapter
     * service, never in quiet mode unless we are connecting to a target, and
     * otherwise when the priority is above OFF, or UNDEFINED for a bonded device.
     */
    function OkToConnect(adapter: Option<AdapterState>): (ok: bool)
      reads this`target
      ensures adapter.None? ==> !ok
      ensures adapter.Some? && adapter.value.quietMode && target.None? ==> !ok
      ensures ok <==>
        && adapter.Some? && !(adapter.value.quietMode && target.None?)
        && (PRIORITY_OFF < adapter.value.priority
            || (adapter.value.priority == PRIORITY_UNDEFINED && adapter.value.bonded))
    {
      if adapter.None? || (adapter.value.quietMode && target.None?) then false
      else if PRIORITY_OFF < adapter.value.priority then true
      else adapter.value.priority == PRIORITY_UNDEFINED && adapter.value.bonded
    }

    /** The effect of `transitionTo(dest)` once the handler has returned. */
    method TransitionTo(dest: SmState)
      modifies this`state, this`queue, this`deferred, this`effects
      ensures state == dest
      ensures queue == Immediate(old(deferred)) + EnterQueue(dest, old(queue))
      ensures deferred == []
      ensures effects == old(effects) + (if dest == Connected then [EnteredConnected(current)] else [])
    {
      state := dest;
      if dest == Connected {
        effects := effects + [EnteredConnected(current)];
      } else {
        queue := Without(queue, REQUEST_AUDIO_FOCUS);
      }
      queue := Immediate(deferred) + queue;
      deferred := [];
    }

    /** The new state after an audio configuration event: the configuration is stored and broadcast. */
    twostate predicate AudioConfigPost(config: AudioConfig, device: Device)
      reads this
    {
      && state == old(state) && current == old(current) && target == old(target) && incoming == old(incoming)
      && playing == old(playing) && focus == old(focus) && queue == old(queue) && deferred == old(deferred)
      && configs == old(configs)[device := config]
      && effects == old(effects) + [AudioConfigBroadcast(device, config)]
    }

    /** `processAudioConfigEvent`: the configuration is stored and broadcast. */
    method ProcessAudioConfigEvent(config: AudioConfig, device: Device)
      modifies this`configs, this`effects
      ensures AudioConfigPost(config, device)
      ensures GetAudioConfig(device) == Some(config)
    {
      configs := configs[device := config];
      effects := effects + [AudioConfigBroadcast(device, config)];
    }

    /** `releasePatch` with the audio-track path: tell the stack focus is lost. */
    method ReleasePatch()
      modifies this`effects
      ensures effects == old(effects) + [InformFocusState(STATE_FOCUS_LOST)]
    {
      effects := effects + [InformFocusState(STATE_FOCUS_LOST)];
    }

    /** `patchPorts` with the audio-track path: announce playing, tell the stack focus is granted. */
    method PatchPorts()
      modifies this`effects
      ensures effects == old(effects)
        + [PlayingStateBroadcast(playing, Playing, NotPlaying), InformFocusState(STATE_FOCUS_GRANTED)]
    {
      effects := effects + [PlayingStateBroadcast(playing, Playing, NotPlaying), InformFocusState(STATE_FOCUS_GRANTED)];
    }

    /** `abandonAudioFocus`: the flag drops to LOSS only when the audio manager grants it. */
    method AbandonAudioFocus(granted: bool)
      modifies this`focus, this`effects
      ensures focus == (if granted then Loss else old(focus))
      ensures effects == old(effects) + [AbandonFocus]
    {
      effects := effects + [AbandonFocus];
      if granted {
        focus := Loss;
      }
    }

    // ---------------------------------------------------------------- Disconnected

    /**
     * The new state after CONNECT while Disconnected: CONNECTING is announced
     * and the stack asked to connect; on success the device is the target,
     * the machine is Pending and a timeout is posted; on failure DISCONNECTED
     * is announced and nothing else changes.
     */
    twostate predicate DisconnectedConnectPost(device: Device, env: Environment)
      reads this
    {
      && current == old(current) && incoming == old(incoming) && playing == old(playing)
      && focus == old(focus) && configs == old(configs)
      && (env.connectOk ==>
        && state == Pending && target == Some(device)
        && queue == Immediate(old(deferred)) + Without(old(queue), REQUEST_AUDIO_FOCUS)
                    + [Queued(ConnectTimeout, CONNECT_TIMEOUT_DELAY_MS)]
        && deferred == []
        && effects == old(effects) + [ConnectionStateBroadcast(device, StateConnecting, StateDisconnected),
                                      ConnectNative(device)])
      && (!env.connectOk ==>
        && state == old(state) && target == old(target)
        && queue == old(queue) && deferred == old(deferred)
        && effects == old(effects) + [ConnectionStateBroadcast(device, StateConnecting, StateDisconnected),
                                      ConnectNative(device),
                                      ConnectionStateBroadcast(device, StateDisconnected, StateConnecting)])
    }

    /** CONNECT while Disconnected: announce, ask the stack, and go Pending with a timeout. */
    method DisconnectedConnect(device: Device, env: Environment)
      modifies this`state, this`target, this`queue, this`deferred, this`effects
      ensures DisconnectedConnectPost(device, env)
    {
      effects := effects + [ConnectionStateBroadcast(device, StateConnecting, StateDisconnected), ConnectNative(device)];
      if !env.connectOk {
        effects := effects + [ConnectionStateBroadcast(device, StateDisconnected, StateConnecting)];
        return;
      }
      target := Some(device);
      var timeout := Queued(ConnectTimeout, CONNECT_TIMEOUT_DELAY_MS);
      TimeoutBehindDeferred(deferred, queue, timeout);
      queue := queue + [timeout];
      TransitionTo(Pending);

    }

    /**
     * A connection event while Disconnected: an accepted CONNECTING makes the
     * device incoming (Pending), an accepted CONNECTED makes it current
     * (Connected); a rejected one is disconnected and reported to the other
     * profiles; DISCONNECTED, DISCONNECTING and unknown states are ignored.
     */
    twostate predicate DisconnectedConnectionEventPost(connState: int, device: Device, env: Environment)
      reads this
    {
      && target == old(target) && playing == old(playing) && focus == old(focus) && configs == old(configs)
      && (connState == CONNECTION_STATE_CONNECTING && old(OkToConnect(env.adapter)) ==>
        && state == Pending && incoming == Some(device) && current == old(current)
        && queue == Immediate(old(deferred)) + Without(old(queue), REQUEST_AUDIO_FOCUS)
        && deferred == []
        && effects == old(effects) + [ConnectionStateBroadcast(device, StateConnecting, StateDisconnected)])
      && (connState == CONNECTION_STATE_CONNECTED && old(OkToConnect(env.adapter)) ==>
        && state == Connected && current == Some(device) && incoming == old(incoming)
        && queue == Immediate(old(deferred)) + old(queue)
        && deferred == []
        && effects == old(effects) + [ConnectionStateBroadcast(device, StateConnected, StateDisconnected),
                                      ConnectOtherProfile(device, ProfileConnConnected),
                                      EnteredConnected(Some(device))])
      && ((connState == CONNECTION_STATE_CONNECTING || connState == CONNECTION_STATE_CONNECTED)
              && !old(OkToConnect(env.adapter)) ==>
        && state == old(state) && current == old(current) && incoming == old(incoming)
        && queue == old(queue) && deferred == old(deferred)
        && effects == old(effects) + [DisconnectNative(device)]
                      + OtherProfile(env.adapter, device, ProfileConnRejected))
      && (connState != CONNECTION_STATE_CONNECTING && connState != CONNECTION_STATE_CONNECTED ==>
        && state == old(state) && current == old(current) && incoming == old(incoming)
        && queue == old(queue) && deferred == old(deferred) && effects == old(effects))
    }

    /** A connection event while Disconnected, handled as its new-state predicate says. */
    method DisconnectedConnectionEvent(connState: int, device: Device, env: Environment)
      modifies this`state, this`current, this`incoming, this`queue, this`deferred, this`effects
      ensures DisconnectedConnectionEventPost(connState, device, env)
    {
      if connState == CONNECTION_STATE_CONNECTING || connState == CONNECTION_STATE_CONNECTED {
        if !OkToConnect(env.adapter) {
          effects := effects + [DisconnectNative(device)] + OtherProfile(env.adapter, device, ProfileConnRejected);
        } else if connState == CONNECTION_STATE_CONNECTING {
          effects := effects + [ConnectionStateBroadcast(device, StateConnecting, StateDisconnected)];
          incoming := Some(device);
          TransitionTo(Pending);
        } else {
          effects := effects + [ConnectionStateBroadcast(device, StateConnected, StateDisconnected),
                                ConnectOtherProfile(device, ProfileConnConnected)];
          current := Some(device);
          TransitionTo(Connected);
        }
      }
    }

    /** What `Disconnected.processMessage` does with each message it handles. */
    twostate predicate DisconnectedHandles(msg: Message, env: Environment)
      reads this
    {
      match msg
      case Connect(device) => DisconnectedConnectPost(device, env)
      case Disconnect(_) => unchanged(this)
      case Stack(ConnectionStateChanged(connState, device)) => DisconnectedConnectionEventPost(connState, device, env)
      case Stack(AudioConfigChanged(config, device)) => AudioConfigPost(config, device)
      case Stack(AudioStateChanged(_, _)) => unchanged(this)
      case RequestAudioFocus(_) => false
      case ConnectTimeout => false
    }

    /**
     * `Disconnected.processMessage`: nothing is handled while any device slot
     * is set (so a machine left there with a device is stuck); DISCONNECT is
     * ignored; REQUEST_AUDIO_FOCUS and CONNECT_TIMEOUT are not handled.
     */
    method DisconnectedProcessMessage(msg: Message, env: Environment) returns (outcome: Outcome)
      requires state == Disconnected
      modifies this
      ensures outcome != NullPointer
      ensures outcome == NotHandled <==>
        old(current).Some? || old(target).Some? || old(incoming).Some?
        || msg.RequestAudioFocus? || msg.ConnectTimeout?
      ensures outcome == NotHandled || msg.Disconnect? ==> unchanged(this)
      ensures outcome == Handled ==> DisconnectedHandles(msg, env)
      ensures old(RolesConsistent()) ==> RolesConsistent()
      ensures RequestsOnly(old(deferred)) ==> RequestsOnly(deferred)
    {
      if current.Some? || target.Some? || incoming.Some? {
        return NotHandled;
      }
      outcome := Handled;
      match msg
      case Connect(device) =>
        DisconnectedConnect(device, env);
      case Disconnect(_) =>
      case Stack(event) =>
        match event {
        case ConnectionStateChanged(connState, device) =>
          DisconnectedConnectionEvent(connState, device, env);
        case AudioConfigChanged(config, device) =>
          ProcessAudioConfigEvent(config, device);
        case AudioStateChanged(_, _) =>
        }
      case _ =>
        outcome := NotHandled;
    }

    // ---------------------------------------------------------------- Pending

    /**
     * DISCONNECT while Pending: when a current device is being replaced by
     * the target and the target is the device, the switch is abandoned;
     * otherwise the request waits for the next state.
     */
    twostate predicate PendingDisconnectPost(device: Device)
      reads this
    {
      && state == old(state) && current == old(current) && incoming == old(incoming) && playing == old(playing)
      && focus == old(focus) && configs == old(configs) && queue == old(queue)
      && (old(current).Some? && old(target) == Some(device) ==>
        && target.None? && deferred == old(deferred)
        && effects == old(effects) + [ConnectionStateBroadcast(device, StateDisconnected, StateConnecting)])
      && (!(old(current).Some? && old(target) == Some(device)) ==>
        && target == old(target) && deferred == old(deferred) + [Disconnect(device)]
        && effects == old(effects))
    }

    /** DISCONNECT while Pending. */
    method PendingDisconnect(device: Device)
      modifies this`target, this`deferred, this`effects
      ensures PendingDisconnectPost(device)
    {
      if current.Some? && target == Some(device) {
        effects := effects + [ConnectionStateBroadcast(device, StateDisconnected, StateConnecting)];
        target := None;
      } else {
        deferred := deferred + [Disconnect(device)];
      }
    }

    /**
     * The stack reports a device disconnected while Pending. Its configuration
     * is dropped. If it was current: a pending target is connected now (on
     * failure everything goes back to Disconnected), and without a target the
     * machine goes to Disconnected. If it was the target or the incoming
     * device, that slot is cleared and the machine goes to Disconnected.
     * Other devices change nothing else. The playing device is kept.
     */
    twostate predicate PendingDisconnectedEventPost(device: Device, env: Environment, q: seq<Queued>)
      reads this
    {
      && playing == old(playing) && focus == old(focus)
      && configs == old(configs) - {device}
      && (old(current) == Some(device) && old(target).Some? && env.connectOk ==>
        && state == old(state) && current.None? && target == old(target) && incoming == old(incoming)
        && queue == q && deferred == old(deferred)
        && effects == old(effects) + [ConnectionStateBroadcast(device, StateDisconnected, StateDisconnecting),
                                      ConnectNative(old(target).value)])
      && (old(current) == Some(device) && old(target).Some? && !env.connectOk ==>
        && state == Disconnected && current.None? && target.None? && incoming == old(incoming)
        && queue == Immediate(old(deferred)) + Without(q, REQUEST_AUDIO_FOCUS) && deferred == []
        && effects == old(effects) + [ConnectionStateBroadcast(device, StateDisconnected, StateDisconnecting),
                                      ConnectNative(old(target).value),
                                      ConnectionStateBroadcast(old(target).value, StateDisconnected, StateConnecting)])
      && (old(current) == Some(device) && old(target).None? ==>
        && state == Disconnected && current.None? && target.None? && incoming.None?
        && queue == Immediate(old(deferred)) + Without(q, REQUEST_AUDIO_FOCUS) && deferred == []
        && effects == old(effects) + [ConnectionStateBroadcast(device, StateDisconnected, StateDisconnecting)])
      && (old(current) != Some(device) && old(target) == Some(device) ==>
        && state == Disconnected && current == old(current) && target.None? && incoming == old(incoming)
        && queue == Immediate(old(deferred)) + Without(q, REQUEST_AUDIO_FOCUS) && deferred == []
        && effects == old(effects) + [ConnectionStateBroadcast(device, StateDisconnected, StateConnecting)])
      && (old(current) != Some(device) && old(target) != Some(device) && old(incoming) == Some(device) ==>
        && state == Disconnected && current == old(current) && target == old(target) && incoming.None?
        && queue == Immediate(old(deferred)) + Without(q, REQUEST_AUDIO_FOCUS) && deferred == []
        && effects == old(effects) + [ConnectionStateBroadcast(device, StateDisconnected, StateConnecting)])
      && (old(current) != Some(device) && old(target) != Some(device) && old(incoming) != Some(device) ==>
        && state == old(state) && current == old(current) && target == old(target) && incoming == old(incoming)
        && queue == q && deferred == old(deferred) && effects == old(effects))
    }

    /** The stack reports a device disconnected while Pending. */
    method PendingDisconnectedEvent(device: Device, env: Environment)
      modifies this`state, this`current, this`target, this`incoming, this`configs
      modifies this`queue, this`deferred, this`effects
      ensures PendingDisconnectedEventPost(device, env, old(queue))
    {
      configs := configs - {device};
      if current == Some(device) {
        DisconnectingCurrentGone(env);
      } else if target == Some(device) {
        effects := effects + [ConnectionStateBroadcast(device, StateDisconnected, StateConnecting)];
        target := None;
        TransitionTo(Disconnected);
      } else if incoming == Some(device) {
        effects := effects + [ConnectionStateBroadcast(device, StateDisconnected, StateConnecting)];
        incoming := None;
        TransitionTo(Disconnected);
      }
    }

    /**
     * The disconnecting current device is gone: a pending target is connected
     * now (on failure the machine goes to Disconnected); without a target the
     * machine goes to Disconnected.
     */
    method DisconnectingCurrentGone(env: Environment)
      requires current.Some?
      modifies this`state, this`current, this`target, this`incoming, this`queue, this`deferred, this`effects
      ensures current.None?
      ensures old(target).Some? && env.connectOk ==>
        && state == old(state) && target == old(target) && incoming == old(incoming)
        && queue == old(queue) && deferred == old(deferred)
        && effects == old(effects) + [ConnectionStateBroadcast(old(current).value, StateDisconnected, StateDisconnecting),
                                      ConnectNative(old(target).value)]
      ensures old(target).Some? && !env.connectOk ==>
        && state == Disconnected && target.None? && incoming == old(incoming)
        && queue == Immediate(old(deferred)) + Without(old(queue), REQUEST_AUDIO_FOCUS) && deferred == []
        && effects == old(effects) + [ConnectionStateBroadcast(old(current).value, StateDisconnected, StateDisconnecting),
                                      ConnectNative(old(target).value),
                                      ConnectionStateBroadcast(old(target).value, StateDisconnected, StateConnecting)]
      ensures old(target).None? ==>
        && state == Disconnected && target.None? && incoming.None?
        && queue == Immediate(old(deferred)) + Without(old(queue), REQUEST_AUDIO_FOCUS) && deferred == []
        && effects == old(effects) + [ConnectionStateBroadcast(old(current).value, StateDisconnected, StateDisconnecting)]
    {
      effects := effects + [ConnectionStateBroadcast(current.value, StateDisconnected, StateDisconnecting)];
      current := None;
      if target.Some? {
        effects := effects + [ConnectNative(target.value)];
        if !env.connectOk {
          effects := effects + [ConnectionStateBroadcast(target.value, StateDisconnected, StateConnecting)];
          target := None;
          TransitionTo(Disconnected);
        }
      } else {
        incoming := None;
        TransitionTo(Disconnected);
      }
    }

    /**
     * The stack reports a device connected while Pending: whatever the slots
     * held, the machine ends in Connected with that device current. A
     * disconnecting current device that comes back drops the target; a
     * target or incoming device is promoted; an unknown device replaces
     * all slots. The other profiles are told in every case.
     */
    twostate predicate PendingConnectedEventPost(device: Device, env: Environment, q: seq<Queued>)
      reads this
    {
      && playing == old(playing) && focus == old(focus) && configs == old(configs)
      && state == Connected && current == Some(device)
      && queue == Immediate(old(deferred)) + q && deferred == []
      && (old(current) == Some(device) ==>
        && target.None? && incoming == old(incoming)
        && effects == old(effects) + [ConnectionStateBroadcast(device, StateConnected, StateDisconnecting)]
                      + (if old(target).Some?
                         then [ConnectionStateBroadcast(old(target).value, StateDisconnected, StateConnecting)]
                         else [])
                      + OtherProfile(env.adapter, device, ProfileConnConnected) + [EnteredConnected(current)])
      && (old(current) != Some(device) && old(target) == Some(device) ==>
        && target.None? && incoming == old(incoming)
        && effects == old(effects) + [ConnectionStateBroadcast(device, StateConnected, StateConnecting)]
                      + OtherProfile(env.adapter, device, ProfileConnConnected) + [EnteredConnected(current)])
      && (old(current) != Some(device) && old(target) != Some(device) && old(incoming) == Some(device) ==>
        && target == old(target) && incoming.None?
        && effects == old(effects) + [ConnectionStateBroadcast(device, StateConnected, StateConnecting)]
                      + OtherProfile(env.adapter, device, ProfileConnConnected) + [EnteredConnected(current)])
      && (old(current) != Some(device) && old(target) != Some(device) && old(incoming) != Some(device) ==>
        && target.None? && incoming.None?
        && effects == old(effects) + [ConnectionStateBroadcast(device, StateConnected, StateDisconnected)]
                      + OtherProfile(env.adapter, device, ProfileConnConnected) + [EnteredConnected(current)])
    }

    /** The stack reports a device connected while Pending; the slots end consistent when they began so. */
    method PendingConnectedEvent(device: Device, env: Environment)
      modifies this`state, this`current, this`target, this`incoming, this`queue, this`deferred, this`effects
      ensures PendingConnectedEventPost(device, env, old(queue))
      ensures old(RolesConsistent()) ==> target.None? && incoming.None?
    {
      if current == Some(device) {
        effects := effects + [ConnectionStateBroadcast(device, StateConnected, StateDisconnecting)];
        if target.Some? {
          effects := effects + [ConnectionStateBroadcast(target.value, StateDisconnected, StateConnecting)];
        }
        target := None;
      } else if target == Some(device) {
        effects := effects + [ConnectionStateBroadcast(device, StateConnected, StateConnecting)];
        current := target;
        target := None;
      } else if incoming == Some(device) {
        effects := effects + [ConnectionStateBroadcast(device, StateConnected, StateConnecting)];
        current := incoming;
        incoming := None;
      } else {
        effects := effects + [ConnectionStateBroadcast(device, StateConnected, StateDisconnected)];
        current := Some(device);
        target := None;
        incoming := None;
      }
      effects := effects + OtherProfile(env.adapter, device, ProfileConnConnected);
      TransitionTo(Connected);
    }

    /**
     * A connection event while Pending: the timeout is cancelled first, then
     * DISCONNECTED and CONNECTED are handled; other states change nothing more.
     */
    twostate predicate PendingConnectionEventPost(connState: int, device: Device, env: Environment)
      reads this
    {
      var q := Without(old(queue), CONNECT_TIMEOUT);
      if connState == CONNECTION_STATE_DISCONNECTED then PendingDisconnectedEventPost(device, env, q)
      else if connState == CONNECTION_STATE_CONNECTED then PendingConnectedEventPost(device, env, q)
      else
        && state == old(state) && current == old(current) && target == old(target) && incoming == old(incoming)
        && playing == old(playing) && focus == old(focus) && configs == old(configs)
        && queue == q && deferred == old(deferred) && effects == old(effects)
    }

    /** The CONNECTION_STATE_CHANGED branch of `Pending.processMessage`. */
    method PendingConnectionEvent(connState: int, device: Device, env: Environment)
      modifies this
      ensures PendingConnectionEventPost(connState, device, env)
      ensures RequestsOnly(old(deferred)) ==> NoneWith(queue, CONNECT_TIMEOUT)
    {
      WithoutMembers(queue, CONNECT_TIMEOUT);
      queue := Without(queue, CONNECT_TIMEOUT);
      if RequestsOnly(deferred) {
        TimeoutStaysCancelled(deferred, queue);
      }
      if connState == CONNECTION_STATE_DISCONNECTED {
        PendingDisconnectedEvent(device, env);
      } else if connState == CONNECTION_STATE_CONNECTED {
        PendingConnectedEvent(device, env);
      }
    }

    /** What `Pending.processMessage` does with each message it handles. */
    twostate predicate PendingHandles(msg: Message, env: Environment)
      reads this
    {
      match msg
      case Connect(_) =>
        && deferred == old(deferred) + [msg]
        && state == old(state) && current == old(current) && target == old(target) && incoming == old(incoming)
        && playing == old(playing) && focus == old(focus) && configs == old(configs)
        && queue == old(queue) && effects == old(effects)
      case ConnectTimeout =>
        && old(target).Some?
        && queue == old(queue) + [Queued(Stack(ConnectionStateChanged(CONNECTION_STATE_DISCONNECTED, old(target).value)), 0)]
        && state == old(state) && current == old(current) && target == old(target) && incoming == old(incoming)
        && playing == old(playing) && focus == old(focus) && configs == old(configs)
        && deferred == old(deferred) && effects == old(effects)
      case Disconnect(device) => PendingDisconnectPost(device)
      case Stack(ConnectionStateChanged(connState, device)) => PendingConnectionEventPost(connState, device, env)
      case Stack(AudioConfigChanged(config, device)) => AudioConfigPost(config, device)
      case Stack(AudioStateChanged(_, _)) => unchanged(this)
      case RequestAudioFocus(_) => false
    }

    /**
     * `Pending.processMessage`: CONNECT waits for the next state; a timeout
     * reports the target as disconnected (and fails on a missing target);
     * any connection event first cancels the timeout; REQUEST_AUDIO_FOCUS is
     * not handled.
     */
    method PendingProcessMessage(msg: Message, env: Environment) returns (outcome: Outcome)
      requires state == Pending
      modifies this
      ensures outcome == NotHandled <==> msg.RequestAudioFocus?
      ensures outcome == NullPointer <==> msg.ConnectTimeout? && old(target).None?
      ensures outcome != Handled ==> unchanged(this)
      ensures outcome == Handled ==> PendingHandles(msg, env)
      ensures msg.Stack? && msg.event.ConnectionStateChanged? && RequestsOnly(old(deferred)) ==>
        NoneWith(queue, CONNECT_TIMEOUT)
      ensures old(RolesConsistent()) && !old(BreaksRoles(msg)) ==> RolesConsistent()
      ensures old(BreaksRoles(msg)) ==> state == Disconnected && current == old(current) && current.Some?
      ensures RequestsOnly(old(deferred)) ==> RequestsOnly(deferred)
    {
      outcome := Handled;
      match msg
      case Connect(_) =>
        deferred := deferred + [msg];
      case ConnectTimeout =>
        if target.None? {
          return NullPointer;
        }
        queue := queue + [Queued(Stack(ConnectionStateChanged(CONNECTION_STATE_DISCONNECTED, target.value)), 0)];
      case Disconnect(device) =>
        PendingDisconnect(device);
      case Stack(event) =>
        match event {
        case ConnectionStateChanged(connState, device) =>
          PendingConnectionEvent(connState, device, env);
        case AudioConfigChanged(config, device) =>
          ProcessAudioConfigEvent(config, device);
        case AudioStateChanged(_, _) =>
        }
      case RequestAudioFocus(_) =>
        outcome := NotHandled;
    }

    // ---------------------------------------------------------------- Connected

    /**
     * CONNECT while Connected: the current device is a no-op; another device
     * becomes the target (Pending) once the current one is being disconnected.
     */
    twostate predicate ConnectedConnectPost(device: Device, env: Environment)
      requires old(current).Some?
      reads this
    {
      && current == old(current) && incoming == old(incoming) && playing == old(playing)
      && focus == old(focus) && configs == old(configs)
      && (old(current) == Some(device) ==>
        && state == old(state) && target == old(target) && queue == old(queue)
        && deferred == old(deferred) && effects == old(effects))
      && (old(current) != Some(device) && env.disconnectOk ==>
        && state == Pending && target == Some(device)
        && queue == Immediate(old(deferred)) + Without(old(queue), REQUEST_AUDIO_FOCUS) && deferred == []
        && effects == old(effects) + [ConnectionStateBroadcast(device, StateConnecting, StateDisconnected),
                                      DisconnectNative(old(current).value)])
      && (old(current) != Some(device) && !env.disconnectOk ==>
        && state == old(state) && target == old(target) && queue == old(queue) && deferred == old(deferred)
        && effects == old(effects) + [ConnectionStateBroadcast(device, StateConnecting, StateDisconnected),
                                      DisconnectNative(old(current).value),
                                      ConnectionStateBroadcast(device, StateDisconnected, StateConnecting)])
    }

    /** CONNECT while Connected. */
    method ConnectedConnect(device: Device, env: Environment)
      requires current.Some?
      modifies this`state, this`target, this`queue, this`deferred, this`effects
      ensures ConnectedConnectPost(device, env)
    {
      if current == Some(device) {
        return;
      }
      effects := effects + [ConnectionStateBroadcast(device, StateConnecting, StateDisconnected),
                            DisconnectNative(current.value)];
      if !env.disconnectOk {
        effects := effects + [ConnectionStateBroadcast(device, StateDisconnected, StateConnecting)];
        return;
      }
      target := Some(device);
      TransitionTo(Pending);
    }

    /**
     * DISCONNECT while Connected: only the current device is disconnected; on
     * success held focus is released and abandoned, the playing device is
     * cleared and the machine goes Pending.
     */
    twostate predicate ConnectedDisconnectPost(device: Device, env: Environment)
      reads this
    {
      && current == old(current) && target == old(target) && incoming == old(incoming) && configs == old(configs)
      && (old(current) != Some(device) ==>
        && state == old(state) && playing == old(playing) && focus == old(focus)
        && queue == old(queue) && deferred == old(deferred) && effects == old(effects))
      && (old(current) == Some(device) && !env.disconnectOk ==>
        && state == old(state) && playing == old(playing) && focus == old(focus)
        && queue == old(queue) && deferred == old(deferred)
        && effects == old(effects) + [ConnectionStateBroadcast(device, StateDisconnecting, StateConnected),
                                      DisconnectNative(device),
                                      ConnectionStateBroadcast(device, StateConnected, StateDisconnected)])
      && (old(current) == Some(device) && env.disconnectOk ==>
        && state == Pending && playing.None?
        && focus == (if old(focus) != Loss && env.focusGranted then Loss else old(focus))
        && queue == Immediate(old(deferred)) + Without(old(queue), REQUEST_AUDIO_FOCUS) && deferred == []
        && effects == old(effects) + [ConnectionStateBroadcast(device, StateDisconnecting, StateConnected),
                                      DisconnectNative(device)]
                      + (if old(focus) != Loss then [InformFocusState(STATE_FOCUS_LOST), AbandonFocus] else []))
    }

    /** DISCONNECT while Connected. */
    method ConnectedDisconnect(device: Device, env: Environment)
      requires current.Some?
      modifies this`state, this`playing, this`focus, this`queue, this`deferred, this`effects
      ensures ConnectedDisconnectPost(device, env)
    {
      if current != Some(device) {
        return;
      }
      effects := effects + [ConnectionStateBroadcast(device, StateDisconnecting, StateConnected), DisconnectNative(device)];
      if !env.disconnectOk {
        effects := effects + [ConnectionStateBroadcast(device, StateConnected, StateDisconnected)];
        return;
      }
      if focus != Loss {
        ReleasePatch();
        AbandonAudioFocus(env.focusGranted);
      }
      playing := None;
      TransitionTo(Pending);
    }

    /**
     * A connection event while Connected: only DISCONNECTED matters. The
     * device's configuration and playing status go; if it was current the
     * machine goes to Disconnected, releasing and abandoning focus.
     */
    twostate predicate ConnectedConnectionEventPost(connState: int, device: Device, env: Environment)
      reads this
    {
      && target == old(target) && incoming == old(incoming)
      && (connState != CONNECTION_STATE_DISCONNECTED ==>
        && state == old(state) && current == old(current) && playing == old(playing) && focus == old(focus)
        && configs == old(configs) && queue == old(queue) && deferred == old(deferred) && effects == old(effects))
      && (connState == CONNECTION_STATE_DISCONNECTED ==>
        && configs == old(configs) - {device}
        && playing == (if old(playing) == Some(device) then None else old(playing)))
      && (connState == CONNECTION_STATE_DISCONNECTED && old(current) == Some(device) ==>
        && state == Disconnected && current.None?
        && focus == (if env.focusGranted then Loss else old(focus))
        && queue == Immediate(old(deferred)) + Without(old(queue), REQUEST_AUDIO_FOCUS) && deferred == []
        && effects == old(effects) + [ConnectionStateBroadcast(device, StateDisconnected, StateConnected),
                                      InformFocusState(STATE_FOCUS_LOST), AbandonFocus])
      && (connState == CONNECTION_STATE_DISCONNECTED && old(current) != Some(device) ==>
        && state == old(state) && current == old(current) && focus == old(focus)
        && queue == old(queue) && deferred == old(deferred) && effects == old(effects))
    }

    /** A connection event while Connected. */
    method ConnectedConnectionEvent(connState: int, device: Device, env: Environment)
      requires current.Some?
      modifies this`state, this`current, this`playing, this`focus, this`configs
      modifies this`queue, this`deferred, this`effects
      ensures ConnectedConnectionEventPost(connState, device, env)
    {
      if connState != CONNECTION_STATE_DISCONNECTED {
        return;
      }
      configs := configs - {device};
      if playing == Some(device) {
        playing := None;
      }
      if current == Some(device) {
        CurrentDisconnected(env);
      }
    }

    /** The current device is gone: announce it, go to Disconnected, release and abandon focus. */
    method CurrentDisconnected(env: Environment)
      requires current.Some?
      modifies this`state, this`current, this`focus, this`queue, this`deferred, this`effects
      ensures state == Disconnected && current.None?
      ensures focus == (if env.focusGranted then Loss else old(focus))
      ensures queue == Immediate(old(deferred)) + Without(old(queue), REQUEST_AUDIO_FOCUS) && deferred == []
      ensures effects == old(effects) + [ConnectionStateBroadcast(old(current).value, StateDisconnected, StateConnected),
                                         InformFocusState(STATE_FOCUS_LOST), AbandonFocus]
    {
      effects := effects + [ConnectionStateBroadcast(current.value, StateDisconnected, StateConnected)];
      current := None;
      ReleasePatch();
      AbandonAudioFocus(env.focusGranted);
      TransitionTo(Disconnected);
    }

    /**
     * An audio state event for the current device: STARTED makes it playing
     * when nothing is; STOPPED and REMOTE_SUSPEND clear the playing device,
     * release focus and announce "not playing", then abandon focus unless it
     * is already lost, or only transiently lost and the remote suspended.
     * Events for other devices are ignored.
     */
    twostate predicate ConnectedAudioStateEventPost(audioState: int, device: Device, env: Environment)
      reads this
    {
      && state == old(state) && current == old(current) && target == old(target) && incoming == old(incoming)
      && configs == old(configs) && queue == old(queue) && deferred == old(deferred)
      && (old(current) != Some(device) ==>
        playing == old(playing) && focus == old(focus) && effects == old(effects))
      && (old(current) == Some(device) && audioState == AUDIO_STATE_STARTED ==>
        && playing == (if old(playing).None? then Some(device) else old(playing))
        && focus == old(focus) && effects == old(effects))
      && (old(current) == Some(device) && (audioState == AUDIO_STATE_STOPPED || audioState == AUDIO_STATE_REMOTE_SUSPEND) ==>
        && playing.None?
        && var abandon := old(focus) != Loss && !(old(focus) == LossTransient && audioState == AUDIO_STATE_REMOTE_SUSPEND);
        && focus == (if abandon && env.focusGranted then Loss else old(focus))
        && effects == old(effects) + [InformFocusState(STATE_FOCUS_LOST),
                                      PlayingStateBroadcast(Some(device), NotPlaying, Playing)]
                      + (if abandon then [AbandonFocus] else []))
      && (audioState !in {AUDIO_STATE_STARTED, AUDIO_STATE_STOPPED, AUDIO_STATE_REMOTE_SUSPEND} ==>
        playing == old(playing) && focus == old(focus) && effects == old(effects))
    }

    /** An audio state event while Connected. */
    method ConnectedAudioStateEvent(audioState: int, device: Device, env: Environment)
      requires current.Some?
      modifies this`playing, this`focus, this`effects
      ensures ConnectedAudioStateEventPost(audioState, device, env)
    {
      if current != Some(device) {
        return;
      }
      if audioState == AUDIO_STATE_STARTED {
        if playing.None? {
          playing := Some(device);
        }
      } else if audioState == AUDIO_STATE_STOPPED || audioState == AUDIO_STATE_REMOTE_SUSPEND {
        playing := None;
        ReleasePatch();
        effects := effects + [PlayingStateBroadcast(Some(device), NotPlaying, Playing)];
        if focus == Loss {
          return;
        }
        if focus == LossTransient && audioState == AUDIO_STATE_REMOTE_SUSPEND {
          return;
        }
        AbandonAudioFocus(env.focusGranted);
      }
    }

    /**
     * `processAudioFocusRequestEvent` for the current device: while focus is
     * transiently lost the remote is paused instead; with focus already held
     * the ports are patched again without asking; otherwise focus is
     * requested, and on refusal the request is posted again after 500 ms.
     */
    twostate predicate ConnectedAudioFocusRequestPost(device: Device, env: Environment)
      reads this
    {
      && state == old(state) && current == old(current) && target == old(target) && incoming == old(incoming)
      && playing == old(playing) && configs == old(configs) && deferred == old(deferred)
      && (old(current) != Some(device) ==>
        focus == old(focus) && queue == old(queue) && effects == old(effects))
      && (old(current) == Some(device) && old(focus) == LossTransient ==>
        && focus == old(focus) && queue == old(queue)
        && effects == old(effects) + PassThru(device, AVRC_ID_PAUSE, env.avrcpConnected)
                      + [InformFocusState(STATE_FOCUS_LOST)])
      && (old(current) == Some(device) && old(focus) == Gain ==>
        && focus == old(focus) && queue == old(queue)
        && effects == old(effects) + [PlayingStateBroadcast(playing, Playing, NotPlaying),
                                      InformFocusState(STATE_FOCUS_GRANTED)])
      && (old(current) == Some(device) && old(focus) in {Loss, LossCanDuck} && env.focusGranted ==>
        && focus == Gain && queue == old(queue)
        && effects == old(effects) + [RequestFocus, PlayingStateBroadcast(playing, Playing, NotPlaying),
                                      InformFocusState(STATE_FOCUS_GRANTED)])
      && (old(current) == Some(device) && old(focus) in {Loss, LossCanDuck} && !env.focusGranted ==>
        && focus == old(focus)
        && queue == old(queue) + [Queued(RequestAudioFocus(device), AUDIO_FOCUS_REQUEST_MESSAGE_DELAYED)]
        && effects == old(effects) + [RequestFocus])
    }

    /** REQUEST_AUDIO_FOCUS while Connected. */
    method ConnectedAudioFocusRequest(device: Device, env: Environment)
      modifies this`focus, this`queue, this`effects
      ensures ConnectedAudioFocusRequestPost(device, env)
    {
      if current != Some(device) {
        return;
      }
      if focus == LossTransient {
        effects := effects + PassThru(device, AVRC_ID_PAUSE, env.avrcpConnected);
        effects := effects + [InformFocusState(STATE_FOCUS_LOST)];
        return;
      } else if focus == Gain {
        PatchPorts();
        return;
      }
      effects := effects + [RequestFocus];
      if env.focusGranted {
        focus := Gain;
        PatchPorts();
      } else {
        queue := queue + [Queued(RequestAudioFocus(device), AUDIO_FOCUS_REQUEST_MESSAGE_DELAYED)];
      }
    }

    /** What `Connected.processMessage` does with each message it handles, given a current device. */
    twostate predicate ConnectedHandles(msg: Message, env: Environment)
      reads this
    {
      && old(current).Some?
      && match msg
         case Connect(device) => ConnectedConnectPost(device, env)
         case Disconnect(device) => ConnectedDisconnectPost(device, env)
         case RequestAudioFocus(device) => ConnectedAudioFocusRequestPost(device, env)
         case Stack(ConnectionStateChanged(connState, device)) => ConnectedConnectionEventPost(connState, device, env)
         case Stack(AudioStateChanged(audioState, device)) => ConnectedAudioStateEventPost(audioState, device, env)
         case Stack(AudioConfigChanged(config, device)) => AudioConfigPost(config, device)
         case ConnectTimeout => false
    }

    /**
     * `Connected.processMessage`: nothing is handled without a current device;
     * CONNECT_TIMEOUT is not handled.
     */
    method ConnectedProcessMessage(msg: Message, env: Environment) returns (outcome: Outcome)
      requires state == Connected
      modifies this
      ensures outcome != NullPointer
      ensures outcome == NotHandled <==> old(current).None? || msg.ConnectTimeout?
      ensures outcome == NotHandled ==> unchanged(this)
      ensures outcome == Handled ==> ConnectedHandles(msg, env)
      ensures old(RolesConsistent()) ==> RolesConsistent()
      ensures RequestsOnly(old(deferred)) ==> RequestsOnly(deferred)
    {
      if current.None? {
        return NotHandled;
      }
      outcome := Handled;
      match msg
      case Connect(device) =>
        ConnectedConnect(device, env);
      case Disconnect(device) =>
        ConnectedDisconnect(device, env);
      case RequestAudioFocus(device) =>
        ConnectedAudioFocusRequest(device, env);
      case Stack(event) =>
        match event {
        case ConnectionStateChanged(connState, device) =>
          ConnectedConnectionEvent(connState, device, env);
        case AudioStateChanged(audioState, device) =>
          ConnectedAudioStateEvent(audioState, device, env);
        case AudioConfigChanged(config, device) =>
          ProcessAudioConfigEvent(config, device);
        }
      case ConnectTimeout =>
        outcome := NotHandled;
    }

    /** What the machine does with a message its current state handles. */
    twostate predicate Handles(msg: Message, env: Environment)
      reads this
    {
      match old(state)
      case Disconnected => DisconnectedHandles(msg, env)
      case Pending => PendingHandles(msg, env)
      case Connected => ConnectedHandles(msg, env)
    }

    /**
     * One message, handled by the current state. Nothing changes when it is
     * not handled or raises; the slots stay consistent except on the one
     * message `BreaksRoles` names, after which the machine sits in
     * Disconnected with a current device.
     */
    method ProcessMessage(msg: Message, env: Environment) returns (outcome: Outcome)
      modifies this
      ensures outcome != Handled ==> unchanged(this)
      ensures outcome == Handled ==> Handles(msg, env)
      ensures outcome == NotHandled <==> old(Refuses(msg))
      ensures outcome == NullPointer <==> old(state) == Pending && msg.ConnectTimeout? && old(target).None?
      ensures old(RolesConsistent()) && !old(BreaksRoles(msg)) ==> RolesConsistent()
      ensures old(BreaksRoles(msg)) ==> state == Disconnected && current == old(current) && current.Some?
      ensures RequestsOnly(old(deferred)) ==> RequestsOnly(deferred)
    {
      match state
      case Disconnected =>
        outcome := DisconnectedProcessMessage(msg, env);
      case Pending =>
        outcome := PendingProcessMessage(msg, env);
      case Connected =>
        outcome := ConnectedProcessMessage(msg, env);
    }

    // ---------------------------------------------------------------- callbacks

    /**
     * The audio-focus listener. A permanent loss pauses (or, without AVRCP,
     * disconnects) the current device and abandons focus; a transient loss
     * while Connected pauses without abandoning; ducking is only recorded; a
     * gain while Connected resumes play unless it ends a ducking episode.
     */
    method OnAudioFocusChange(change: FocusChange, env: Environment)
      modifies this`focus, this`effects
      ensures change == ChangeLoss && current.Some? ==>
        && focus == (if env.focusGranted then Loss else old(focus))
        && effects == old(effects)
                      + (if env.avrcpConnected then PassThru(current.value, AVRC_ID_PAUSE, true)
                         else [DisconnectNative(current.value)])
                      + [InformFocusState(STATE_FOCUS_LOST), AbandonFocus]
      ensures change == ChangeLossTransient && current.Some? && state == Connected ==>
        && focus == LossTransient
        && effects == old(effects)
                      + (if env.avrcpConnected then PassThru(current.value, AVRC_ID_PAUSE, true)
                         else [DisconnectNative(current.value)])
                      + [InformFocusState(STATE_FOCUS_LOST)]
      ensures change == ChangeLossTransientCanDuck ==> focus == LossCanDuck && effects == old(effects)
      ensures change == ChangeGain && current.Some? && state == Connected ==>
        && focus == Gain
        && effects == old(effects)
                      + (if old(focus) == LossCanDuck then []
                         else PassThru(current.value, AVRC_ID_PLAY, env.avrcpConnected)
                              + [InformFocusState(STATE_FOCUS_GRANTED)])
      ensures || change == ChangeOther
              || (change in {ChangeLoss, ChangeLossTransient, ChangeGain} && current.None?)
              || (change in {ChangeLossTransient, ChangeGain} && state != Connected) ==>
        focus == old(focus) && effects == old(effects)
    {
      match change
      case ChangeLoss =>
        if current.Some? {
          if env.avrcpConnected {
            effects := effects + PassThru(current.value, AVRC_ID_PAUSE, true);
          } else {
            effects := effects + [DisconnectNative(current.value)];
          }
          effects := effects + [InformFocusState(STATE_FOCUS_LOST)];
          AbandonAudioFocus(env.focusGranted);
        }
      case ChangeLossTransient =>
        if current.Some? && state == Connected {
          focus := LossTransient;
          if env.avrcpConnected {
            effects := effects + PassThru(current.value, AVRC_ID_PAUSE, true);
          } else {
            effects := effects + [DisconnectNative(current.value)];
          }
          effects := effects + [InformFocusState(STATE_FOCUS_LOST)];
        }
      case ChangeLossTransientCanDuck =>
        focus := LossCanDuck;
      case ChangeGain =>
        if current.Some? && state == Connected {
          if focus == LossCanDuck {
            focus := Gain;
          } else {
            focus := Gain;
            effects := effects + PassThru(current.value, AVRC_ID_PLAY, env.avrcpConnected);
            effects := effects + [InformFocusState(STATE_FOCUS_GRANTED)];
          }
        }
      case ChangeOther =>
    }

    /**
     * AVRCP reports the playing device is playing: pause it if focus is
     * transiently lost, tell the stack focus is ready if focus is lost.
     */
    method InformAvrcpStatePlaying(device: Device, env: Environment)
      modifies this`effects
      ensures playing != Some(device) ==> effects == old(effects)
      ensures playing == Some(device) ==>
        effects == old(effects)
                   + (if focus == LossTransient then PassThru(device, AVRC_ID_PAUSE, env.avrcpConnected) else [])
                   + (if focus == Loss then [InformFocusState(STATE_FOCUS_READY)] else [])
    {
      if playing == Some(device) {
        if focus == LossTransient {
          effects := effects + PassThru(device, AVRC_ID_PAUSE, env.avrcpConnected);
        }
        if focus == Loss {
          effects := effects + [InformFocusState(STATE_FOCUS_READY)];
        }
      }
    }

    /** The stack asks for focus: a focus request is posted only for the playing device. */
    method OnAudioFocusRequested(device: Device)
      modifies this`queue
      ensures queue == old(queue) + (if playing == Some(device) then [Queued(RequestAudioFocus(device), 0)] else [])
    {
      if playing == Some(device) {
        queue := queue + [Queued(RequestAudioFocus(device), 0)];
      }
    }

    /** The stack reports a connection state: posted as a stack event. */
    method OnConnectionStateChanged(connState: int, device: Device)
      modifies this`queue
      ensures queue == old(queue) + [Queued(Stack(ConnectionStateChanged(connState, device)), 0)]
    {
      queue := queue + [Queued(Stack(ConnectionStateChanged(connState, device)), 0)];
    }

    /** The stack reports an audio state: posted as a stack event. */
    method OnAudioStateChanged(audioState: int, device: Device)
      modifies this`queue
      ensures queue == old(queue) + [Queued(Stack(AudioStateChanged(audioState, device)), 0)]
    {
      queue := queue + [Queued(Stack(AudioStateChanged(audioState, device)), 0)];
    }

    /** The stack reports an audio configuration: posted as a stack event, mono exactly for one channel. */
    method OnAudioConfigChanged(device: Device, sampleRate: int, channelCount: int)
      modifies this`queue
      ensures |queue| == |old(queue)| + 1 && queue[..|old(queue)|] == old(queue)
      ensures queue[|old(queue)|].delayMs == 0
      ensures queue[|old(queue)|].msg == Stack(AudioConfigChanged(ConfigFromStack(sampleRate, channelCount), device))
      ensures var c := queue[|old(queue)|].msg.event.config;
        (c.channelConfig == ChannelInMono <==> channelCount == 1) && c.sampleRate == sampleRate
    {
      var config := ConfigFromStack(sampleRate, channelCount);
      queue := queue + [Queued(Stack(AudioConfigChanged(config, device)), 0)];
    }
  }

  /**
   * From a fresh machine: a device connects, a second one is requested (the
   * first is being disconnected), then the stack reports the second one
   * disconnected. The machine is left in Disconnected still holding the
   * first device, and refuses the next CONNECT.
   */
  method TargetDropStrandsMachine(a: Device, b: Device, c: Device) returns (outcome: Outcome)
    requires a != b
    ensures outcome == NotHandled
  {
    var m := new A2dpSinkStateMachine();
    var env := Environment(true, true, true, true, Some(AdapterState(false, 1, true)));
    outcome := m.ProcessMessage(Stack(ConnectionStateChanged(CONNECTION_STATE_CONNECTED, a)), env);
    assert m.state == Connected && m.current == Some(a);
    outcome := m.ProcessMessage(Connect(b), env);
    assert m.state == Pending && m.current == Some(a) && m.target == Some(b);
    outcome := m.ProcessMessage(Stack(ConnectionStateChanged(CONNECTION_STATE_DISCONNECTED, b)), env);
    outcome := m.ProcessMessage(Connect(c), env);
  }
}

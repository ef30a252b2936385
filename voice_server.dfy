/**
 * The configuration and UDP lifecycle rules of the voice server
 * (`BaseVoiceServer`): loading the configuration, choosing the forwarding
 * secret and the AES key, starting and stopping the UDP server, and the
 * Opus frame size. File and environment reads, the random UUID, the game
 * server's port and whether the socket binds are inputs; the UDP server is
 * an abstract handle recording the address it was started on.
 */
module VoiceServer {
  import opened Wrappers
  import opened Wire
  import opened PacketUtil

  /** The `host` section: where the UDP server binds, and the proxy forwarding secret. */
  datatype HostConfig = HostConfig(ip: string, port: int32, forwardingSecret: Option<Uuid>)

  /** The `voice` section: codec settings and the AES key, which the server fills in itself. */
  datatype VoiceConfig = VoiceConfig(
    sampleRate: int32,
    mtuSize: int32,
    opusMode: string,
    opusBitrate: int32,
    aesEncryptionKey: Option<seq<uint8>>)

  datatype ServerConfig = ServerConfig(host: HostConfig, voice: VoiceConfig, debug: bool)

  /** A UDP server bound to an address. */
  datatype UdpServer = UdpServer(ip: string, port: int32)

  /** A player connected over UDP. */
  datatype Player = Player(id: Uuid)

  const AES_CBC: string := "AES/CBC/PKCS5Padding"

  /** The default encryption: an algorithm name and its key. */
  datatype Encryption = Encryption(algorithm: string, key: seq<uint8>)

  /** What `UUID.fromString` made of a text. */
  datatype UuidText = Malformed | WellFormed(uuid: Uuid)

  /**
   * How `loadConfig` fails: an `IOException` from loading the config, saving it
   * or reading the forwarding-secret file, all wrapped in one
   * `IllegalStateException`; or the `IllegalArgumentException` of a forwarding
   * secret that is not a UUID.
   */
  datatype LoadError = ConfigIoFailed | MalformedSecret

  /**
   * Everything `loadConfig` reads from outside: the loaded configuration (None when
   * loading throws), whether saving it back succeeded, the environment variable
   * PLASMO_VOICE_FORWARDING_SECRET (None when unset), the forwarding-secret file
   * (None when it does not exist, a Failure when reading it throws), a fresh random
   * UUID, whether the system property `plasmovoice.debug` is set, the UDP
   * connections open at that moment, the game server's port, and whether the new
   * UDP server binds.
   */
  datatype LoadInputs = LoadInputs(
    loaded: Option<ServerConfig>,
    saved: bool,
    envSecret: Option<UuidText>,
    secretFile: Option<Result<UuidText, LoadError>>,
    randomKey: Uuid,
    debugProperty: bool,
    connections: seq<Player>,
    gamePort: int32,
    startOk: bool)

  /**
   * The fields of the server that the rules update: the configuration, the
   * running UDP server, the default encryption and the debug switch, plus logs
   * of the servers stopped and of the players asked for their info.
   */
  datatype ServerState = ServerState(
    config: Option<ServerConfig>,
    udpServer: Option<UdpServer>,
    defaultEncryption: Option<Encryption>,
    debugEnabled: bool,
    stoppedServers: seq<UdpServer>,
    playerInfoRequests: seq<Player>)

  /** The outcome of `loadConfig`: the new state, and the exception it threw, if any. */
  datatype Loaded = Loaded(state: ServerState, error: Option<LoadError>)

  /** The UDP port: the configured one unless it is 0, then the game port, then 0. */
  function ResolvePort(configured: int32, gamePort: int32): (port: int32)
    ensures configured != 0 ==> port == configured
    ensures configured == 0 && gamePort > 0 ==> port == gamePort
    ensures configured == 0 && gamePort <= 0 ==> port == 0
  {
    if configured != 0 then configured
    else if gamePort <= 0 then 0
    else gamePort
  }

  /** Port 0 (any free port) is chosen exactly when neither port is set. */
  lemma PortZeroOnlyWhenUnset(configured: int32, gamePort: int32)
    requires configured >= 0
    ensures ResolvePort(configured, gamePort) >= 0
    ensures ResolvePort(configured, gamePort) == 0 <==> configured == 0 && gamePort <= 0
  {
  }

  /** Java's `int` division, which truncates toward zero. */
  function JavaDiv(a: int, b: int): (q: int)
    requires b > 0
    ensures a >= 0 ==> 0 <= a - q * b < b
    ensures a < 0 ==> -b < a - q * b <= 0
  {
    if a >= 0 then a / b else -((-a) / b)
  }

  /** The Opus frame size: 20 ms of audio, in samples, at the configured rate. */
  function FrameSize(sampleRate: int32): (n: int32)
    ensures n % 20 == 0
    ensures sampleRate >= 0 ==> 0 <= n && n * 50 <= sampleRate < (n + 20) * 50
    ensures sampleRate < 0 ==> n <= 0 && -n * 50 <= -(sampleRate as int) < (-n + 20) * 50
  {
    JavaDiv(sampleRate, 1000) * 20
  }

  lemma FrameSizeOf48k()
    ensures FrameSize(48000) == 960 && FrameSize(8000) == 160 && FrameSize(999) == 0
  {
  }

  /**
   * The forwarding secret: the environment variable wins, then the file, and
   * without either the configured secret stays. A text that is not a UUID, or a
   * file that cannot be read, fails the load.
   */
  function ChooseSecret(current: Option<Uuid>, env: Option<UuidText>,
                        file: Option<Result<UuidText, LoadError>>): (r: Result<Option<Uuid>, LoadError>)
    ensures env == Some(Malformed) <==> r == Failure(MalformedSecret) && env.Some?
    ensures env.Some? && env.value.WellFormed? ==> r == Success(Some(env.value.uuid))
    ensures env.None? && file.None? ==> r == Success(current)
    ensures env.None? && file.Some? && file.value.Success? && file.value.value.WellFormed? ==>
      r == Success(Some(file.value.value.uuid))
    ensures env.None? && file.Some? && file.value.Success? && file.value.value.Malformed? ==>
      r == Failure(MalformedSecret)
    ensures env.None? && file.Some? && file.value.Failure? ==> r == Failure(ConfigIoFailed)
    ensures r.Success? && r.value != current ==> r.value.Some?
  {
    match env
    case Some(Malformed) => Failure(MalformedSecret)
    case Some(WellFormed(u)) => Success(Some(u))
    case None =>
      match file
      case None => Success(current)
      case Some(Failure(_)) => Failure(ConfigIoFailed)
      case Some(Success(Malformed)) => Failure(MalformedSecret)
      case Some(Success(WellFormed(u))) => Success(Some(u))
  }

  /**
   * The AES key: the previous configuration's key when it had one, otherwise
   * a random UUID written as two big-endian longs.
   */
  function AesKey(oldConfig: Option<ServerConfig>, random: Uuid): (r: seq<uint8>)
  {
    if oldConfig.Some? && oldConfig.value.voice.aesEncryptionKey.Some?
    then oldConfig.value.voice.aesEncryptionKey.value
    else UuidBytes(random)
  }

  /** A fresh key is 16 bytes from which the random UUID reads back. */
  lemma FreshKeyIsUuid(oldConfig: Option<ServerConfig>, random: Uuid)
    requires oldConfig.None? || oldConfig.value.voice.aesEncryptionKey.None?
    ensures |AesKey(oldConfig, random)| == 16
    ensures DecodeUuid(AesKey(oldConfig, random), 0) == Success(Decoded(random, 16))
  {
    UuidRoundTrip([], random, []);
    assert [] + UuidBytes(random) + [] == UuidBytes(random);
  }

  /** `updateAesEncryptionKey`: store the key in the configuration and build the cipher from it. */
  function UpdateKey(s: ServerState, key: seq<uint8>): (r: ServerState)
    requires s.config.Some?
    ensures r.config.Some? && r.config.value.voice.aesEncryptionKey == Some(key)
    ensures r.config.value.(voice := s.config.value.voice) == s.config.value
    ensures r.config.value.voice.(aesEncryptionKey := s.config.value.voice.aesEncryptionKey) == s.config.value.voice
    ensures r.defaultEncryption == Some(Encryption(AES_CBC, key))
    ensures r.(config := s.config, defaultEncryption := s.defaultEncryption) == s
  {
    var c := s.config.value;
    s.(config := Some(c.(voice := c.voice.(aesEncryptionKey := Some(key)))),
       defaultEncryption := Some(Encryption(AES_CBC, key)))
  }

  /** `stopUdpServer`: stop the running server, if any; afterwards none runs. */
  function Stop(s: ServerState): (r: ServerState)
    ensures r.udpServer.None?
    ensures s.udpServer.None? ==> r == s
    ensures s.udpServer.Some? ==> r.stoppedServers == s.stoppedServers + [s.udpServer.value]
    ensures r.(udpServer := s.udpServer, stoppedServers := s.stoppedServers) == s
  {
    if s.udpServer.None? then s
    else s.(stoppedServers := s.stoppedServers + [s.udpServer.value], udpServer := None)
  }

  lemma StopIdempotent(s: ServerState)
    ensures Stop(Stop(s)) == Stop(s)
  {
  }

  /**
   * `startUdpServer`: stop the running server, remembering who was connected to
   * it; bind a new one; once it is up, ask each remembered player for its info.
   * A server that fails to bind leaves none running.
   */
  function Start(s: ServerState, connections: seq<Player>, gamePort: int32, startOk: bool): (r: ServerState)
    requires s.config.Some?
    ensures s.udpServer.Some? ==> r.stoppedServers == s.stoppedServers + [s.udpServer.value]
    ensures s.udpServer.None? ==> r.stoppedServers == s.stoppedServers
    ensures !startOk ==> r.udpServer.None? && r.playerInfoRequests == s.playerInfoRequests
    ensures startOk ==> r.udpServer == Some(UdpServer(s.config.value.host.ip,
                                                      ResolvePort(s.config.value.host.port, gamePort)))
    ensures startOk && s.udpServer.Some? ==> r.playerInfoRequests == s.playerInfoRequests + connections
    ensures s.udpServer.None? ==> r.playerInfoRequests == s.playerInfoRequests
    ensures r.config == s.config && r.defaultEncryption == s.defaultEncryption
    ensures r.debugEnabled == s.debugEnabled
  {
    var s1 := Stop(s);
    if !startOk then s1
    else
      var host := s.config.value.host;
      s1.(udpServer := Some(UdpServer(host.ip, ResolvePort(host.port, gamePort))),
          playerInfoRequests := s1.playerInfoRequests + (if s.udpServer.Some? then connections else []))
  }

  /** Whether a load restarts the UDP server: always the first time, then when the host section changed. */
  predicate RestartsUdp(oldConfig: Option<ServerConfig>, loaded: ServerConfig)
  {
    oldConfig.None? || loaded.host != oldConfig.value.host
  }

  /** `loadConfig`. */
  function Reload(s: ServerState, io: LoadInputs): (r: Loaded)
    ensures r.error.Some? ==> r.state.(config := s.config) == s
    ensures r.error.Some? && io.loaded.None? ==> r.state == s
    ensures r.error.Some? && io.loaded.Some? ==> r.state.config == io.loaded
    ensures r.error.None? <==>
      io.loaded.Some? && io.saved && ChooseSecret(io.loaded.value.host.forwardingSecret, io.envSecret, io.secretFile).Success?
    ensures r.error.None? ==> r.state.config.Some? && r.state.debugEnabled == (r.state.config.value.debug || io.debugProperty)
  {
    if io.loaded.None? then Loaded(s, Some(ConfigIoFailed))
    else
      var loaded := io.loaded.value;
      var s1 := s.(config := Some(loaded));
      if !io.saved then Loaded(s1, Some(ConfigIoFailed))
      else
        match ChooseSecret(loaded.host.forwardingSecret, io.envSecret, io.secretFile)
        case Failure(e) => Loaded(s1, Some(e))
        case Success(secret) =>
          var withSecret := loaded.(host := loaded.host.(forwardingSecret := secret));
          var s2 := UpdateKey(s.(config := Some(withSecret)), AesKey(s.config, io.randomKey));
          var s3 := s2.(debugEnabled := withSecret.debug || io.debugProperty);
          if RestartsUdp(s.config, loaded) then Loaded(Start(s3, io.connections, io.gamePort, io.startOk), None)
          else Loaded(s3, None)
  }

  /** A failed load neither touches the UDP server nor the encryption. */
  lemma FailedLoadKeepsServer(s: ServerState, io: LoadInputs)
    requires Reload(s, io).error.Some?
    ensures var r := Reload(s, io).state;
      r.udpServer == s.udpServer && r.defaultEncryption == s.defaultEncryption &&
      r.stoppedServers == s.stoppedServers && r.playerInfoRequests == s.playerInfoRequests
  {
  }

  /**
   * A successful load restarts the UDP server exactly when it is the first load or
   * the host section changed; otherwise the running server is left alone.
   */
  lemma RestartRule(s: ServerState, io: LoadInputs)
    requires Reload(s, io).error.None?
    ensures var r := Reload(s, io).state;
      var host := io.loaded.value.host;
      && (s.config.None? || host != s.config.value.host ==>
            && r.stoppedServers == s.stoppedServers + (if s.udpServer.Some? then [s.udpServer.value] else [])
            && r.udpServer == (if io.startOk then Some(UdpServer(host.ip, ResolvePort(host.port, io.gamePort))) else None))
      && (s.config.Some? && host == s.config.value.host ==>
            && r.udpServer == s.udpServer && r.stoppedServers == s.stoppedServers
            && r.playerInfoRequests == s.playerInfoRequests)
  {
    var loaded := io.loaded.value;
    var secret := ChooseSecret(loaded.host.forwardingSecret, io.envSecret, io.secretFile).value;
    var withSecret := loaded.(host := loaded.host.(forwardingSecret := secret));
    var s3 := UpdateKey(s.(config := Some(withSecret)), AesKey(s.config, io.randomKey))
                .(debugEnabled := withSecret.debug || io.debugProperty);
    assert s3.config.value.host == withSecret.host;
    if RestartsUdp(s.config, loaded) {
      assert Reload(s, io).state == Start(s3, io.connections, io.gamePort, io.startOk);
    }
  }

  /** The first load of the configuration always tries to start the UDP server. */
  lemma FirstLoadStarts(s: ServerState, io: LoadInputs)
    requires s.config.None? && s.udpServer.None?
    requires Reload(s, io).error.None?
    ensures var host := io.loaded.value.host;
      Reload(s, io).state.udpServer == (if io.startOk then Some(UdpServer(host.ip, ResolvePort(host.port, io.gamePort))) else None)
  {
    RestartRule(s, io);
  }

  /**
   * After a successful load the configuration carries the AES key and the default
   * encryption uses it: the old key when there was one, else the random UUID's bytes.
   * The forwarding secret follows the precedence of ChooseSecret.
   */
  lemma LoadedKeyAndSecret(s: ServerState, io: LoadInputs)
    requires Reload(s, io).error.None?
    ensures var r := Reload(s, io).state;
      var key := AesKey(s.config, io.randomKey);
      && r.config.Some?
      && r.config.value.voice.aesEncryptionKey == Some(key)
      && r.defaultEncryption == Some(Encryption(AES_CBC, key))
      && Success(r.config.value.host.forwardingSecret)
         == ChooseSecret(io.loaded.value.host.forwardingSecret, io.envSecret, io.secretFile)
      && r.config.value.voice.(aesEncryptionKey := None) == io.loaded.value.voice.(aesEncryptionKey := None)
  {
    var loaded := io.loaded.value;
    var secret := ChooseSecret(loaded.host.forwardingSecret, io.envSecret, io.secretFile).value;
    var withSecret := loaded.(host := loaded.host.(forwardingSecret := secret));
    var s3 := UpdateKey(s.(config := Some(withSecret)), AesKey(s.config, io.randomKey))
                .(debugEnabled := withSecret.debug || io.debugProperty);
    assert Reload(s, io).state.config == s3.config;
  }

  /** Once a key exists, later loads keep it, whatever random UUID they draw. */
  lemma KeySurvivesReload(s: ServerState, io: LoadInputs, io': LoadInputs)
    requires Reload(s, io).error.None?
    requires Reload(Reload(s, io).state, io').error.None?
    ensures Reload(Reload(s, io).state, io').state.config.value.voice.aesEncryptionKey
         == Reload(s, io).state.config.value.voice.aesEncryptionKey
  {
    LoadedKeyAndSecret(s, io);
    LoadedKeyAndSecret(Reload(s, io).state, io');
  }

  /** `onShutdown` as far as this model goes: stop the UDP server and drop the configuration. */
  function Shutdown(s: ServerState): (r: ServerState)
    ensures r.udpServer.None? && r.config.None?
    ensures r.defaultEncryption == s.defaultEncryption
  {
    Stop(s).(config := None)
  }

  /** The parameters an Opus encoder or decoder is created with. */
  datatype CodecParams = CodecParams(sampleRate: int32, stereo: bool, frameSize: int32, mtuSize: int32)

  /** An encoder also takes the Opus mode name and bitrate. */
  datatype EncoderParams = EncoderParams(mode: string, bitrate: int32, codec: CodecParams)

  /** Creating a codec before the configuration is loaded throws `IllegalStateException`. */
  datatype CodecError = NotInitialized

  class BaseVoiceServer {
    var config: Option<ServerConfig>
    var udpServer: Option<UdpServer>
    var defaultEncryption: Option<Encryption>
    var debugEnabled: bool
    var stoppedServers: seq<UdpServer>
    var playerInfoRequests: seq<Player>

    ghost function State(): ServerState
      reads this
    {
      ServerState(config, udpServer, defaultEncryption, debugEnabled, stoppedServers, playerInfoRequests)
    }

    constructor ()
      ensures State() == ServerState(None, None, None, false, [], [])
    {
      config, udpServer, defaultEncryption, debugEnabled := None, None, None, false;
      stoppedServers, playerInfoRequests := [], [];
    }

    method LoadConfig(io: LoadInputs) returns (error: Option<LoadError>)
      modifies this
      ensures Loaded(State(), error) == Reload(old(State()), io)
    {
      var restartUdpServer := true;
      var oldConfig := config;
      if io.loaded.None? {
        return Some(ConfigIoFailed);
      }
      config := io.loaded;
      if !io.saved {
        return Some(ConfigIoFailed);
      }
      var loaded := io.loaded.value;
      if oldConfig.Some? {
        restartUdpServer := loaded.host != oldConfig.value.host;
      }
      var secret := ChooseSecret(loaded.host.forwardingSecret, io.envSecret, io.secretFile);
      if secret.Failure? {
        return Some(secret.error);
      }
      config := Some(loaded.(host := loaded.host.(forwardingSecret := secret.value)));

      var aesKey := ChooseAesKey(oldConfig, io.randomKey);
      UpdateAesEncryptionKey(aesKey);

      debugEnabled := config.value.debug || io.debugProperty;
      assert restartUdpServer == RestartsUdp(oldConfig, loaded);
      if restartUdpServer {
        StartUdpServer(io.connections, io.gamePort, io.startOk);
      }
      return None;
    }

    /** The AES key step of `loadConfig`. */
    static method ChooseAesKey(oldConfig: Option<ServerConfig>, random: Uuid) returns (aesKey: seq<uint8>)
      ensures aesKey == AesKey(oldConfig, random)
    {
      if oldConfig.Some? && oldConfig.value.voice.aesEncryptionKey.Some? {
        aesKey := oldConfig.value.voice.aesEncryptionKey.value;
      } else {
        var out := new DataOutput();
        out.WriteLong(random.mostSignificantBits);
        out.WriteLong(random.leastSignificantBits);
        aesKey := out.bytes;
      }
    }

    method UpdateAesEncryptionKey(aesKey: seq<uint8>)
      requires config.Some?
      modifies this
      ensures State() == UpdateKey(old(State()), aesKey)
    {
      var c := config.value;
      config := Some(c.(voice := c.voice.(aesEncryptionKey := Some(aesKey))));
      defaultEncryption := Some(Encryption(AES_CBC, aesKey));
    }

    method StartUdpServer(connections: seq<Player>, gamePort: int32, startOk: bool)
      requires config.Some?
      modifies this
      ensures State() == Start(old(State()), connections, gamePort, startOk)
    {
      var connectedPlayers: Option<seq<Player>> := None;
      if udpServer.Some? {
        connectedPlayers := Some(connections);
        StopUdpServer();
      }
      var port := config.value.host.port;
      if port == 0 {
        port := gamePort;
        if port <= 0 {
          port := 0;
        }
      }
      if !startOk {
        return;
      }
      udpServer := Some(UdpServer(config.value.host.ip, port));
      if connectedPlayers.Some? {
        RequestPlayerInfo(connectedPlayers.value);
      }
    }

    /** Ask every player in turn for its info. */
    method RequestPlayerInfo(players: seq<Player>)
      modifies this
      ensures State() == old(State()).(playerInfoRequests := old(playerInfoRequests) + players)
    {
      for i := 0 to |players|
        invariant State() == old(State()).(playerInfoRequests := old(playerInfoRequests) + players[..i])
      {
        playerInfoRequests := playerInfoRequests + [players[i]];
        assert players[..i + 1] == players[..i] + [players[i]];
      }
      assert players[..|players|] == players;
    }

    method StopUdpServer()
      modifies this
      ensures State() == Stop(old(State()))
    {
      if udpServer.Some? {
        stoppedServers := stoppedServers + [udpServer.value];
        udpServer := None;
      }
    }

    method OnShutdown()
      modifies this
      ensures State() == Shutdown(old(State()))
    {
      StopUdpServer();
      config := None;
    }

    method CreateOpusEncoder(stereo: bool) returns (r: Result<EncoderParams, CodecError>)
      ensures config.None? <==> r == Failure(NotInitialized)
      ensures r.Success? ==>
        var v := config.value.voice;
        r.value == EncoderParams(v.opusMode, v.opusBitrate,
                                 CodecParams(v.sampleRate, stereo, FrameSize(v.sampleRate), v.mtuSize))
    {
      if config.None? {
        return Failure(NotInitialized);
      }
      var sampleRate := config.value.voice.sampleRate;
      var frameSize := JavaDiv(sampleRate, 1_000) * 20;
      return Success(EncoderParams(config.value.voice.opusMode, config.value.voice.opusBitrate,
                                   CodecParams(sampleRate, stereo, frameSize, config.value.voice.mtuSize)));
    }

    method CreateOpusDecoder(stereo: bool) returns (r: Result<CodecParams, CodecError>)
      ensures config.None? <==> r == Failure(NotInitialized)
      ensures r.Success? ==>
        r.value == CodecParams(config.value.voice.sampleRate, stereo,
                               FrameSize(config.value.voice.sampleRate), config.value.voice.mtuSize)
    {
      if config.None? {
        return Failure(NotInitialized);
      }
      var sampleRate := config.value.voice.sampleRate;
      return Success(CodecParams(sampleRate, stereo, JavaDiv(sampleRate, 1_000) * 20, config.value.voice.mtuSize));
    }
  }
}

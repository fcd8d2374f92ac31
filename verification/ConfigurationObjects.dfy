/** The objects that hold configurations: the engine's TTSConfiguration and the client that caches. */
module ConfigurationObjects {
  import opened Types
  import opened Configuration
  import opened ConfigurationCache
  import Tokens

  class TTSConfiguration {
    var endPoint: string
    var secureEndPoint: string
    var language: string
    var voice: string
    var volume: int
    var rate: uint8
    var preemptiveSpeaking: bool

    function Contents(): Config
      reads this
    {
      Config(endPoint, secureEndPoint, language, voice, volume, rate)
    }

    constructor ()
      ensures Contents() == Config("", "", "en-US", "", 100_000_000, 50) && preemptiveSpeaking
    {
      endPoint, secureEndPoint, language, voice := "", "", "en-US", "";
      volume, rate, preemptiveSpeaking := 100_000_000, 50, true;
    }

    method SetEndPoint(endpoint: string)
      modifies this`endPoint
      ensures endPoint == SetText(old(endPoint), endpoint)
    {
      if endpoint != "" { endPoint := endpoint; }
    }

    method SetSecureEndPoint(endpoint: string)
      modifies this`secureEndPoint
      ensures secureEndPoint == SetText(old(secureEndPoint), endpoint)
    {
      if endpoint != "" { secureEndPoint := endpoint; }
    }

    method SetLanguage(language: string)
      modifies this`language
      ensures this.language == SetText(old(this.language), language)
    {
      if language != "" { this.language := language; }
    }

    method SetVoice(voice: string)
      modifies this`voice
      ensures this.voice == SetText(old(this.voice), voice)
    {
      if voice != "" { this.voice := voice; }
    }

    method SetVolume(volume: int)
      modifies this`volume
      ensures this.volume == Configuration.SetVolume(old(this.volume), volume)
    {
      if volume >= 1_000_000 && volume <= 100_000_000 { this.volume := volume; }
    }

    method SetRate(rate: uint8)
      modifies this`rate
      ensures this.rate == Configuration.SetRate(old(this.rate), rate)
    {
      if rate >= 1 && rate <= 100 { this.rate := rate; }
    }

    method UpdateWith(nConfig: TTSConfiguration)
      modifies this
      ensures Contents() == Update(old(Contents()), old(nConfig.Contents()))
      ensures preemptiveSpeaking == old(preemptiveSpeaking)
    {
      SetEndPoint(nConfig.endPoint);
      SetSecureEndPoint(nConfig.secureEndPoint);
      SetLanguage(nConfig.language);
      SetVoice(nConfig.voice);
      SetVolume(nConfig.volume);
      SetRate(nConfig.rate);
    }
  }

  /** Reading a configuration text into an object; a number that cannot be read leaves it half updated. */
  method ReadInto(configuration: TTSConfiguration, str: string) returns (outcome: Outcome)
    modifies configuration
    ensures (outcome, configuration.Contents()) == FromString(old(configuration.Contents()), str)
    ensures configuration.preemptiveSpeaking == old(configuration.preemptiveSpeaking)
  {
    var tokens := Tokens.SplitLoop(str, ',');
    if |tokens| != 6 { return WrongCount; }
    configuration.SetEndPoint(tokens[0]);
    configuration.SetSecureEndPoint(tokens[1]);
    configuration.SetLanguage(tokens[2]);
    configuration.SetVoice(tokens[3]);
    var volume := ReadVolume(tokens[4]);
    if volume.None? { return Thrown; }
    configuration.SetVolume(volume.value);
    var rate := ReadRate(tokens[5]);
    if rate.None? { return Thrown; }
    configuration.SetRate(rate.value % 0x100);
    return Accepted;
  }

  /** The manager's part of setConfiguration. */
  method SetDefaultConfiguration(configuration: TTSConfiguration, str: string) returns (outcome: Outcome)
    modifies configuration
    ensures (outcome, configuration.Contents()) == SetConfiguration(old(configuration.Contents()), str)
  {
    outcome := ReadInto(configuration, str);
    if outcome != Accepted { return; }
    if configuration.endPoint == "" && configuration.secureEndPoint != "" {
      configuration.SetEndPoint(configuration.secureEndPoint);
    } else if configuration.secureEndPoint == "" && configuration.endPoint != "" {
      configuration.SetSecureEndPoint(configuration.endPoint);
    }
  }

  /** The merging of one more configuration into the cached one, field by field. */
  method MergeInto(was: Config, config: Config) returns (cached: Config)
    ensures cached == Update(was, config)
  {
    cached := was;
    if config.endPoint != "" { cached := cached.(endPoint := config.endPoint); }
    if config.secureEndPoint != "" { cached := cached.(secureEndPoint := config.secureEndPoint); }
    if config.language != "" { cached := cached.(language := config.language); }
    if config.voice != "" { cached := cached.(voice := config.voice); }
    if config.volume >= 1_000_000 && config.volume <= 100_000_000 {
      cached := cached.(volume := config.volume);
    }
    if config.rate >= 1 && config.rate <= 100 { cached := cached.(rate := config.rate); }
  }

  /** The client, as far as configurations go. `sent` holds what went to the manager, and `waiting` the
      configurations given since the connection was lost. */
  class TTSClientPrivateRtRemote {
    var connected: bool
    var cachedConfig: Option<Config>
    var sent: seq<string>
    ghost var waiting: seq<Config>

    ghost predicate Valid()
      reads this
    {
      && (connected ==> waiting == [])
      && cachedConfig == if waiting == [] then None else Some(Merged(Blank(), waiting))
    }

    constructor ()
      ensures Valid() && !connected && sent == [] && waiting == []
    {
      connected, cachedConfig, sent, waiting := false, None, [], [];
    }

    method SetTTSConfiguration(config: Config)
      requires Valid()
      modifies this`cachedConfig, this`sent, this`waiting
      ensures Valid()
      ensures sent == if connected then old(sent) + [ToString(config)] else old(sent)
      ensures waiting == if connected then [] else old(waiting) + [config]
    {
      if !connected {
        var cached := if cachedConfig.None? then Blank() else cachedConfig.value;
        cached := MergeInto(cached, config);
        cachedConfig := Some(cached);
        waiting := waiting + [config];
        assert waiting[..|waiting| - 1] == old(waiting);
        return;
      }
      sent := sent + [ToString(config)];
    }

    /** Connecting sends what was cached, merged into one configuration. */
    method ConnectToTTSManager()
      requires Valid() && !connected
      modifies this
      ensures Valid() && connected
      ensures sent == old(sent) + if old(waiting) == [] then [] else [ToString(Merged(Blank(), old(waiting)))]
    {
      connected, waiting := true, [];
      if cachedConfig.Some? {
        sent := sent + [ToString(cachedConfig.value)];
        cachedConfig := None;
      }
    }

    /** What was cached while disconnected stays cached. */
    method CleanupConnection()
      requires Valid()
      modifies this`connected
      ensures Valid() && !connected
      ensures old(connected) ==> cachedConfig == None
    {
      connected := false;
    }
  }
}

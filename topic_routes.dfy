/** The route table the codec is built against: every topic the decoder
    produces paired with the components of its path, written out one by one
    (`["hermes", "asr", "toggleOn"]` stands for "hermes/asr/toggleOn"). */
module TopicRoutes {
  import opened Topics
  import opened PathComponents
  import opened TopicSpec
  import opened TopicCodec
  import opened TopicLaws

  /** One entry of the table: a topic and the components of its path. */
  datatype Route = Route(topic: HermesTopic, path: seq<string>)

  /** The dialogue manager's commands and introspection topics. */
  function DialogueManagerRoutes(): seq<Route> {
    [ Route(HermesTopic.DialogueManager(DialogueManagerCommand.ToggleOn), ["hermes", "dialogueManager", "toggleOn"]),
      Route(HermesTopic.DialogueManager(DialogueManagerCommand.ToggleOff), ["hermes", "dialogueManager", "toggleOff"]),
      Route(HermesTopic.DialogueManager(StartSession), ["hermes", "dialogueManager", "startSession"]),
      Route(HermesTopic.DialogueManager(ContinueSession), ["hermes", "dialogueManager", "continueSession"]),
      Route(HermesTopic.DialogueManager(EndSession), ["hermes", "dialogueManager", "endSession"]),
      Route(HermesTopic.DialogueManager(SessionQueued), ["hermes", "dialogueManager", "sessionQueued"]),
      Route(HermesTopic.DialogueManager(SessionStarted), ["hermes", "dialogueManager", "sessionStarted"]),
      Route(HermesTopic.DialogueManager(SessionEnded), ["hermes", "dialogueManager", "sessionEnded"]),
      Route(HermesTopic.DialogueManager(DialogueManagerCommand.IntentNotRecognized), ["hermes", "dialogueManager", "intentNotRecognized"]),
      Route(HermesTopic.Component(None, Component.DialogueManager, VersionRequest), ["hermes", "dialogueManager", "versionRequest"]),
      Route(HermesTopic.Component(None, Component.DialogueManager, Version), ["hermes", "dialogueManager", "version"]),
      Route(HermesTopic.Component(None, Component.DialogueManager, Error), ["hermes", "dialogueManager", "error"]) ]
  }

  /** The feedback sound toggles. */
  function FeedbackRoutes(): seq<Route> {
    [ Route(HermesTopic.Feedback(Sound(SoundCommand.ToggleOn)), ["hermes", "feedback", "sound", "toggleOn"]),
      Route(HermesTopic.Feedback(Sound(SoundCommand.ToggleOff)), ["hermes", "feedback", "sound", "toggleOff"]) ]
  }

  /** The hotword toggles, detection and introspection at a site. */
  function HotwordRoutes(): seq<Route> {
    [ Route(HermesTopic.Hotword(None, HotwordCommand.ToggleOn), ["hermes", "hotword", "toggleOn"]),
      Route(HermesTopic.Hotword(None, HotwordCommand.ToggleOff), ["hermes", "hotword", "toggleOff"]),
      Route(HermesTopic.Hotword(Some("default"), Detected), ["hermes", "hotword", "default", "detected"]),
      Route(HermesTopic.Component(Some("default"), Component.Hotword, VersionRequest), ["hermes", "hotword", "default", "versionRequest"]),
      Route(HermesTopic.Component(Some("default"), Component.Hotword, Version), ["hermes", "hotword", "default", "version"]),
      Route(HermesTopic.Component(Some("default"), Component.Hotword, Error), ["hermes", "hotword", "default", "error"]) ]
  }

  /** The speech recogniser's decodable commands and introspection topics. */
  function AsrRoutes(): seq<Route> {
    [ Route(HermesTopic.Asr(AsrCommand.ToggleOn), ["hermes", "asr", "toggleOn"]),
      Route(HermesTopic.Asr(AsrCommand.ToggleOff), ["hermes", "asr", "toggleOff"]),
      Route(HermesTopic.Asr(TextCaptured), ["hermes", "asr", "textCaptured"]),
      Route(HermesTopic.Asr(PartialTextCaptured), ["hermes", "asr", "partialTextCaptured"]),
      Route(HermesTopic.Asr(Reload), ["hermes", "asr", "reload"]),
      Route(HermesTopic.Asr(Inject), ["hermes", "asr", "inject"]),
      Route(HermesTopic.Asr(InjectStatus), ["hermes", "asr", "injectStatus"]),
      Route(HermesTopic.Asr(InjectStatusRequest), ["hermes", "asr", "injectStatusRequest"]),
      Route(HermesTopic.Component(None, Component.Asr, VersionRequest), ["hermes", "asr", "versionRequest"]),
      Route(HermesTopic.Component(None, Component.Asr, Version), ["hermes", "asr", "version"]),
      Route(HermesTopic.Component(None, Component.Asr, Error), ["hermes", "asr", "error"]) ]
  }

  /** The audio server toggles, and its site events and introspection topics. */
  function AudioServerRoutes(): seq<Route> {
    [ Route(HermesTopic.AudioServer(None, AudioServerCommand.ToggleOn), ["hermes", "audioServer", "toggleOn"]),
      Route(HermesTopic.AudioServer(None, AudioServerCommand.ToggleOff), ["hermes", "audioServer", "toggleOff"]),
      Route(HermesTopic.AudioServer(Some("default"), AudioFrame), ["hermes", "audioServer", "default", "audioFrame"]),
      Route(HermesTopic.AudioServer(Some("default"), PlayBytes("kikoo")), ["hermes", "audioServer", "default", "playBytes", "kikoo"]),
      Route(HermesTopic.AudioServer(Some("default"), PlayFinished), ["hermes", "audioServer", "default", "playFinished"]),
      Route(HermesTopic.Component(Some("default"), Component.AudioServer, VersionRequest), ["hermes", "audioServer", "default", "versionRequest"]),
      Route(HermesTopic.Component(Some("default"), Component.AudioServer, Version), ["hermes", "audioServer", "default", "version"]),
      Route(HermesTopic.Component(Some("default"), Component.AudioServer, Error), ["hermes", "audioServer", "default", "error"]) ]
  }

  /** Speech synthesis and its introspection topics. */
  function TtsRoutes(): seq<Route> {
    [ Route(HermesTopic.Tts(Say), ["hermes", "tts", "say"]),
      Route(HermesTopic.Tts(SayFinished), ["hermes", "tts", "sayFinished"]),
      Route(HermesTopic.Component(None, Component.Tts, VersionRequest), ["hermes", "tts", "versionRequest"]),
      Route(HermesTopic.Component(None, Component.Tts, Version), ["hermes", "tts", "version"]),
      Route(HermesTopic.Component(None, Component.Tts, Error), ["hermes", "tts", "error"]) ]
  }

  /** An intent topic. */
  function IntentRoutes(): seq<Route> {
    [ Route(HermesTopic.Intent("harakiri_intent"), ["hermes", "intent", "harakiri_intent"]) ]
  }

  /** Language understanding and its introspection topics. */
  function NluRoutes(): seq<Route> {
    [ Route(HermesTopic.Nlu(Query), ["hermes", "nlu", "query"]),
      Route(HermesTopic.Nlu(PartialQuery), ["hermes", "nlu", "partialQuery"]),
      Route(HermesTopic.Nlu(SlotParsed), ["hermes", "nlu", "slotParsed"]),
      Route(HermesTopic.Nlu(IntentParsed), ["hermes", "nlu", "intentParsed"]),
      Route(HermesTopic.Nlu(NluCommand.IntentNotRecognized), ["hermes", "nlu", "intentNotRecognized"]),
      Route(HermesTopic.Component(None, Component.Nlu, VersionRequest), ["hermes", "nlu", "versionRequest"]),
      Route(HermesTopic.Component(None, Component.Nlu, Version), ["hermes", "nlu", "version"]),
      Route(HermesTopic.Component(None, Component.Nlu, Error), ["hermes", "nlu", "error"]) ]
  }

  /** A route holds when encoding its topic gives its path and decoding its
      path gives back its topic. */
  predicate Holds(r: Route) {
    ToPath(r.topic) == Join(r.path) && FromPath(Join(r.path)) == Some(r.topic)
  }

  /** An entry whose path is its topic's components and whose topic is
      canonical holds in both directions. */
  lemma EntryHolds(r: Route)
    requires Canonical(r.topic) && Segments(r.topic) == r.path
    ensures Holds(r)
  {
    DisplayIsJoin(r.topic);
    RoundTrip(r.topic);
  }

  /** Every entry of `DialogueManagerRoutes` holds. */
  lemma DialogueManagerRoutesHold()
    ensures forall i :: 0 <= i < |DialogueManagerRoutes()| ==> Holds(DialogueManagerRoutes()[i])
  {
    forall i | 0 <= i < |DialogueManagerRoutes()| ensures Holds(DialogueManagerRoutes()[i]) {
      EntryHolds(DialogueManagerRoutes()[i]);
    }
  }

  /** Every entry of `FeedbackRoutes` holds. */
  lemma FeedbackRoutesHold()
    ensures forall i :: 0 <= i < |FeedbackRoutes()| ==> Holds(FeedbackRoutes()[i])
  {
    forall i | 0 <= i < |FeedbackRoutes()| ensures Holds(FeedbackRoutes()[i]) {
      EntryHolds(FeedbackRoutes()[i]);
    }
  }

  /** Every entry of `HotwordRoutes` holds. */
  lemma HotwordRoutesHold()
    ensures forall i :: 0 <= i < |HotwordRoutes()| ==> Holds(HotwordRoutes()[i])
  {
    forall i | 0 <= i < |HotwordRoutes()| ensures Holds(HotwordRoutes()[i]) {
      EntryHolds(HotwordRoutes()[i]);
    }
  }

  /** Every entry of `AsrRoutes` holds. */
  lemma AsrRoutesHold()
    ensures forall i :: 0 <= i < |AsrRoutes()| ==> Holds(AsrRoutes()[i])
  {
    forall i | 0 <= i < |AsrRoutes()| ensures Holds(AsrRoutes()[i]) {
      EntryHolds(AsrRoutes()[i]);
    }
  }

  /** Every entry of `AudioServerRoutes` holds. */
  lemma AudioServerRoutesHold()
    ensures forall i :: 0 <= i < |AudioServerRoutes()| ==> Holds(AudioServerRoutes()[i])
  {
    forall i | 0 <= i < |AudioServerRoutes()| ensures Holds(AudioServerRoutes()[i]) {
      EntryHolds(AudioServerRoutes()[i]);
    }
  }

  /** Every entry of `TtsRoutes` holds. */
  lemma TtsRoutesHold()
    ensures forall i :: 0 <= i < |TtsRoutes()| ==> Holds(TtsRoutes()[i])
  {
    forall i | 0 <= i < |TtsRoutes()| ensures Holds(TtsRoutes()[i]) {
      EntryHolds(TtsRoutes()[i]);
    }
  }

  /** Every entry of `IntentRoutes` holds. */
  lemma IntentRoutesHold()
    ensures forall i :: 0 <= i < |IntentRoutes()| ==> Holds(IntentRoutes()[i])
  {
    forall i | 0 <= i < |IntentRoutes()| ensures Holds(IntentRoutes()[i]) {
      EntryHolds(IntentRoutes()[i]);
    }
  }

  /** Every entry of `NluRoutes` holds. */
  lemma NluRoutesHold()
    ensures forall i :: 0 <= i < |NluRoutes()| ==> Holds(NluRoutes()[i])
  {
    forall i | 0 <= i < |NluRoutes()| ensures Holds(NluRoutes()[i]) {
      EntryHolds(NluRoutes()[i]);
    }
  }

  /** The whole table, family by family. */
  function Routes(): seq<Route> {
    DialogueManagerRoutes() + FeedbackRoutes() + HotwordRoutes() + AsrRoutes()
    + AudioServerRoutes() + TtsRoutes() + IntentRoutes() + NluRoutes()
  }

  /** Every route of the table encodes to its path and decodes from it. */
  lemma RoutesHold()
    ensures forall r :: r in Routes() ==> Holds(r)
  {
    DialogueManagerRoutesHold();
    FeedbackRoutesHold();
    HotwordRoutesHold();
    AsrRoutesHold();
    AudioServerRoutesHold();
    TtsRoutesHold();
    IntentRoutesHold();
    NluRoutesHold();
  }
}

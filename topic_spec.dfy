/** What a topic's path is, independently of how the encoder builds it or
    how the decoder reads it: the list of path components, which topics the
    decoder can produce, and which of them tolerate extra trailing
    components. */
module TopicSpec {
  import opened Topics
  import opened PathComponents

  /** The path components of an audio server command: its token, then the
      file for `PlayBytes`. */
  function AudioServerSegments(cmd: AudioServerCommand): seq<string> {
    match cmd
    case PlayBytes(file) => [cmd.Token(), file]
    case _ => [cmd.Token()]
  }

  /** The optional site component. */
  function SiteSegments(site: Option<string>): seq<string> {
    match site
    case None => []
    case Some(s) => [s]
  }

  /** The components of a topic's path:
      `hermes/<family>[/<site>]/<command>[/<argument>]` or `hermes/intent/<name>`. */
  function Segments(t: HermesTopic): (r: seq<string>)
    ensures 3 <= |r| <= 5 && r[0] == "hermes"
  {
    ["hermes"] +
    match t
    case Feedback(f) => ["feedback", f.Medium(), f.sound.Token()]
    case DialogueManager(c) => [Component.DialogueManager.Token(), c.Token()]
    case Hotword(site, c) => [Component.Hotword.Token()] + SiteSegments(site) + [c.Token()]
    case Asr(c) => [Component.Asr.Token(), c.Token()]
    case Tts(c) => [Component.Tts.Token(), c.Token()]
    case Nlu(c) => [Component.Nlu.Token(), c.Token()]
    case Intent(name) => ["intent", name]
    case AudioServer(site, c) =>
      [Component.AudioServer.Token()] + SiteSegments(site) + AudioServerSegments(c)
    case Component(site, k, c) => [k.Token()] + SiteSegments(site) + [c.Token()]
  }

  /** The family tokens the decoder dispatches on. */
  const FamilyTokens: set<string> :=
    {"audioServer", "asr", "dialogueManager", "feedback", "intent", "hotword", "nlu", "tts"}

  /** The shapes the decoder produces: toggles of the hotword detector and of
      the audio server carry no site, their events and introspection topics
      carry one; the speech recogniser's listening commands have no decoder
      arm; introspection topics of the other families carry no site. */
  predicate RoutedShape(t: HermesTopic) {
    match t
    case Hotword(None, c) => !c.Detected?
    case Hotword(Some(_), c) => c.Detected?
    case Asr(c) => !c.StartListening? && !c.StopListening?
    case AudioServer(None, c) => c.ToggleOn? || c.ToggleOff?
    case AudioServer(Some(_), c) => !c.ToggleOn? && !c.ToggleOff?
    case Component(None, k, _) => !k.Hotword? && !k.AudioServer?
    case Component(Some(_), k, _) => k.Hotword? || k.AudioServer?
    case _ => true
  }

  /** Every free-form string of the topic (site, file, intent name) can stand
      as one path component. */
  predicate SegmentsValid(t: HermesTopic) {
    match t
    case Hotword(Some(s), _) => NormalComponent(s)
    case Intent(name) => NormalComponent(name)
    case AudioServer(site, c) =>
      (site.Some? ==> NormalComponent(site.value)) && (c.PlayBytes? ==> NormalComponent(c.file))
    case Component(Some(s), _, _) => NormalComponent(s)
    case _ => true
  }

  /** The topics that survive encoding and decoding unchanged. */
  predicate Canonical(t: HermesTopic) {
    RoutedShape(t) && SegmentsValid(t)
  }

  /** Whether the decoder still recognises the topic when further components
      follow its own: only the audio server's fixed-length arms and the
      site-less hotword toggles insist that nothing follows. */
  predicate AcceptsTrailing(t: HermesTopic) {
    match t
    case Hotword(None, _) => false
    case AudioServer(_, c) => c.PlayBytes?
    case Component(_, AudioServer, _) => false
    case _ => true
  }

  /** A topic whose free-form strings are valid has only normal components:
      every wire token is one. */
  lemma SegmentsNormal(t: HermesTopic)
    requires SegmentsValid(t)
    ensures forall i :: 0 <= i < |Segments(t)| ==> NormalComponent(Segments(t)[i])
  {
  }
}

/** The topic codec: the encoder renders a topic as its bus path
    (`Display`, then `as_path`), the decoder reads a path back into a topic
    (`from_path` and one sub-parser per family). */
module TopicCodec {
  import opened Topics
  import opened PathComponents
  import opened TopicSpec

  // ---------------------------------------------------------------------
  // Encoder

  /** `Display` of a feedback command: the medium, then the sound command. */
  function FeedbackDisplay(cmd: FeedbackCommand): (r: string)
    ensures r == Join([cmd.Medium(), cmd.sound.Token()])
    ensures AsPath(r) == r
  {
    match cmd
    case Sound(c) => "sound/" + c.Token()
  }

  /** `Display` of an audio server command; `PlayBytes` renders its file
      verbatim after the command token. */
  function AudioServerDisplay(cmd: AudioServerCommand): (r: string)
    ensures r == Join(AudioServerSegments(cmd))
    ensures AsPath(r) == r
  {
    match cmd
    case AudioFrame => "audioFrame"
    case PlayBytes(file) => "playBytes/" + file
    case PlayFinished => "playFinished"
    case ToggleOn => "toggleOn"
    case ToggleOff => "toggleOff"
  }

  /** `Display` of a topic: `hermes/` followed by the family token, the site
      when there is one, and the command's path form. Sites, files and intent
      names are inserted verbatim. */
  function Display(t: HermesTopic): (r: string)
    ensures |r| > 7 && r[..7] == "hermes/"
  {
    var subpath :=
      match t
      case Feedback(cmd) => "feedback/" + AsPath(FeedbackDisplay(cmd))
      case Hotword(site, cmd) =>
        (match site
         case Some(id) => Component.Hotword.Token() + "/" + id + "/" + cmd.Token()
         case None => Component.Hotword.Token() + "/" + cmd.Token())
      case Asr(cmd) => Component.Asr.Token() + "/" + cmd.Token()
      case Tts(cmd) => Component.Tts.Token() + "/" + cmd.Token()
      case Nlu(cmd) => Component.Nlu.Token() + "/" + cmd.Token()
      case DialogueManager(cmd) => Component.DialogueManager.Token() + "/" + cmd.Token()
      case Intent(name) => "intent/" + name
      case Component(site, k, cmd) =>
        (match site
         case Some(id) => k.Token() + "/" + id + "/" + cmd.Token()
         case None => k.Token() + "/" + cmd.Token())
      case AudioServer(site, cmd) =>
        (match site
         case Some(id) => Component.AudioServer.Token() + "/" + id + "/" + AsPath(AudioServerDisplay(cmd))
         case None => Component.AudioServer.Token() + "/" + AsPath(AudioServerDisplay(cmd)));
    "hermes/" + subpath
  }

  /** The path of a topic: `as_path` of its `Display`, which starts with the
      lower-case `h` of `hermes` and so is the `Display` itself. */
  function ToPath(t: HermesTopic): (r: string)
    ensures r == Display(t)
    ensures |r| > 7 && r[..7] == "hermes/"
  {
    AsPath(Display(t))
  }

  // ---------------------------------------------------------------------
  // Decoder

  /** The `i`-th of the components left to a sub-parser, if any: the value of
      the `i`-th call to `next()` on its iterator. */
  function Next(comps: seq<string>, i: nat): (r: Option<string>)
    ensures r.Some? <==> i < |comps|
    ensures r.Some? ==> r.value == comps[i]
  {
    if i < |comps| then Some(comps[i]) else None
  }

  /** Sub-parser for `hermes/asr/...`: one command component; anything after
      it is ignored. */
  function ParseAsr(comps: seq<string>): (r: Option<HermesTopic>)
    ensures r.Some? ==> RoutedShape(r.value) && Segments(r.value) <= ["hermes", "asr"] + comps
  {
    match Next(comps, 0)
    case Some("toggleOn") => Some(HermesTopic.Asr(AsrCommand.ToggleOn))
    case Some("toggleOff") => Some(HermesTopic.Asr(AsrCommand.ToggleOff))
    case Some("textCaptured") => Some(HermesTopic.Asr(TextCaptured))
    case Some("partialTextCaptured") => Some(HermesTopic.Asr(PartialTextCaptured))
    case Some("inject") => Some(HermesTopic.Asr(Inject))
    case Some("injectStatus") => Some(HermesTopic.Asr(InjectStatus))
    case Some("injectStatusRequest") => Some(HermesTopic.Asr(InjectStatusRequest))
    case Some("reload") => Some(HermesTopic.Asr(Reload))
    case Some("versionRequest") => Some(HermesTopic.Component(None, Component.Asr, VersionRequest))
    case Some("version") => Some(HermesTopic.Component(None, Component.Asr, Version))
    case Some("error") => Some(HermesTopic.Component(None, Component.Asr, Error))
    case _ => None
  }

  /** Sub-parser for `hermes/audioServer/...`: the toggles stand alone, every
      other command follows a site; `playBytes` takes the next component as
      its file and ignores the rest, the other arms require nothing after
      their command. */
  function ParseAudioServer(comps: seq<string>): (r: Option<HermesTopic>)
    ensures r.Some? ==> RoutedShape(r.value) && Segments(r.value) <= ["hermes", "audioServer"] + comps
  {
    match (Next(comps, 0), Next(comps, 1), Next(comps, 2))
    case (Some("toggleOn"), None, None) => Some(HermesTopic.AudioServer(None, AudioServerCommand.ToggleOn))
    case (Some("toggleOff"), None, None) => Some(HermesTopic.AudioServer(None, AudioServerCommand.ToggleOff))
    case (Some(site), Some("audioFrame"), None) => Some(HermesTopic.AudioServer(Some(site), AudioFrame))
    case (Some(site), Some("playBytes"), Some(file)) => Some(HermesTopic.AudioServer(Some(site), PlayBytes(file)))
    case (Some(site), Some("playFinished"), None) => Some(HermesTopic.AudioServer(Some(site), PlayFinished))
    case (Some(site), Some("versionRequest"), None) =>
      Some(HermesTopic.Component(Some(site), Component.AudioServer, VersionRequest))
    case (Some(site), Some("version"), None) =>
      Some(HermesTopic.Component(Some(site), Component.AudioServer, Version))
    case (Some(site), Some("error"), None) =>
      Some(HermesTopic.Component(Some(site), Component.AudioServer, Error))
    case _ => None
  }

  /** Sub-parser for `hermes/dialogueManager/...`: one command component;
      anything after it is ignored. */
  function ParseDialogueManager(comps: seq<string>): (r: Option<HermesTopic>)
    ensures r.Some? ==> RoutedShape(r.value) && Segments(r.value) <= ["hermes", "dialogueManager"] + comps
  {
    match Next(comps, 0)
    case Some("toggleOn") => Some(HermesTopic.DialogueManager(DialogueManagerCommand.ToggleOn))
    case Some("toggleOff") => Some(HermesTopic.DialogueManager(DialogueManagerCommand.ToggleOff))
    case Some("startSession") => Some(HermesTopic.DialogueManager(StartSession))
    case Some("continueSession") => Some(HermesTopic.DialogueManager(ContinueSession))
    case Some("endSession") => Some(HermesTopic.DialogueManager(EndSession))
    case Some("sessionQueued") => Some(HermesTopic.DialogueManager(SessionQueued))
    case Some("sessionStarted") => Some(HermesTopic.DialogueManager(SessionStarted))
    case Some("sessionEnded") => Some(HermesTopic.DialogueManager(SessionEnded))
    case Some("intentNotRecognized") => Some(HermesTopic.DialogueManager(DialogueManagerCommand.IntentNotRecognized))
    case Some("versionRequest") => Some(HermesTopic.Component(None, Component.DialogueManager, VersionRequest))
    case Some("version") => Some(HermesTopic.Component(None, Component.DialogueManager, Version))
    case Some("error") => Some(HermesTopic.Component(None, Component.DialogueManager, Error))
    case _ => None
  }

  /** Sub-parser for `hermes/feedback/...`: the medium `sound`, then a
      toggle; anything after it is ignored. There are no introspection
      topics for feedback. */
  function ParseFeedback(comps: seq<string>): (r: Option<HermesTopic>)
    ensures r.Some? ==> RoutedShape(r.value) && Segments(r.value) <= ["hermes", "feedback"] + comps
  {
    match (Next(comps, 0), Next(comps, 1))
    case (Some("sound"), Some("toggleOn")) => Some(HermesTopic.Feedback(Sound(SoundCommand.ToggleOn)))
    case (Some("sound"), Some("toggleOff")) => Some(HermesTopic.Feedback(Sound(SoundCommand.ToggleOff)))
    case _ => None
  }

  /** Sub-parser for `hermes/hotword/...`: the toggles stand alone, the
      detection event and the introspection commands follow a site; after a
      site and its command anything is ignored. */
  function ParseHotword(comps: seq<string>): (r: Option<HermesTopic>)
    ensures r.Some? ==> RoutedShape(r.value) && Segments(r.value) <= ["hermes", "hotword"] + comps
  {
    match (Next(comps, 0), Next(comps, 1))
    case (Some("toggleOn"), None) => Some(HermesTopic.Hotword(None, HotwordCommand.ToggleOn))
    case (Some("toggleOff"), None) => Some(HermesTopic.Hotword(None, HotwordCommand.ToggleOff))
    case (Some(site), Some("detected")) => Some(HermesTopic.Hotword(Some(site), Detected))
    case (Some(site), Some("versionRequest")) =>
      Some(HermesTopic.Component(Some(site), Component.Hotword, VersionRequest))
    case (Some(site), Some("version")) =>
      Some(HermesTopic.Component(Some(site), Component.Hotword, Version))
    case (Some(site), Some("error")) =>
      Some(HermesTopic.Component(Some(site), Component.Hotword, Error))
    case _ => None
  }

  /** Sub-parser for `hermes/intent/...`: the next component is the intent
      name, whatever it is; anything after it is ignored. */
  function ParseIntent(comps: seq<string>): (r: Option<HermesTopic>)
    ensures r.Some? <==> |comps| > 0
    ensures r.Some? ==> r == Some(HermesTopic.Intent(comps[0]))
  {
    match Next(comps, 0)
    case Some(name) => Some(HermesTopic.Intent(name))
    case _ => None
  }

  /** Sub-parser for `hermes/nlu/...`: one command component; anything after
      it is ignored. */
  function ParseNlu(comps: seq<string>): (r: Option<HermesTopic>)
    ensures r.Some? ==> RoutedShape(r.value) && Segments(r.value) <= ["hermes", "nlu"] + comps
  {
    match Next(comps, 0)
    case Some("query") => Some(HermesTopic.Nlu(Query))
    case Some("partialQuery") => Some(HermesTopic.Nlu(PartialQuery))
    case Some("slotParsed") => Some(HermesTopic.Nlu(SlotParsed))
    case Some("intentParsed") => Some(HermesTopic.Nlu(IntentParsed))
    case Some("intentNotRecognized") => Some(HermesTopic.Nlu(NluCommand.IntentNotRecognized))
    case Some("versionRequest") => Some(HermesTopic.Component(None, Component.Nlu, VersionRequest))
    case Some("version") => Some(HermesTopic.Component(None, Component.Nlu, Version))
    case Some("error") => Some(HermesTopic.Component(None, Component.Nlu, Error))
    case _ => None
  }

  /** Sub-parser for `hermes/tts/...`: one command component; anything after
      it is ignored. */
  function ParseTts(comps: seq<string>): (r: Option<HermesTopic>)
    ensures r.Some? ==> RoutedShape(r.value) && Segments(r.value) <= ["hermes", "tts"] + comps
  {
    match Next(comps, 0)
    case Some("say") => Some(HermesTopic.Tts(Say))
    case Some("sayFinished") => Some(HermesTopic.Tts(SayFinished))
    case Some("versionRequest") => Some(HermesTopic.Component(None, Component.Tts, VersionRequest))
    case Some("version") => Some(HermesTopic.Component(None, Component.Tts, Version))
    case Some("error") => Some(HermesTopic.Component(None, Component.Tts, Error))
    case _ => None
  }

  /** The decoder on a list of path components: at least two, the first
      `hermes`, the second a family token choosing the sub-parser, which
      reads the components after it. */
  function FromComponents(comps: seq<string>): (r: Option<HermesTopic>)
    ensures r.Some? ==> |comps| >= 2 && comps[0] == "hermes" && comps[1] in FamilyTokens
    ensures r.Some? ==> RoutedShape(r.value) && Segments(r.value) <= comps
  {
    if |comps| < 2 || comps[0] != "hermes" then None
    else
      var rest := comps[2..];
      assert comps == [comps[0], comps[1]] + rest;
      match comps[1]
      case "audioServer" => ParseAudioServer(rest)
      case "asr" => ParseAsr(rest)
      case "dialogueManager" => ParseDialogueManager(rest)
      case "feedback" => ParseFeedback(rest)
      case "intent" => ParseIntent(rest)
      case "hotword" => ParseHotword(rest)
      case "nlu" => ParseNlu(rest)
      case "tts" => ParseTts(rest)
      case _ => None
  }

  /** The decoder: the topic a path names, if it names one. */
  function FromPath(p: string): (r: Option<HermesTopic>)
    ensures r.Some? ==> |p| >= 7 && p[..7] == "hermes/"
  {
    var r := FromComponents(Components(p));
    if r.Some? then
      LeadingComponent(p, "hermes");
      assert "hermes" + "/" == "hermes/";
      r
    else
      r
  }
}

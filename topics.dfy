/** The typed topic identifiers of the hermes voice-assistant bus, and the
    wire token of every command and component tag.

    Each tag's wire token is its declared (PascalCase) name with the first
    character lower-cased: `DialogueManager` is sent as "dialogueManager".
    The tokens are written out as literals, and each tag's `CaseFolding`
    lemma proves that its literal is exactly `AsPath(Name())`. */
module Topics {
  import opened PathComponents

  datatype Option<T> = None | Some(value: T)

  /** An ASCII upper-case letter. */
  predicate IsUpperAscii(c: char) {
    'A' <= c <= 'Z'
  }

  /** The lower-case form of an ASCII letter; every other character is kept. */
  function ToLowerAscii(c: char): (r: char)
    ensures !IsUpperAscii(r)
    ensures IsUpperAscii(c) ==> r as int == c as int + 32
    ensures !IsUpperAscii(c) ==> r == c
  {
    if IsUpperAscii(c) then (c as int + 32) as char else c
  }

  /** The path form of a rendered name: its first character lower-cased,
      every other character unchanged, the empty string kept empty. */
  function AsPath(s: string): (r: string)
    ensures |r| == |s|
    ensures forall i :: 0 < i < |s| ==> r[i] == s[i]
    ensures |s| > 0 ==> !IsUpperAscii(r[0])
    ensures |s| > 0 && IsUpperAscii(s[0]) ==> r[0] as int == s[0] as int + 32
    ensures |s| > 0 && !IsUpperAscii(s[0]) ==> r == s
  {
    if |s| == 0 then "" else [ToLowerAscii(s[0])] + s[1..]
  }

  /** A token whose first character is the lower-cased first character of
      `name`, and whose other characters are those of `name`, is `name`'s
      path form. */
  lemma AsPathOfFolded(name: string, token: string)
    requires |token| == |name| > 0
    requires token[0] == ToLowerAscii(name[0]) && token[1..] == name[1..]
    ensures token == AsPath(name)
  {
    assert token == [token[0]] + token[1..];
  }

  /** Lower-casing the first character twice is the same as once. */
  lemma AsPathIdempotent(s: string)
    ensures AsPath(AsPath(s)) == AsPath(s)
  {
  }

  /** The component families a generic introspection topic belongs to. */
  datatype Component = Hotword | Asr | Tts | Nlu | DialogueManager | AudioServer
  {
    function Name(): string {
      match this
      case Hotword => "Hotword"
      case Asr => "Asr"
      case Tts => "Tts"
      case Nlu => "Nlu"
      case DialogueManager => "DialogueManager"
      case AudioServer => "AudioServer"
    }

    function Token(): (r: string)
      ensures NormalComponent(r)
    {
      match this
      case Hotword => "hotword"
      case Asr => "asr"
      case Tts => "tts"
      case Nlu => "nlu"
      case DialogueManager => "dialogueManager"
      case AudioServer => "audioServer"
    }

    /** The wire token is the declared name with its first character
        lower-cased and the rest unchanged, which is `as_path` of the name. */
    lemma CaseFolding()
      ensures Token() == AsPath(Name())
    {
      match this {
        case Hotword =>
        case Asr =>
        case Tts =>
        case Nlu =>
        case DialogueManager =>
        case AudioServer =>
      }
      AsPathOfFolded(Name(), Token());
    }
  }

  datatype SoundCommand = ToggleOn | ToggleOff
  {
    function Name(): string {
      match this
      case ToggleOn => "ToggleOn"
      case ToggleOff => "ToggleOff"
    }

    function Token(): (r: string)
      ensures NormalComponent(r)
    {
      match this
      case ToggleOn => "toggleOn"
      case ToggleOff => "toggleOff"
    }

    /** The wire token is the declared name with its first character
        lower-cased and the rest unchanged, which is `as_path` of the name. */
    lemma CaseFolding()
      ensures Token() == AsPath(Name())
    {
      match this {
        case ToggleOn =>
        case ToggleOff =>
      }
      AsPathOfFolded(Name(), Token());
    }
  }

  /** Feedback commands; the only medium is sound. */
  datatype FeedbackCommand = Sound(sound: SoundCommand)
  {
    function Name(): string {
      match this
      case Sound(_) => "Sound"
    }

    /** The medium's token, written out by the command's own rendering. */
    function Medium(): (r: string)
      ensures NormalComponent(r)
    {
      match this
      case Sound(_) => "sound"
    }

    /** The medium token is the variant name with its first character
        lower-cased, which is `as_path` of the name. */
    lemma CaseFolding()
      ensures Medium() == AsPath(Name())
    {
      match this {
        case Sound(_) =>
      }
      AsPathOfFolded(Name(), Medium());
    }
  }

  datatype DialogueManagerCommand =
    | ToggleOn | ToggleOff | StartSession | ContinueSession | EndSession
    | SessionQueued | SessionStarted | SessionEnded | IntentNotRecognized
  {
    function Name(): string {
      match this
      case ToggleOn => "ToggleOn"
      case ToggleOff => "ToggleOff"
      case StartSession => "StartSession"
      case ContinueSession => "ContinueSession"
      case EndSession => "EndSession"
      case SessionQueued => "SessionQueued"
      case SessionStarted => "SessionStarted"
      case SessionEnded => "SessionEnded"
      case IntentNotRecognized => "IntentNotRecognized"
    }

    function Token(): (r: string)
      ensures NormalComponent(r)
    {
      match this
      case ToggleOn => "toggleOn"
      case ToggleOff => "toggleOff"
      case StartSession => "startSession"
      case ContinueSession => "continueSession"
      case EndSession => "endSession"
      case SessionQueued => "sessionQueued"
      case SessionStarted => "sessionStarted"
      case SessionEnded => "sessionEnded"
      case IntentNotRecognized => "intentNotRecognized"
    }

    /** The wire token is the declared name with its first character
        lower-cased and the rest unchanged, which is `as_path` of the name. */
    lemma CaseFolding()
      ensures Token() == AsPath(Name())
    {
      match this {
        case ToggleOn =>
        case ToggleOff =>
        case StartSession =>
        case ContinueSession =>
        case EndSession =>
        case SessionQueued =>
        case SessionStarted =>
        case SessionEnded =>
        case IntentNotRecognized =>
      }
      AsPathOfFolded(Name(), Token());
    }
  }

  datatype HotwordCommand = ToggleOn | ToggleOff | Detected
  {
    function Name(): string {
      match this
      case ToggleOn => "ToggleOn"
      case ToggleOff => "ToggleOff"
      case Detected => "Detected"
    }

    function Token(): (r: string)
      ensures NormalComponent(r)
    {
      match this
      case ToggleOn => "toggleOn"
      case ToggleOff => "toggleOff"
      case Detected => "detected"
    }

    /** The wire token is the declared name with its first character
        lower-cased and the rest unchanged, which is `as_path` of the name. */
    lemma CaseFolding()
      ensures Token() == AsPath(Name())
    {
      match this {
        case ToggleOn =>
        case ToggleOff =>
        case Detected =>
      }
      AsPathOfFolded(Name(), Token());
    }
  }

  datatype AsrCommand =
    | ToggleOn | ToggleOff | StartListening | StopListening | TextCaptured
    | PartialTextCaptured | Reload | Inject | InjectStatus | InjectStatusRequest
  {
    function Name(): string {
      match this
      case ToggleOn => "ToggleOn"
      case ToggleOff => "ToggleOff"
      case StartListening => "StartListening"
      case StopListening => "StopListening"
      case TextCaptured => "TextCaptured"
      case PartialTextCaptured => "PartialTextCaptured"
      case Reload => "Reload"
      case Inject => "Inject"
      case InjectStatus => "InjectStatus"
      case InjectStatusRequest => "InjectStatusRequest"
    }

    function Token(): (r: string)
      ensures NormalComponent(r)
    {
      match this
      case ToggleOn => "toggleOn"
      case ToggleOff => "toggleOff"
      case StartListening => "startListening"
      case StopListening => "stopListening"
      case TextCaptured => "textCaptured"
      case PartialTextCaptured => "partialTextCaptured"
      case Reload => "reload"
      case Inject => "inject"
      case InjectStatus => "injectStatus"
      case InjectStatusRequest => "injectStatusRequest"
    }

    /** The wire token is the declared name with its first character
        lower-cased and the rest unchanged, which is `as_path` of the name. */
    lemma CaseFolding()
      ensures Token() == AsPath(Name())
    {
      match this {
        case ToggleOn =>
        case ToggleOff =>
        case StartListening =>
        case StopListening =>
        case TextCaptured =>
        case PartialTextCaptured =>
        case Reload =>
        case Inject =>
        case InjectStatus =>
        case InjectStatusRequest =>
      }
      AsPathOfFolded(Name(), Token());
    }
  }

  datatype TtsCommand = Say | SayFinished
  {
    function Name(): string {
      match this
      case Say => "Say"
      case SayFinished => "SayFinished"
    }

    function Token(): (r: string)
      ensures NormalComponent(r)
    {
      match this
      case Say => "say"
      case SayFinished => "sayFinished"
    }

    /** The wire token is the declared name with its first character
        lower-cased and the rest unchanged, which is `as_path` of the name. */
    lemma CaseFolding()
      ensures Token() == AsPath(Name())
    {
      match this {
        case Say =>
        case SayFinished =>
      }
      AsPathOfFolded(Name(), Token());
    }
  }

  datatype NluCommand = Query | PartialQuery | SlotParsed | IntentParsed | IntentNotRecognized
  {
    function Name(): string {
      match this
      case Query => "Query"
      case PartialQuery => "PartialQuery"
      case SlotParsed => "SlotParsed"
      case IntentParsed => "IntentParsed"
      case IntentNotRecognized => "IntentNotRecognized"
    }

    function Token(): (r: string)
      ensures NormalComponent(r)
    {
      match this
      case Query => "query"
      case PartialQuery => "partialQuery"
      case SlotParsed => "slotParsed"
      case IntentParsed => "intentParsed"
      case IntentNotRecognized => "intentNotRecognized"
    }

    /** The wire token is the declared name with its first character
        lower-cased and the rest unchanged, which is `as_path` of the name. */
    lemma CaseFolding()
      ensures Token() == AsPath(Name())
    {
      match this {
        case Query =>
        case PartialQuery =>
        case SlotParsed =>
        case IntentParsed =>
        case IntentNotRecognized =>
      }
      AsPathOfFolded(Name(), Token());
    }
  }

  /** Audio server commands; `PlayBytes` carries the name of the sound to play. */
  datatype AudioServerCommand = AudioFrame | PlayBytes(file: string) | PlayFinished | ToggleOn | ToggleOff
  {
    function Name(): string {
      match this
      case AudioFrame => "AudioFrame"
      case PlayBytes(_) => "PlayBytes"
      case PlayFinished => "PlayFinished"
      case ToggleOn => "ToggleOn"
      case ToggleOff => "ToggleOff"
    }

    /** The command's token, written out by the command's own rendering;
        `PlayBytes` renders its file after it. */
    function Token(): (r: string)
      ensures NormalComponent(r)
    {
      match this
      case AudioFrame => "audioFrame"
      case PlayBytes(_) => "playBytes"
      case PlayFinished => "playFinished"
      case ToggleOn => "toggleOn"
      case ToggleOff => "toggleOff"
    }

    /** The hand-written token is the variant name with its first character
        lower-cased, which is `as_path` of the name. */
    lemma CaseFolding()
      ensures Token() == AsPath(Name())
    {
      match this {
        case AudioFrame =>
        case PlayBytes(_) =>
        case PlayFinished =>
        case ToggleOn =>
        case ToggleOff =>
      }
      AsPathOfFolded(Name(), Token());
    }
  }

  /** The introspection commands every component family answers. */
  datatype ComponentCommand = VersionRequest | Version | Error
  {
    function Name(): string {
      match this
      case VersionRequest => "VersionRequest"
      case Version => "Version"
      case Error => "Error"
    }

    function Token(): (r: string)
      ensures NormalComponent(r)
    {
      match this
      case VersionRequest => "versionRequest"
      case Version => "version"
      case Error => "error"
    }

    /** The wire token is the declared name with its first character
        lower-cased and the rest unchanged, which is `as_path` of the name. */
    lemma CaseFolding()
      ensures Token() == AsPath(Name())
    {
      match this {
        case VersionRequest =>
        case Version =>
        case Error =>
      }
      AsPathOfFolded(Name(), Token());
    }
  }

  /** A topic of the bus. A site of `None` means all sites, or a family with
      no site in its path. */
  datatype HermesTopic =
    | Feedback(feedback: FeedbackCommand)
    | DialogueManager(dialogueManager: DialogueManagerCommand)
    | Hotword(site: Option<string>, hotword: HotwordCommand)
    | Asr(asr: AsrCommand)
    | Tts(tts: TtsCommand)
    | Nlu(nlu: NluCommand)
    | Intent(intentName: string)
    | AudioServer(site: Option<string>, audioServer: AudioServerCommand)
    | Component(site: Option<string>, component: Component, command: ComponentCommand)
}

# Hermes topic codec

A model of the topic codec of the hermes voice-assistant bus
(`hermes-mqtt/src/topics.rs`). Every message on the bus is published under
a topic such as `hermes/asr/toggleOn` or `hermes/audioServer/default/playBytes/kikoo`.
The codec turns a typed topic (`HermesTopic` with one command enum per
component family) into that path (the encoder) and reads a path back into a
typed topic (the decoder).

- **Encoder** (`TopicCodec.Display`, `TopicCodec.ToPath`): `hermes/`, then
  the family token, the site when there is one, the command token, and for
  `playBytes` the file name. Tokens are the declared variant names with the
  first character lower-cased (`as_path`). Each enum's tokens are written out
  as literals, and a `CaseFolding` lemma per enum proves that each literal is
  `AsPath` of the variant name. This covers the eight enums whose token is
  the derived variant name, and the two whose rendering is hand-written: the
  feedback medium `sound` and the audio server's command tokens.
- **Decoder** (`TopicCodec.FromPath`): the path is cut into components the
  way a filesystem path is (module `PathComponents`). The first component
  must be `hermes`. The second picks one of eight sub-parsers. Each
  sub-parser matches the next one to three components by position.
- **Specification** (module `TopicSpec`): `Segments(t)` is the list of
  components of a topic's path, written independently of the encoder.
  `RoutedShape` says which topics the decoder can produce. `Canonical` adds
  that every free-form string (site, file, intent name) is one normal path
  component. `AcceptsTrailing` says which topics the decoder still
  recognises when more components follow.
- **Laws** (module `TopicLaws`): the encoder produces `Join(Segments(t))`.
  The decoder gives a topic back exactly when that topic is canonical. The
  decoder is characterised completely: it returns `t` exactly when `t` is
  canonical, `Segments(t)` begins the path's components, and either nothing
  follows or `t`'s family ignores what follows.
- **Route table** (module `TopicRoutes`): the 53 topic/path pairs of the
  codec's own test table. Each path is written as its list of components.
  Encoding each topic gives the joined list, and decoding that path gives
  the topic.
- **Quirks** (module `TopicQuirks`): paths that start with `/` or `./` are
  rejected. The speech recogniser's `startListening` and `stopListening` are
  encoded but never decoded. A sound name `f/g` at a valid site, where `f`
  is itself a valid component, comes back as the sound `f`. Two different
  topics can share a path when their free-form strings hold separators.

How a path is cut into components (module `PathComponents`): split on `/`;
drop empty segments and interior `.` segments; a leading `/` becomes a root
component `/`, and a leading `.` with no root is kept as `.`. Neither of
those equals `hermes`, so such paths name no topic. `..` is kept as a normal
component.

Decoding is commonly described as the inverse of encoding. The code makes
it the inverse only for canonical topics, and the model follows the code.
The shapes that encode but do not decode back are: a hotword toggle with a
site; hotword detection without a site; an audio frame, file or play-finished
topic of the audio server without a site; an audio server toggle with a
site; introspection of the recogniser, dialogue manager,
language understanding or speech synthesis with a site; introspection of
the hotword detector or audio server without a site; the recogniser's
`StartListening` and `StopListening`; and any site, file or intent name
that is empty, is `.`, or contains `/`.

## Model

| member | source | states |
|---|---|---|
| Topics.ToLowerAscii | hermes-mqtt/src/topics.rs:12 | the result is never an upper-case ASCII letter; an upper-case letter moves up by 32 code points; any other character is kept |
| Topics.AsPath | hermes-mqtt/src/topics.rs:5-15 | same length as the input; every character after the first is unchanged; the first is not upper case, is lowered by 32 when it was an upper-case ASCII letter, and the whole string is unchanged when it was not; the empty string stays empty |
| Topics.AsPathIdempotent | hermes-mqtt/src/topics.rs:5-15 | applying `as_path` twice equals applying it once |
| Topics.Component.Token | hermes-mqtt/src/topics.rs:312-320 | each component family's wire token is a normal path component |
| Topics.Component.CaseFolding | hermes-mqtt/src/topics.rs:312-322 | each family token is its variant name with the first letter lower-cased, that is `AsPath(Name())` |
| Topics.SoundCommand.Token | hermes-mqtt/src/topics.rs:340-344 | each sound command token is a normal path component |
| Topics.SoundCommand.CaseFolding | hermes-mqtt/src/topics.rs:340-346 | each sound command token is `AsPath` of its variant name |
| Topics.FeedbackCommand.Medium | hermes-mqtt/src/topics.rs:331-338 | the feedback medium's token, written out by the hand-written rendering, is a normal path component |
| Topics.FeedbackCommand.CaseFolding | hermes-mqtt/src/topics.rs:324-338 | the medium token `sound` is `AsPath` of the variant name `Sound` |
| Topics.DialogueManagerCommand.Token | hermes-mqtt/src/topics.rs:348-359 | each dialogue manager command token is a normal path component |
| Topics.DialogueManagerCommand.CaseFolding | hermes-mqtt/src/topics.rs:348-361 | each dialogue manager command token is `AsPath` of its variant name |
| Topics.HotwordCommand.Token | hermes-mqtt/src/topics.rs:363-368 | each hotword command token is a normal path component |
| Topics.HotwordCommand.CaseFolding | hermes-mqtt/src/topics.rs:363-370 | each hotword command token is `AsPath` of its variant name |
| Topics.AsrCommand.Token | hermes-mqtt/src/topics.rs:372-384 | each recogniser command token is a normal path component |
| Topics.AsrCommand.CaseFolding | hermes-mqtt/src/topics.rs:372-386 | each recogniser command token is `AsPath` of its variant name |
| Topics.TtsCommand.Token | hermes-mqtt/src/topics.rs:388-392 | each speech synthesis command token is a normal path component |
| Topics.TtsCommand.CaseFolding | hermes-mqtt/src/topics.rs:388-394 | each speech synthesis command token is `AsPath` of its variant name |
| Topics.NluCommand.Token | hermes-mqtt/src/topics.rs:396-403 | each language understanding command token is a normal path component |
| Topics.NluCommand.CaseFolding | hermes-mqtt/src/topics.rs:396-405 | each language understanding command token is `AsPath` of its variant name |
| Topics.AudioServerCommand.Token | hermes-mqtt/src/topics.rs:416-427 | each audio server command token, written out by the hand-written rendering, is a normal path component |
| Topics.AudioServerCommand.CaseFolding | hermes-mqtt/src/topics.rs:407-427 | each hand-written audio server command token is `AsPath` of its variant name |
| Topics.ComponentCommand.Token | hermes-mqtt/src/topics.rs:431-436 | each introspection command token is a normal path component |
| Topics.ComponentCommand.CaseFolding | hermes-mqtt/src/topics.rs:431-438 | each introspection command token is `AsPath` of its variant name |
| PathComponents.Split | hermes-mqtt/src/topics.rs:245-246 | splitting gives at least one separator-free segment, the segments joined by `/` give back the string, and the first segment is empty exactly when the string is empty or starts with `/` |
| PathComponents.SplitJoin | hermes-mqtt/src/topics.rs:245-246 | splitting undoes joining for separator-free segments, so the split is unique |
| PathComponents.Normalize | hermes-mqtt/src/topics.rs:245-246 | the kept segments are exactly the segments that are neither empty nor `.`, and none of the result is empty or `.` |
| PathComponents.Head | hermes-mqtt/src/topics.rs:245-246 | at most one leading component: the root `/` exactly when the path starts with `/`; otherwise the current directory `.` exactly when the first segment is `.` (the path is `.` or starts with `./`); otherwise none |
| PathComponents.Components | hermes-mqtt/src/topics.rs:244-248 | every component is normal except possibly a first `/` or `.`, and the first component is `/` exactly when the path starts with `/` |
| PathComponents.LeadingComponent | hermes-mqtt/src/topics.rs:250-252 | a path with at least two components whose first is the normal component `w` starts with `w/` |
| TopicSpec.Segments | hermes-mqtt/src/topics.rs:270-309 | every topic path has three to five components and the first is `hermes` |
| TopicSpec.SegmentsNormal | hermes-mqtt/src/topics.rs:270-309 | when the site, file and intent name are valid components, every component of the topic's path is a normal component |
| TopicCodec.FeedbackDisplay | hermes-mqtt/src/topics.rs:331-338 | a feedback command renders as `sound/<toggle token>`, and `as_path` leaves it unchanged |
| TopicCodec.AudioServerDisplay | hermes-mqtt/src/topics.rs:416-427 | an audio server command renders as its components joined by `/` (`playBytes/<file>` for a file), and `as_path` leaves it unchanged |
| TopicCodec.Display | hermes-mqtt/src/topics.rs:270-310 | every rendered topic is longer than seven characters and starts with `hermes/` |
| TopicCodec.ToPath | hermes-mqtt/src/topics.rs:5-15 | `as_path` of a rendered topic is the rendered topic itself, so every path starts with `hermes/` |
| TopicCodec.ParseAsr | hermes-mqtt/src/topics.rs:37-66 | whatever it returns has a decodable shape, with its components beginning `hermes/asr/` and then the components it read |
| TopicCodec.ParseAudioServer | hermes-mqtt/src/topics.rs:68-100 | whatever it returns has a decodable shape (toggles without a site, every other command with one), and its components are a prefix of `hermes/audioServer/` and the components it read |
| TopicCodec.ParseDialogueManager | hermes-mqtt/src/topics.rs:102-135 | whatever it returns has a decodable shape, and its components are a prefix of `hermes/dialogueManager/` and the components it read |
| TopicCodec.ParseFeedback | hermes-mqtt/src/topics.rs:137-150 | whatever it returns has a decodable shape, and its components are a prefix of `hermes/feedback/` and the components it read |
| TopicCodec.ParseHotword | hermes-mqtt/src/topics.rs:152-178 | whatever it returns has a decodable shape (toggles without a site, detection and introspection with one), and its components are a prefix of `hermes/hotword/` and the components it read |
| TopicCodec.ParseIntent | hermes-mqtt/src/topics.rs:180-186 | it succeeds exactly when a component is left, and then the topic is the intent named by that component |
| TopicCodec.ParseNlu | hermes-mqtt/src/topics.rs:188-215 | whatever it returns has a decodable shape, and its components are a prefix of `hermes/nlu/` and the components it read |
| TopicCodec.ParseTts | hermes-mqtt/src/topics.rs:217-240 | whatever it returns has a decodable shape, and its components are a prefix of `hermes/tts/` and the components it read |
| TopicCodec.FromComponents | hermes-mqtt/src/topics.rs:249-266 | decoding fails unless there are at least two components, the first is `hermes` and the second is one of the eight family tokens; a decoded topic has a decodable shape and its components begin the input |
| TopicCodec.FromPath | hermes-mqtt/src/topics.rs:243-268 | a path that decodes starts with `hermes/` |
| TopicLaws.DisplayIsJoin | hermes-mqtt/src/topics.rs:270-310 | the rendered topic is exactly its list of components joined by `/` |
| TopicLaws.ComponentsOfJoin | hermes-mqtt/src/topics.rs:244-248 | a path built from separator-free segments, the first neither empty nor `.`, has as components its segments without the empty and `.` ones |
| TopicLaws.ComponentsOfPath | hermes-mqtt/src/topics.rs:243-310 | when the site, file and intent name are valid components, the components of a topic's path are exactly the topic's components |
| TopicLaws.DecodeFeedback | hermes-mqtt/src/topics.rs:137-150 | every feedback topic decodes from its own components, whatever follows them |
| TopicLaws.DecodeDialogueManager | hermes-mqtt/src/topics.rs:102-135 | every dialogue manager topic decodes from its own components, whatever follows them |
| TopicLaws.DecodeAsr | hermes-mqtt/src/topics.rs:37-66 | a recogniser topic decodes from its own components, whatever follows them, except `startListening` and `stopListening`, which decode to nothing |
| TopicLaws.DecodeTts | hermes-mqtt/src/topics.rs:217-240 | every speech synthesis topic decodes from its own components, whatever follows them |
| TopicLaws.DecodeNlu | hermes-mqtt/src/topics.rs:188-215 | every language understanding topic decodes from its own components, whatever follows them |
| TopicLaws.DecodeIntent | hermes-mqtt/src/topics.rs:180-186 | every intent topic decodes from its own components, whatever follows them |
| TopicLaws.DecodeHotword | hermes-mqtt/src/topics.rs:152-178 | a hotword topic decodes from its own components followed by `extra` exactly when it has a decodable shape and either `extra` is empty or the topic has a site |
| TopicLaws.DecodeAudioServer | hermes-mqtt/src/topics.rs:68-100 | an audio server topic decodes from its own components followed by `extra` exactly when it has a decodable shape and either `extra` is empty or the command is `playBytes` |
| TopicLaws.DecodeIntrospection | hermes-mqtt/src/topics.rs:37-240 | `versionRequest`, `version` and `error` of the recogniser, dialogue manager, language understanding and speech synthesis decode to the generic introspection topic of that family without a site, whatever follows them |
| TopicLaws.DecodeSitedIntrospection | hermes-mqtt/src/topics.rs:68-178 | an introspection topic with a site decodes from its own components followed by `extra` exactly when `extra` is empty or the family is the hotword detector; only the hotword detector and audio server are allowed here |
| TopicLaws.DecodeSegments | hermes-mqtt/src/topics.rs:243-266 | a topic decodes from its own components followed by `extra` exactly when it has a decodable shape and either `extra` is empty or its family ignores what follows |
| TopicLaws.PrefixValid | hermes-mqtt/src/topics.rs:243-268 | a topic whose components begin a list whose components after the first are all normal (as a path's are) has a valid site, file and intent name |
| TopicLaws.FromPathSound | hermes-mqtt/src/topics.rs:243-268 | every decoded topic is canonical, and its components begin the path's components |
| TopicLaws.RoundTrip | hermes-mqtt/src/topics.rs:673-691 | decoding a topic's path gives the topic back exactly when the topic is canonical |
| TopicLaws.DecodeCharacterization | hermes-mqtt/src/topics.rs:243-268 | a path decodes to `t` exactly when `t` is canonical, `t`'s components begin the path's components, and either no component follows them or `t`'s family ignores what follows |
| TopicLaws.DecodeEncodeDecode | hermes-mqtt/src/topics.rs:243-310 | re-encoding a decoded topic and decoding again gives the same topic |
| TopicLaws.ToPathInjective | hermes-mqtt/src/topics.rs:270-310 | two canonical topics with the same path are the same topic |
| TopicLaws.ComponentsOfTrailingPath | hermes-mqtt/src/topics.rs:244-248 | the components of a valid topic's path followed by `/x` are the topic's components followed by the components `x` adds |
| TopicLaws.DecodeTrailingPath | hermes-mqtt/src/topics.rs:37-240 | a canonical topic's path followed by `/x` still decodes to the topic exactly when `x` adds no component or the topic's family ignores what follows |
| TopicRoutes.EntryHolds | hermes-mqtt/src/topics.rs:673-691 | a table entry whose path is its canonical topic's components encodes to that path and decodes back to the topic |
| TopicRoutes.DialogueManagerRoutesHold | hermes-mqtt/src/topics.rs:446-497 | every dialogue manager route encodes to its path and decodes back to its topic |
| TopicRoutes.FeedbackRoutesHold | hermes-mqtt/src/topics.rs:498-505 | every feedback route encodes to its path and decodes back to its topic |
| TopicRoutes.HotwordRoutesHold | hermes-mqtt/src/topics.rs:506-541 | every hotword route encodes to its path and decodes back to its topic |
| TopicRoutes.AsrRoutesHold | hermes-mqtt/src/topics.rs:542-573 | every recogniser route encodes to its path and decodes back to its topic |
| TopicRoutes.AudioServerRoutesHold | hermes-mqtt/src/topics.rs:574-620 | every audio server route encodes to its path and decodes back to its topic |
| TopicRoutes.TtsRoutesHold | hermes-mqtt/src/topics.rs:621-637 | every speech synthesis route encodes to its path and decodes back to its topic |
| TopicRoutes.IntentRoutesHold | hermes-mqtt/src/topics.rs:638-641 | the intent route encodes to its path and decodes back to its topic |
| TopicRoutes.NluRoutesHold | hermes-mqtt/src/topics.rs:642-670 | every language understanding route encodes to its path and decodes back to its topic |
| TopicRoutes.RoutesHold | hermes-mqtt/src/topics.rs:444-691 | every route of the whole table encodes to its path and decodes back to its topic |
| TopicQuirks.RootedOrDottedRejected | hermes-mqtt/src/topics.rs:244-252 | a path starting with `/` or with `./` names no topic |
| TopicQuirks.ListeningEncodedNotDecoded | hermes-mqtt/src/topics.rs:37-66 | the paths of `startListening` and `stopListening`, with or without anything after them, decode to nothing |
| TopicQuirks.PlayBytesPathAppend | hermes-mqtt/src/topics.rs:295-302 | the path of the sound `f/g` at a site is the path of the sound `f` at that site followed by `/g` |
| TopicQuirks.FileWithSeparatorTruncated | hermes-mqtt/src/topics.rs:76-78 | a `playBytes` file `f/g` at a valid site, where `f` is itself a valid component, comes back as the file `f` |
| TopicQuirks.SeparatorsBreakInjectivity | hermes-mqtt/src/topics.rs:291-305 | a file `f/audioFrame` at `site` and an audio frame at the site `site/playBytes/f` are different topics with the same path |

## Left out

- Topics.AsPath: lower-cases only ASCII `A`-`Z`; Rust's `to_lowercase` handles all of Unicode and can turn one character into several. The codec only ever folds a string whose first character is ASCII: a variant name's first letter, the `h` of `hermes/`, the `s` of `sound/` or the `p` of `playBytes/`; site, file and intent text, which may be non-ASCII, never comes first.
- TopicRoutes: each route's path is written as its list of components, for example `["hermes", "asr", "toggleOn"]` for `hermes/asr/toggleOn`, and not as a string literal.
- The check in `from_path` that every component is valid UTF-8 is not modelled. Dafny strings are sequences of characters, so the check cannot fail.
- Platform path prefixes (drive letters and UNC prefixes on Windows) are not modelled. Only the Unix reading of `/` and `.` is modelled.
- The `#[test]` loops are not modelled as code. Their table is the route table, and what they check is `TopicRoutes.RoutesHold`.
- `src/ontology.rs` is not part of this model. It holds message payloads, which carry no behaviour of the codec.
- The JavaScript test tools and the audio API facade are not part of this model. They do network I/O and foreign calls.

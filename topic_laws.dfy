/** What the codec guarantees: the encoder's output is the topic's
    components joined by '/', the decoder recognises exactly the canonical
    topics (with the trailing-component policy of each family), and the two
    are inverse on canonical topics. */
module TopicLaws {
  import opened Topics
  import opened PathComponents
  import opened TopicSpec
  import opened TopicCodec

  // ---------------------------------------------------------------------
  // The encoder

  /** Prefixing a word and a separator to a join adds one component. */
  lemma JoinCons(w: string, segs: seq<string>)
    requires |segs| >= 1
    ensures Join([w] + segs) == w + "/" + Join(segs)
  {
    assert ([w] + segs)[1..] == segs;
  }

  /** The rendered path of every topic is its components joined by '/'. */
  lemma DisplayIsJoin(t: HermesTopic)
    ensures Display(t) == Join(Segments(t))
  {
    var segs := Segments(t);
    var sub := segs[1..];
    assert segs == ["hermes"] + sub;
    assert Join(sub) == Display(t)[7..] by {
      match t
      case Feedback(cmd) =>
        assert sub == ["feedback"] + [cmd.Medium(), cmd.sound.Token()];
        JoinCons("feedback", [cmd.Medium(), cmd.sound.Token()]);
        assert "feedback" + "/" == "feedback/";
      case Hotword(site, cmd) =>
        var k := Component.Hotword.Token();
        match site {
          case Some(id) =>
            assert sub == [k, id] + [cmd.Token()];
            JoinAppend([k, id], [cmd.Token()]);
          case None =>
            assert sub == [k, cmd.Token()];
        }
      case Asr(cmd) =>
      case Tts(cmd) =>
      case Nlu(cmd) =>
      case DialogueManager(cmd) =>
      case Intent(name) =>
        assert "intent" + "/" == "intent/";
      case Component(site, k, cmd) =>
        match site {
          case Some(id) =>
            assert sub == [k.Token(), id] + [cmd.Token()];
            JoinAppend([k.Token(), id], [cmd.Token()]);
          case None =>
            assert sub == [k.Token(), cmd.Token()];
        }
      case AudioServer(site, cmd) =>
        var k := Component.AudioServer.Token();
        match site {
          case Some(id) =>
            assert sub == [k, id] + AudioServerSegments(cmd);
            JoinAppend([k, id], AudioServerSegments(cmd));
          case None =>
            assert sub == [k] + AudioServerSegments(cmd);
            JoinAppend([k], AudioServerSegments(cmd));
        }
    }
    JoinCons("hermes", sub);
    assert "hermes" + "/" == "hermes/";
  }

  /** A path made of separator-free segments, the first of them neither empty
      nor ".", has the normal segments as its components. */
  lemma ComponentsOfJoin(segs: seq<string>)
    requires |segs| >= 1 && segs[0] != "" && segs[0] != "."
    requires forall i :: 0 <= i < |segs| ==> '/' !in segs[i]
    ensures Components(Join(segs)) == Normalize(segs)
  {
    SplitJoin(segs);
    var p := Join(segs);
    assert Head(p) == [] by {
      assert Split(p)[0] != "";
    }
  }

  /** The path of a topic whose free-form strings are valid components has
      exactly the topic's components. */
  lemma ComponentsOfPath(t: HermesTopic)
    requires SegmentsValid(t)
    ensures Components(ToPath(t)) == Segments(t)
  {
    DisplayIsJoin(t);
    SegmentsNormal(t);
    ComponentsOfJoin(Segments(t));
    NormalizeKeeps(Segments(t));
  }

  // ---------------------------------------------------------------------
  // The decoder on a topic's own components

  /** The comps a sub-parser sees are those after the family token. */
  lemma RestAfterFamily(t: HermesTopic, extra: seq<string>)
    ensures (Segments(t) + extra)[2..] == Segments(t)[2..] + extra
  {
  }

  /** Feedback topics decode back whatever follows them. */
  lemma DecodeFeedback(c: FeedbackCommand, extra: seq<string>)
    ensures FromComponents(Segments(HermesTopic.Feedback(c)) + extra) == Some(HermesTopic.Feedback(c))
  {
    RestAfterFamily(HermesTopic.Feedback(c), extra);
  }

  /** Dialogue manager topics decode back whatever follows them. */
  lemma DecodeDialogueManager(c: DialogueManagerCommand, extra: seq<string>)
    ensures FromComponents(Segments(HermesTopic.DialogueManager(c)) + extra) == Some(HermesTopic.DialogueManager(c))
  {
    RestAfterFamily(HermesTopic.DialogueManager(c), extra);
  }

  /** Speech recogniser topics decode back whatever follows them, except the
      listening commands, which no arm recognises. */
  lemma DecodeAsr(c: AsrCommand, extra: seq<string>)
    ensures FromComponents(Segments(HermesTopic.Asr(c)) + extra)
         == if c.StartListening? || c.StopListening? then None else Some(HermesTopic.Asr(c))
  {
    RestAfterFamily(HermesTopic.Asr(c), extra);
  }

  /** Text-to-speech topics decode back whatever follows them. */
  lemma DecodeTts(c: TtsCommand, extra: seq<string>)
    ensures FromComponents(Segments(HermesTopic.Tts(c)) + extra) == Some(HermesTopic.Tts(c))
  {
    RestAfterFamily(HermesTopic.Tts(c), extra);
  }

  /** Language-understanding topics decode back whatever follows them. */
  lemma DecodeNlu(c: NluCommand, extra: seq<string>)
    ensures FromComponents(Segments(HermesTopic.Nlu(c)) + extra) == Some(HermesTopic.Nlu(c))
  {
    RestAfterFamily(HermesTopic.Nlu(c), extra);
  }

  /** Intent topics decode back whatever follows them. */
  lemma DecodeIntent(name: string, extra: seq<string>)
    ensures FromComponents(Segments(HermesTopic.Intent(name)) + extra) == Some(HermesTopic.Intent(name))
  {
    RestAfterFamily(HermesTopic.Intent(name), extra);
  }

  /** Hotword topics decode back when they have a routed shape, and then
      tolerate trailing components only after a site. */
  lemma DecodeHotword(site: Option<string>, c: HotwordCommand, extra: seq<string>)
    ensures FromComponents(Segments(HermesTopic.Hotword(site, c)) + extra) == Some(HermesTopic.Hotword(site, c))
        <==> RoutedShape(HermesTopic.Hotword(site, c)) && (extra == [] || site.Some?)
  {
    RestAfterFamily(HermesTopic.Hotword(site, c), extra);
  }

  /** Audio server topics decode back when they have a routed shape, and then
      tolerate trailing components only after a `playBytes` file. */
  lemma DecodeAudioServer(site: Option<string>, c: AudioServerCommand, extra: seq<string>)
    ensures FromComponents(Segments(HermesTopic.AudioServer(site, c)) + extra) == Some(HermesTopic.AudioServer(site, c))
        <==> RoutedShape(HermesTopic.AudioServer(site, c)) && (extra == [] || c.PlayBytes?)
  {
    RestAfterFamily(HermesTopic.AudioServer(site, c), extra);
  }

  /** Introspection topics of the site-less families decode back whatever
      follows them. */
  lemma DecodeIntrospection(k: Component, c: ComponentCommand, extra: seq<string>)
    requires !k.Hotword? && !k.AudioServer?
    ensures FromComponents(Segments(HermesTopic.Component(None, k, c)) + extra) == Some(HermesTopic.Component(None, k, c))
  {
    RestAfterFamily(HermesTopic.Component(None, k, c), extra);
    match k {
      case Asr =>
      case Tts =>
      case Nlu =>
      case DialogueManager =>
    }
  }

  /** Introspection topics of the hotword detector and the audio server decode
      back after a site; only the hotword's tolerate trailing components. */
  lemma DecodeSitedIntrospection(site: string, k: Component, c: ComponentCommand, extra: seq<string>)
    requires k.Hotword? || k.AudioServer?
    ensures FromComponents(Segments(HermesTopic.Component(Some(site), k, c)) + extra) == Some(HermesTopic.Component(Some(site), k, c))
        <==> extra == [] || k.Hotword?
  {
    RestAfterFamily(HermesTopic.Component(Some(site), k, c), extra);
  }

  /** The decoder applied to a topic's components followed by `extra`
      components gives back the topic exactly when the topic has a routed
      shape and either nothing follows or its family ignores what follows. */
  lemma DecodeSegments(t: HermesTopic, extra: seq<string>)
    ensures FromComponents(Segments(t) + extra) == Some(t)
        <==> RoutedShape(t) && (extra == [] || AcceptsTrailing(t))
  {
    match t
    case Feedback(c) => DecodeFeedback(c, extra);
    case DialogueManager(c) => DecodeDialogueManager(c, extra);
    case Hotword(site, c) => DecodeHotword(site, c, extra);
    case Asr(c) => DecodeAsr(c, extra);
    case Tts(c) => DecodeTts(c, extra);
    case Nlu(c) => DecodeNlu(c, extra);
    case Intent(name) => DecodeIntent(name, extra);
    case AudioServer(site, c) => DecodeAudioServer(site, c, extra);
    case Component(site, k, c) =>
      if site.Some? && (k.Hotword? || k.AudioServer?) {
        DecodeSitedIntrospection(site.value, k, c, extra);
      } else if site.None? && !k.Hotword? && !k.AudioServer? {
        DecodeIntrospection(k, c, extra);
      }
  }

  // ---------------------------------------------------------------------
  // The decoder on paths

  /** A topic whose components begin a list of components that are normal
      after the first has valid free-form strings. */
  lemma PrefixValid(t: HermesTopic, comps: seq<string>)
    requires Segments(t) <= comps
    requires forall i :: 0 < i < |comps| ==> NormalComponent(comps[i])
    ensures SegmentsValid(t)
  {
    var segs := Segments(t);
    assert forall i :: 0 < i < |segs| ==> segs[i] == comps[i];
    match t
    case Hotword(Some(s), _) => assert segs[2] == s;
    case Intent(name) => assert segs[2] == name;
    case AudioServer(site, c) =>
      if site.Some? {
        assert segs[2] == site.value;
      }
      if c.PlayBytes? {
        assert segs[|segs| - 1] == c.file;
      }
    case Component(Some(s), _, _) => assert segs[2] == s;
    case _ =>
  }

  /** Whatever the decoder returns is canonical, and its own components
      begin the path's components. */
  lemma FromPathSound(p: string)
    ensures FromPath(p).Some? ==>
      Canonical(FromPath(p).value) && Segments(FromPath(p).value) <= Components(p)
  {
    if FromPath(p).Some? {
      PrefixValid(FromPath(p).value, Components(p));
    }
  }

  /** The round trip: decoding a topic's path gives the topic back exactly
      when the topic is canonical. */
  lemma RoundTrip(t: HermesTopic)
    ensures FromPath(ToPath(t)) == Some(t) <==> Canonical(t)
  {
    if SegmentsValid(t) {
      ComponentsOfPath(t);
      DecodeSegments(t, []);
      assert Segments(t) + [] == Segments(t);
    } else {
      FromPathSound(ToPath(t));
    }
  }

  /** The decoder in one statement: a path decodes to `t` exactly when `t`
      is canonical, its components begin the path's components, and either
      nothing follows them or `t`'s family ignores what follows. */
  lemma DecodeCharacterization(p: string, t: HermesTopic)
    ensures FromPath(p) == Some(t) <==>
      Canonical(t) && Segments(t) <= Components(p)
      && (|Components(p)| == |Segments(t)| || AcceptsTrailing(t))
  {
    var comps := Components(p);
    var segs := Segments(t);
    if segs <= comps {
      var extra := comps[|segs|..];
      assert comps == segs + extra;
      DecodeSegments(t, extra);
    }
    FromPathSound(p);
  }

  /** Decoding normalises: the path of a decoded topic decodes to the same
      topic. */
  lemma DecodeEncodeDecode(p: string)
    ensures FromPath(p).Some? ==> FromPath(ToPath(FromPath(p).value)) == FromPath(p)
  {
    if FromPath(p).Some? {
      FromPathSound(p);
      RoundTrip(FromPath(p).value);
    }
  }

  /** Distinct canonical topics have distinct paths. */
  lemma ToPathInjective(t1: HermesTopic, t2: HermesTopic)
    requires Canonical(t1) && Canonical(t2)
    requires ToPath(t1) == ToPath(t2)
    ensures t1 == t2
  {
    RoundTrip(t1);
    RoundTrip(t2);
  }

  /** The components of a valid topic's path with `/x` appended: the
      topic's own, then the components `x` adds. */
  lemma ComponentsOfTrailingPath(t: HermesTopic, x: string)
    requires SegmentsValid(t)
    ensures Components(ToPath(t) + "/" + x) == Segments(t) + Normalize(Split(x))
  {
    var p := ToPath(t);
    var segs := Segments(t);
    DisplayIsJoin(t);
    SegmentsNormal(t);
    SplitJoin(segs);
    SplitSlash(p, x);
    NormalizeAppend(segs, Split(x));
    NormalizeKeeps(segs);
    var q := p + "/" + x;
    assert q[0] == 'h' by { assert q[..7] == p[..7]; }
  }

  /** Appending `/x` to a canonical topic's path keeps the topic exactly
      when `x` adds no component or the topic's family ignores what follows. */
  lemma DecodeTrailingPath(t: HermesTopic, x: string)
    requires Canonical(t)
    ensures FromPath(ToPath(t) + "/" + x) == Some(t)
        <==> Normalize(Split(x)) == [] || AcceptsTrailing(t)
  {
    ComponentsOfTrailingPath(t, x);
    DecodeSegments(t, Normalize(Split(x)));
  }
}

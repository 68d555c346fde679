/** What the decoder does with paths that are not a canonical topic's own:
    absolute and "./" paths, the recogniser's listening commands, and
    free-form strings that hold a separator. */
module TopicQuirks {
  import opened Topics
  import opened PathComponents
  import opened TopicSpec
  import opened TopicCodec
  import opened TopicLaws

  /** An absolute path, or one that starts with "./", names no topic: its
      first component is the root or the current directory. */
  lemma RootedOrDottedRejected(p: string)
    ensures FromPath("/" + p) == None
    ensures FromPath("./" + p) == None
  {
    assert ("/" + p)[0] == '/';
    assert ("./" + p)[0] == '.';
  }

  /** The recogniser's listening commands are encoded but never decoded,
      whatever follows them. */
  lemma ListeningEncodedNotDecoded(c: AsrCommand, x: string)
    requires c.StartListening? || c.StopListening?
    ensures FromPath(ToPath(HermesTopic.Asr(c))) == None
    ensures FromPath(ToPath(HermesTopic.Asr(c)) + "/" + x) == None
  {
    var t := HermesTopic.Asr(c);
    ComponentsOfPath(t);
    DecodeAsr(c, []);
    assert Segments(t) + [] == Segments(t);
    ComponentsOfTrailingPath(t, x);
    DecodeAsr(c, Normalize(Split(x)));
  }

  /** The path of a sound `f/g` is the path of the sound `f` followed by
      `/g`. */
  lemma PlayBytesPathAppend(site: string, f: string, g: string)
    ensures ToPath(HermesTopic.AudioServer(Some(site), PlayBytes(Join([f, g]))))
      == ToPath(HermesTopic.AudioServer(Some(site), PlayBytes(f))) + "/" + g
  {
    var t := HermesTopic.AudioServer(Some(site), PlayBytes(Join([f, g])));
    var u := HermesTopic.AudioServer(Some(site), PlayBytes(f));
    DisplayIsJoin(t);
    DisplayIsJoin(u);
    var head := ["hermes", "audioServer", site, "playBytes"];
    assert Segments(t) == head + [Join([f, g])];
    assert Segments(u) == head + [f];
    JoinAppend(head, [Join([f, g])]);
    JoinAppend(head, [f, g]);
    assert head + [f, g] == (head + [f]) + [g];
    JoinAppend(head + [f], [g]);
    JoinAppend(head, [f]);
  }

  /** A sound name `f/g` at a valid site, where `f` is itself a valid
      component, comes back as the sound `f`. */
  lemma FileWithSeparatorTruncated(site: string, f: string, g: string)
    requires NormalComponent(site) && NormalComponent(f)
    ensures FromPath(ToPath(HermesTopic.AudioServer(Some(site), PlayBytes(Join([f, g])))))
      == Some(HermesTopic.AudioServer(Some(site), PlayBytes(f)))
  {
    PlayBytesPathAppend(site, f, g);
    DecodeTrailingPath(HermesTopic.AudioServer(Some(site), PlayBytes(f)), g);
  }

  /** Two different topics whose free-form strings hold separators share
      one path: a sound name `f/audioFrame` at `site`, and an audio frame at
      the site `site/playBytes/f`. */
  lemma SeparatorsBreakInjectivity(site: string, f: string)
    ensures HermesTopic.AudioServer(Some(site), PlayBytes(Join([f, "audioFrame"])))
      != HermesTopic.AudioServer(Some(Join([site, "playBytes", f])), AudioFrame)
    ensures ToPath(HermesTopic.AudioServer(Some(site), PlayBytes(Join([f, "audioFrame"]))))
      == ToPath(HermesTopic.AudioServer(Some(Join([site, "playBytes", f])), AudioFrame))
  {
    var file := Join([f, "audioFrame"]);
    var place := Join([site, "playBytes", f]);
    var t1 := HermesTopic.AudioServer(Some(site), PlayBytes(file));
    var t2 := HermesTopic.AudioServer(Some(place), AudioFrame);
    DisplayIsJoin(t1);
    DisplayIsJoin(t2);
    var a := ["hermes", "audioServer", site, "playBytes"];
    var b := ["hermes", "audioServer"];
    assert Segments(t1) == a + [file];
    assert Segments(t2) == (b + [place]) + ["audioFrame"];
    JoinAppend(a, [file]);
    JoinAppend(a, [f, "audioFrame"]);
    assert a + [f, "audioFrame"] == (b + [site, "playBytes", f]) + ["audioFrame"];
    JoinAppend(b + [site, "playBytes", f], ["audioFrame"]);
    JoinAppend(b, [site, "playBytes", f]);
    JoinAppend(b + [place], ["audioFrame"]);
    JoinAppend(b, [place]);
  }
}

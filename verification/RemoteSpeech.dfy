/** Whose text a remote run delivers as the assistant's. */
module RemoteSpeech {
  import opened Json
  import opened Wrappers
  import opened RemoteSpec
  import opened RemoteMeaning
  import Agui = AguiEvents
  import Spec = AguiSpec
  import Laws = AguiLaws
  import Shorthand = AguiShorthand
  import Wire = AguiWire

  /** The message is open, and the assistant's by its last start. */
  predicate AssistantOpen(v: Agui.View, id: string) {
    id in v.openText && v.openText[id].Assistant?
  }

  /** A start that gives the open message of the assistant to somebody else. */
  ghost predicate Usurps(before: seq<Agui.Event>, e: Agui.Event) {
    e.TextStarted? && !e.role.Assistant? && Speaks(before, e.id)
  }

  ghost predicate NeverUsurped(trace: seq<Agui.Event>) {
    trace == [] || (NeverUsurped(trace[..|trace| - 1]) && !Usurps(trace[..|trace| - 1], trace[|trace| - 1]))
  }

  /** At every moment, text is delivered only for a message that is the assistant's. */
  ghost predicate AlwaysAssistant(lib: Library, state: Value, trace: seq<Agui.Event>) {
    && (forall id :: Speaks(trace, id) ==> AssistantOpen(Agui.AbsorbAll(lib, Agui.Initial(state), trace), id))
    && (trace == [] || AlwaysAssistant(lib, state, trace[..|trace| - 1]))
  }

  predicate NoEnd(trace: seq<Agui.Event>) {
    forall i :: 0 <= i < |trace| ==> !Agui.IsTerminal(trace[i])
  }

  lemma {:induction false} OneMoreSpeech(lib: Library, v: Agui.View, e: Agui.Event, id: string)
    requires !Agui.IsTerminal(e)
    ensures AssistantOpen(Agui.Absorb(lib, v, e), id) <==>
            StartsSpeech(e, id)
            || (AssistantOpen(v, id) && e != Agui.TextEnded(id) && !(e.TextStarted? && e.id == id))
  {
  }

  /** The assistant's open messages are always delivered. */
  lemma {:induction false} AssistantSpeaks(lib: Library, state: Value, trace: seq<Agui.Event>, id: string)
    requires NoEnd(trace) && AssistantOpen(Agui.AbsorbAll(lib, Agui.Initial(state), trace), id)
    ensures Speaks(trace, id)
  {
    var front, e := trace[..|trace| - 1], trace[|trace| - 1];
    OneMoreSpeech(lib, Agui.AbsorbAll(lib, Agui.Initial(state), front), e, id);
    SpeaksSnoc(front, e, id);
    assert trace == front + [e];
    if !StartsSpeech(e, id) {
      AssistantSpeaks(lib, state, front, id);
    }
  }

  lemma {:induction false} UsurpedStep(lib: Library, state: Value, front: seq<Agui.Event>, e: Agui.Event)
    requires NoEnd(front) && !Agui.IsTerminal(e)
    requires forall id :: Speaks(front, id) ==> AssistantOpen(Agui.AbsorbAll(lib, Agui.Initial(state), front), id)
    ensures var v := Agui.Absorb(lib, Agui.AbsorbAll(lib, Agui.Initial(state), front), e);
            (forall id :: Speaks(front + [e], id) ==> AssistantOpen(v, id)) <==> !Usurps(front, e)
  {
    var before := Agui.AbsorbAll(lib, Agui.Initial(state), front);
    forall id
      ensures Speaks(front + [e], id) <==> StartsSpeech(e, id) || (Speaks(front, id) && e != Agui.TextEnded(id))
      ensures AssistantOpen(Agui.Absorb(lib, before, e), id) <==>
              StartsSpeech(e, id) || (AssistantOpen(before, id) && e != Agui.TextEnded(id) && !(e.TextStarted? && e.id == id))
    {
      SpeaksSnoc(front, e, id);
      OneMoreSpeech(lib, before, e, id);
    }
  }

  /** Only the assistant's text is delivered, at every moment, exactly if no other start takes its open message. */
  lemma {:induction false} SpeechLaw(lib: Library, state: Value, trace: seq<Agui.Event>)
    requires NoEnd(trace)
    ensures AlwaysAssistant(lib, state, trace) <==> NeverUsurped(trace)
  {
    if trace != [] {
      var front, e := trace[..|trace| - 1], trace[|trace| - 1];
      SpeechLaw(lib, state, front);
      assert trace == front + [e];
      if NeverUsurped(front) {
        UsurpedStep(lib, state, front, e);
      }
    }
  }

  /** No trace of explicit events lets a start take an open message. */
  lemma {:induction false} ExplicitNeverUsurps(c: Spec.Context, state: Value, trace: seq<Agui.Event>)
    requires Wire.AdmissibleAll(c, Agui.Initial(state), trace) && NoEnd(trace)
    ensures NeverUsurped(trace) && AlwaysAssistant(c.lib, state, trace)
  {
    if trace != [] {
      var front, e := trace[..|trace| - 1], trace[|trace| - 1];
      ExplicitNeverUsurps(c, state, front);
      SpeechLaw(c.lib, state, trace);
    }
  }

  // ---------------------------------------------------------------------------------------------
  // A chunk can put the text of a user into the mouth of the assistant
  // ---------------------------------------------------------------------------------------------

  const ASSISTANT: Agui.Event := Agui.TextStarted("a", Agui.Assistant, None)
  const USER: Agui.Event := Agui.TextStarted("a", Agui.User, None)
  const TEXT: Agui.Event := Agui.TextDelta("a", "x")

  /** A chunk of a user's message that takes the id of an assistant's message still open. */
  function UserChunk(): Fields {
    Shorthand.Typed("TEXT_MESSAGE_CHUNK", map["messageId" := Str("a"), "role" := Str("user"), "delta" := Str("x")])
  }

  lemma {:induction false} ShortStrings()
    ensures Spec.ValidId("a") && Wire.FitsText("a") && Wire.FitsText("x")
  {
    Wire.AsciiBytes("a");
    Wire.AsciiBytes("x");
  }

  lemma {:induction false} OpeningAdmissible(c: Spec.Context, state: Value)
    requires c.threadId != "" && c.runId != ""
    ensures Wire.AdmissibleAll(c, Agui.Initial(state), [Agui.RunStarted, ASSISTANT])
  {
    var trace, v := [Agui.RunStarted, ASSISTANT], Agui.Initial(state);
    ShortStrings();
    assert trace[..1] == [Agui.RunStarted] && [Agui.RunStarted][..0] == [];
    assert Agui.AbsorbAll(c.lib, v, []) == v;
    assert Wire.Admissible(c, v, Agui.RunStarted);
    assert Agui.AbsorbAll(c.lib, v, [Agui.RunStarted]) == v.(started := true);
  }

  lemma {:induction false} ChunkReopens(c: Spec.Context, s: Spec.State)
    requires Laws.Idle(s) && s.view.started && !s.view.terminal
    ensures Shorthand.IngestNext(c, s, UserChunk()).Ok?
    ensures Shorthand.IngestNext(c, s, UserChunk()).value.out == [USER, TEXT]
  {
    var o := UserChunk();
    ShortStrings();
    Wire.TypedTag("TEXT_MESSAGE_CHUNK", map["messageId" := Str("a"), "role" := Str("user"), "delta" := Str("x")]);
    Shorthand.IdleIngest(c, s, o, Spec.TagTextChunk);
    assert Spec.OptionalString(o, "messageId") == Ok(Some("a")) && Spec.OptionalText(o, "delta") == Ok(Some("x"));
    assert Spec.OptionalString(o, "name") == Ok(None) && Spec.ParseTextRole(Get(o, "role")) == Ok(Agui.User);
    assert Spec.TextChunk(c, s, o).value.out == [] + [USER] + [TEXT];
  }

  lemma {:induction false} UserSpeaks(cfg: Config, state: Value)
    requires cfg.context.threadId != "" && cfg.context.runId != ""
    ensures Usurps([Agui.RunStarted, ASSISTANT], USER)
    ensures var os := Wire.WireAll(cfg.context, [Agui.RunStarted, ASSISTANT]) + [UserChunk()];
            var r := Shorthand.FeedObjects(cfg.context, Spec.Start(state), os);
            r.Ok? && r.value.out == [Agui.RunStarted, ASSISTANT, USER, TEXT]
            && Meaning(cfg, state, r.value.out) == [Opened(cfg.responseId), Said("x")]
  {
    var c, opening := cfg.context, [Agui.RunStarted, ASSISTANT];
    OpeningAdmissible(c, state);
    Wire.SpellingMeansTrace(c, Spec.Start(state), opening);
    var s := Wire.Told(c, Spec.Start(state), opening);
    Laws.AbsorbPhase(c.lib, Agui.AbsorbAll(c.lib, Agui.Initial(state), opening[..1]), ASSISTANT);
    ChunkReopens(c, s);
    Shorthand.FeedOne(c, s, UserChunk());
    Shorthand.FeedJoin(c, Spec.Start(state), Wire.WireAll(c, opening), [UserChunk()]);
    MeaningOfUser(cfg, state);
    assert opening == [Agui.RunStarted] + [ASSISTANT];
    SpeaksSnoc([Agui.RunStarted], ASSISTANT, "a");
  }

  lemma {:induction false} UserUnderAssistant()
    ensures Speaks([Agui.RunStarted, ASSISTANT, USER], "a")
  {
    SpeaksSnoc([Agui.RunStarted], ASSISTANT, "a");
    SpeaksSnoc([Agui.RunStarted, ASSISTANT], USER, "a");
    assert [Agui.RunStarted] + [ASSISTANT] == [Agui.RunStarted, ASSISTANT];
    assert [Agui.RunStarted, ASSISTANT] + [USER] == [Agui.RunStarted, ASSISTANT, USER];
  }

  lemma {:induction false} MeaningBeforeText(cfg: Config, state: Value)
    ensures Meaning(cfg, state, [Agui.RunStarted, ASSISTANT, USER]) == [Opened(cfg.responseId)]
  {
    var none: seq<Agui.Event> := [];
    MeaningSnoc(cfg, state, none, Agui.RunStarted);
    MeaningSnoc(cfg, state, [Agui.RunStarted], ASSISTANT);
    MeaningSnoc(cfg, state, [Agui.RunStarted, ASSISTANT], USER);
    assert none + [Agui.RunStarted] == [Agui.RunStarted];
    assert [Agui.RunStarted] + [ASSISTANT] == [Agui.RunStarted, ASSISTANT];
    assert [Agui.RunStarted, ASSISTANT] + [USER] == [Agui.RunStarted, ASSISTANT, USER];
  }

  lemma {:induction false} MeaningOfUser(cfg: Config, state: Value)
    ensures Meaning(cfg, state, [Agui.RunStarted, ASSISTANT, USER, TEXT]) == [Opened(cfg.responseId), Said("x")]
  {
    UserUnderAssistant();
    MeaningBeforeText(cfg, state);
    MeaningSnoc(cfg, state, [Agui.RunStarted, ASSISTANT, USER], TEXT);
    assert [Agui.RunStarted, ASSISTANT, USER] + [TEXT] == [Agui.RunStarted, ASSISTANT, USER, TEXT];
  }
}

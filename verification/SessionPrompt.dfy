/**
Prompts to a retained session: only sections whose text changed are sent again, and an assignment the
session already holds is replaced by a resume line. What the session knows afterwards is what it would
know had everything been sent.
*/
module SessionPrompt {
  import opened Basics

  const RECOVERY_LIMIT: nat := 3
  const RESUMED_BODY: string := "Resume the assignment already in this conversation. It was interrupted, not restated. "
    + "Continue from where you stopped and do not answer it a second time."
  const HISTORY_OPENS: string := "<conversation_history>\n"
  const HISTORY_CLOSES: string := "</conversation_history>\nContinue from this complete durable history. "
    + "Do not ask for details already present above.\n"

  datatype Section = Section(key: string, text: string)

  datatype Composed = Composed(sections: seq<Section>, body: string, bodyKey: Option<string>)

  datatype Request = Request(session: Option<nat>, composed: Composed, prior: Option<string>)

  /** The pieces a prompt is rendered from; a session's transcript is the list of all it was sent. */
  datatype Part =
    | SectionPart(key: string, text: string)
    | BodyPart(bodyKey: Option<string>, text: string)
    | ResumePart
    | HistoryPart(text: string)

  function RenderPart(p: Part): string {
    match p
    case SectionPart(_, text) => text + "\n"
    case BodyPart(_, text) => text
    case ResumePart => RESUMED_BODY
    case HistoryPart(text) => HISTORY_OPENS + text + HISTORY_CLOSES
  }

  function Render(parts: seq<Part>): string {
    if parts == [] then "" else Render(parts[..|parts| - 1]) + RenderPart(parts[|parts| - 1])
  }

  /** The last text told under each key. */
  function Knowledge(transcript: seq<Part>): map<string, string> {
    if transcript == [] then map[]
    else Learnt(Knowledge(transcript[..|transcript| - 1]), transcript[|transcript| - 1])
  }

  function Learnt(known: map<string, string>, p: Part): map<string, string> {
    if p.SectionPart? then known[p.key := p.text] else known
  }

  predicate BodyTold(transcript: seq<Part>, key: string, text: string) {
    BodyPart(Some(key), text) in transcript
  }

  predicate AgreesWith(known: map<string, string>, truth: map<string, string>) {
    forall k :: k in known ==> k in truth && truth[k] == known[k]
  }

  /** The delivery maps never claim anything the transcript does not hold. */
  predicate DeliveredOk(sections: map<string, string>, bodies: map<string, string>, transcript: seq<Part>) {
    AgreesWith(sections, Knowledge(transcript)) && forall k :: k in bodies ==> BodyTold(transcript, k, bodies[k])
  }

  /** The simple form: every section. */
  function AllParts(sections: seq<Section>): seq<Part> {
    if sections == [] then [] else [SectionPart(sections[0].key, sections[0].text)] + AllParts(sections[1..])
  }

  predicate IsKnown(known: map<string, string>, s: Section) {
    s.key in known && known[s.key] == s.text
  }

  function Told(known: map<string, string>, s: Section): map<string, string> {
    known[s.key := s.text]
  }

  /** The fast form: the sections that differ from what was delivered last. */
  function DeltaParts(known: map<string, string>, sections: seq<Section>): seq<Part>
    decreases |sections|
  {
    if sections == [] then []
    else if IsKnown(known, sections[0]) then DeltaParts(known, sections[1..])
    else [SectionPart(sections[0].key, sections[0].text)] + DeltaParts(Told(known, sections[0]), sections[1..])
  }

  function ToldAll(known: map<string, string>, sections: seq<Section>): map<string, string>
    decreases |sections|
  {
    if sections == [] then known else ToldAll(Told(known, sections[0]), sections[1..])
  }

  lemma KnowledgeOneMore(transcript: seq<Part>, p: Part)
    ensures Knowledge(transcript + [p]) == Learnt(Knowledge(transcript), p)
  {
  }

  lemma {:induction false} KnowledgeOfAll(t: seq<Part>, sections: seq<Section>)
    ensures Knowledge(t + AllParts(sections)) == ToldAll(Knowledge(t), sections)
    decreases |sections|
  {
    if sections == [] {
      assert t + [] == t;
    } else {
      hide Knowledge;
      var p, rest := SectionPart(sections[0].key, sections[0].text), AllParts(sections[1..]);
      KnowledgeOneMore(t, p);
      KnowledgeOfAll(t + [p], sections[1..]);
      assert t + ([p] + rest) == t + [p] + rest;
    }
  }

  /** The delta teaches exactly what the full prompt would, and the delivery map stays true. */
  lemma {:induction false} DeltaTeachesTheSame(known: map<string, string>, t: seq<Part>, sections: seq<Section>)
    requires AgreesWith(known, Knowledge(t))
    ensures Knowledge(t + DeltaParts(known, sections)) == ToldAll(Knowledge(t), sections)
    ensures AgreesWith(ToldAll(known, sections), Knowledge(t + DeltaParts(known, sections)))
    decreases |sections|
  {
    if sections == [] {
      assert t + [] == t;
    } else {
      var s := sections[0];
      if IsKnown(known, s) {
        assert Told(known, s) == known && Told(Knowledge(t), s) == Knowledge(t);
        DeltaTeachesTheSame(known, t, sections[1..]);
      } else {
        var p := SectionPart(s.key, s.text);
        KnowledgeOneMore(t, p);
        DeltaTeachesTheSame(Told(known, s), t + [p], sections[1..]);
        assert t + DeltaParts(known, sections) == t + [p] + DeltaParts(Told(known, s), sections[1..]);
      }
    }
  }

  predicate DistinctKeys(sections: seq<Section>) {
    forall i, j :: 0 <= i < j < |sections| ==> sections[i].key != sections[j].key
  }

  /** Sent are exactly the sections whose text is not the one known under their key. */
  lemma {:induction false} DeltaSendsTheChanged(known: map<string, string>, sections: seq<Section>, p: Part)
    requires DistinctKeys(sections)
    ensures p in DeltaParts(known, sections) <==>
      p.SectionPart? && Section(p.key, p.text) in sections && !(p.key in known && known[p.key] == p.text)
    decreases |sections|
  {
    if sections != [] {
      var s, rest := sections[0], sections[1..];
      forall i, j | 0 <= i < j < |rest|
        ensures rest[i].key != rest[j].key
      {
        assert rest[i] == sections[i + 1] && rest[j] == sections[j + 1];
      }
      forall x | x in rest
        ensures x.key != s.key
      {
        var j :| 0 <= j < |rest| && rest[j] == x;
        assert sections[j + 1] == x;
      }
      DeltaSendsTheChanged(if IsKnown(known, s) then known else Told(known, s), rest, p);
      assert sections == [s] + rest;
    }
  }

  lemma {:induction false} EverySectionIsTold(known: map<string, string>, sections: seq<Section>)
    requires DistinctKeys(sections)
    ensures forall i :: 0 <= i < |sections| ==> IsKnown(ToldAll(known, sections), sections[i])
    ensures forall k :: k in known && (forall i :: 0 <= i < |sections| ==> sections[i].key != k) ==>
      k in ToldAll(known, sections) && ToldAll(known, sections)[k] == known[k]
    decreases |sections|
  {
    if sections != [] {
      EverySectionIsTold(Told(known, sections[0]), sections[1..]);
      forall i | 0 <= i < |sections|
        ensures IsKnown(ToldAll(known, sections), sections[i])
      {
        if i > 0 {
          assert sections[i] == sections[1..][i - 1];
        }
      }
    }
  }

  lemma RenderOneMore(parts: seq<Part>, p: Part)
    ensures Render(parts + [p]) == Render(parts) + RenderPart(p)
  {
  }

  lemma {:induction false} RenderJoins(a: seq<Part>, b: seq<Part>)
    ensures Render(a + b) == Render(a) + Render(b)
    decreases |b|
  {
    hide RenderPart;
    if b == [] {
      assert a + b == a;
    } else {
      hide Render;
      var rest, last := b[..|b| - 1], b[|b| - 1];
      RenderJoins(a, rest);
      RenderOneMore(a + rest, last);
      RenderOneMore(rest, last);
      assert rest + [last] == b && a + b == a + rest + [last];
    }
  }

  /** The section list `build` composes; each block is present under its own condition. */
  function BuildSections(mode: Option<string>, role: string, search: Option<string>, peers: Option<string>,
                         runtime: Option<string>): (sections: seq<Section>)
    ensures DistinctKeys(sections)
  {
    (if mode.Some? then [Section("mode", mode.value)] else []) + [Section("role", role)]
    + (if search.Some? then [Section("search", search.value)] else [])
    + (if peers.Some? then [Section("peers", peers.value)] else [])
    + (if runtime.Some? then [Section("runtime", runtime.value)] else [])
  }

  function BodyParts(c: Composed, repeated: bool): seq<Part> {
    if repeated then [ResumePart] else [BodyPart(c.bodyKey, c.body)]
  }

  function HistoryParts(r: Request, isNew: bool): seq<Part> {
    if isNew && r.prior.Some? && r.prior.value != "" then [HistoryPart(r.prior.value)] else []
  }

  /** What a session must hold after a prompt for this assignment. */
  predicate Informed(transcript: seq<Part>, c: Composed) {
    && (forall i :: 0 <= i < |c.sections| ==> IsKnown(Knowledge(transcript), c.sections[i]))
    && (if c.bodyKey.Some? then BodyTold(transcript, c.bodyKey.value, c.body) else BodyPart(None, c.body) in transcript)
  }

  /** How one try of a run goes; `reached` says whether the prompt got into the session. */
  datatype Outcome = Done | CleanlyCancelled | Broke(needsFresh: bool)

  datatype Try =
    | StartFails(needsFresh: bool)
    | StartCancelled(reusable: bool)
    | Runs(started: nat, reusable: bool, outcome: Outcome, reached: bool)

  datatype RunEnd = Success | CancelledEarly | CancelledInTurn | Failure

  /** A job that ends well, or is cleanly cancelled, had reached its session. */
  ghost predicate JobsReach(tries: nat -> Try) {
    forall i :: tries(i).Runs? && !tries(i).outcome.Broke? ==> tries(i).reached
  }

  /** `retry_same_task` */
  predicate RetrySameTask(needsFresh: bool, recoveries: nat) {
    recoveries < RECOVERY_LIMIT && needsFresh
  }

  class Runner {
    /** The session of the live entry, if there is one, and its delivery maps. */
    var session: Option<nat>
    var deliveredSections: map<string, string>
    var deliveredBodies: map<string, string>
    /** What every session was really sent. */
    ghost var transcripts: map<nat, seq<Part>>

    constructor ()
      ensures Valid() && session.None? && transcripts == map[]
    {
      session, deliveredSections, deliveredBodies, transcripts := None, map[], map[], map[];
    }

    ghost function Sent(id: nat): seq<Part>
      reads this
    {
      if id in transcripts then transcripts[id] else []
    }

    ghost predicate Valid()
      reads this
    {
      session.Some? ==> DeliveredOk(deliveredSections, deliveredBodies, Sent(session.value))
    }

    /** `prompt_for_session`; `sent` is what the live session was sent before. */
    method PromptForSession(r: Request, live: nat, ghost sent: seq<Part>)
      returns (prompt: string, ghost parts: seq<Part>)
      requires DeliveredOk(deliveredSections, deliveredBodies, sent)
      modifies this`deliveredSections, this`deliveredBodies
      ensures prompt == Render(parts)
      ensures DeliveredOk(deliveredSections, deliveredBodies, sent + parts)
      ensures Knowledge(sent + parts) == Knowledge(sent + AllParts(r.composed.sections))
      ensures DistinctKeys(r.composed.sections) ==> Informed(sent + parts, r.composed)
      ensures DistinctKeys(r.composed.sections) ==> forall key, text ::
        (SectionPart(key, text) in parts <==>
           && Section(key, text) in r.composed.sections
           && (r.session == Some(live) && key in old(deliveredSections) ==> old(deliveredSections)[key] != text))
      ensures ResumePart in parts <==>
        && r.session == Some(live) && r.composed.bodyKey.Some? && r.composed.bodyKey.value in old(deliveredBodies)
        && old(deliveredBodies)[r.composed.bodyKey.value] == r.composed.body
      ensures ResumePart !in parts ==> BodyPart(r.composed.bodyKey, r.composed.body) in parts
      ensures forall text :: HistoryPart(text) in parts <==>
        r.session != Some(live) && r.prior == Some(text) && text != ""
      ensures var isNew := r.session != Some(live);
        var known := if isNew then map[] else old(deliveredSections);
        var repeated := !isNew && r.composed.bodyKey.Some? && r.composed.bodyKey.value in old(deliveredBodies)
                        && old(deliveredBodies)[r.composed.bodyKey.value] == r.composed.body;
        parts == HistoryParts(r, isNew) + DeltaParts(known, r.composed.sections) + BodyParts(r.composed, repeated)
    {
      hide Knowledge, DeltaParts, ToldAll, Render, RenderPart, AllParts, Informed;
      hide RESUMED_BODY, HISTORY_OPENS, HISTORY_CLOSES;
      var c := r.composed;
      var isNew := r.session != Some(live);
      if isNew {
        deliveredSections, deliveredBodies := map[], map[];
      }
      ghost var known := deliveredSections;
      var repeated :=
        c.bodyKey.Some? && c.bodyKey.value in deliveredBodies && deliveredBodies[c.bodyKey.value] == c.body;
      if !repeated && c.bodyKey.Some? {
        deliveredBodies := deliveredBodies[c.bodyKey.value := c.body];
      }
      var text;
      ghost var told;
      text, told := RenderSections(c.sections);
      ghost var history, body := HistoryParts(r, isNew), BodyParts(c, repeated);
      prompt := text + (if repeated then RESUMED_BODY else c.body);
      if isNew && r.prior.Some? && r.prior.value != "" {
        prompt := HISTORY_OPENS + r.prior.value + HISTORY_CLOSES + prompt;
      }
      parts := history + told + body;
      PartsInWords(known, c, history, told, body, repeated, r, isNew);
      PromptIsRendered(history, told, body, c, repeated);
      SessionIsInformed(sent, known, c, history, repeated);
      BodiesStayTold(sent, parts, deliveredBodies, c, repeated);
    }

    /** The loop of `render_body`: sends the sections whose text is not the one delivered last. */
    method RenderSections(sections: seq<Section>) returns (text: string, ghost told: seq<Part>)
      modifies this`deliveredSections
      ensures told == DeltaParts(old(deliveredSections), sections) && text == Render(told)
      ensures deliveredSections == ToldAll(old(deliveredSections), sections)
    {
      hide Render, RenderPart;
      text, told := "", [];
      NothingRendered();
      for i := 0 to |sections|
        invariant told + DeltaParts(deliveredSections, sections[i..]) == DeltaParts(old(deliveredSections), sections)
        invariant ToldAll(deliveredSections, sections[i..]) == ToldAll(old(deliveredSections), sections)
        invariant text == Render(told)
      {
        var s := sections[i];
        assert sections[i..][1..] == sections[i + 1..];
        if IsKnown(deliveredSections, s) {
          assert Told(deliveredSections, s) == deliveredSections;
        } else {
          var p := SectionPart(s.key, s.text);
          SectionIsRendered(told, p);
          deliveredSections := deliveredSections[s.key := s.text];
          text, told := text + s.text + "\n", told + [p];
        }
      }
    }

    /**
    `execute_with`: at most three recoveries; whenever a turn reached its session, that session has been
    told every section's current text and the assignment verbatim, and the delivery maps stay true.
    */
    method Execute(r: Request, tries: nat -> Try, cancelRequested: bool) returns (end: RunEnd, attempts: nat)
      requires Valid() && JobsReach(tries)
      modifies this
      ensures Valid() && 1 <= attempts <= RECOVERY_LIMIT + 1
      ensures (end.Success? || end.CancelledInTurn?) && DistinctKeys(r.composed.sections) ==>
        session.Some? && Informed(Sent(session.value), r.composed)
      ensures end.Failure? ==> session.None?
      ensures forall i :: 0 <= i < attempts - 1 ==>
        && (tries(i).StartFails? || (tries(i).Runs? && tries(i).outcome.Broke?))
        && (if tries(i).Runs? then tries(i).outcome.needsFresh else tries(i).needsFresh)
      ensures var last := tries(attempts - 1);
        match end
        case Success => last.Runs? && last.outcome.Done?
        case CancelledEarly => last.StartCancelled?
        case CancelledInTurn => last.Runs? && last.outcome.CleanlyCancelled? && cancelRequested
        case Failure =>
          if last.StartFails? then last.needsFresh ==> attempts == 4
          else
            && last.Runs? && !last.outcome.Done? && (last.outcome.CleanlyCancelled? ==> !cancelRequested)
            && (last.outcome.Broke? && last.outcome.needsFresh ==> attempts == 4)
    {
      hide DeliveredOk, Informed, Knowledge, Render, AllParts, DeltaParts;
      var requested, recoveries := r.session, 0;
      attempts := 0;
      while true
        invariant Valid() && attempts == recoveries <= RECOVERY_LIMIT
        invariant forall i :: 0 <= i < attempts ==>
          && (tries(i).StartFails? || (tries(i).Runs? && tries(i).outcome.Broke?))
          && (if tries(i).Runs? then tries(i).outcome.needsFresh else tries(i).needsFresh)
        decreases RECOVERY_LIMIT - recoveries
      {
        var try := tries(attempts);
        attempts := attempts + 1;
        match try
        case StartCancelled(reusable) =>
          if session != requested || !reusable {
            session := None;
          }
          return CancelledEarly, attempts;
        case StartFails(needsFresh) =>
          session := None;
          if !RetrySameTask(needsFresh, recoveries) {
            return Failure, attempts;
          }
          recoveries, requested := recoveries + 1, None;
        case Runs(started, reusable, outcome, reached) =>
          if session.None? || session != requested || !reusable {
            session, deliveredSections, deliveredBodies := Some(started), map[], map[];
            NothingClaimed(Sent(started));
          }
          var live := session.value;
          ghost var sent := Sent(live);
          var prompt;
          ghost var parts;
          prompt, parts := PromptForSession(r.(session := requested), live, sent);
          requested := Some(live);
          if reached {
            transcripts := transcripts[live := sent + parts];
          }
          if outcome.Done? {
            return Success, attempts;
          }
          if outcome.CleanlyCancelled? && cancelRequested {
            return CancelledInTurn, attempts;
          }
          session := None;
          var needsFresh := outcome.Broke? && outcome.needsFresh;
          if needsFresh {
            requested := None;
          }
          if !RetrySameTask(needsFresh, recoveries) {
            return Failure, attempts;
          }
          recoveries := recoveries + 1;
      }
    }
  }

  lemma PartsInWords(known: map<string, string>, c: Composed, history: seq<Part>, told: seq<Part>, body: seq<Part>,
                     repeated: bool, r: Request, isNew: bool)
    requires told == DeltaParts(known, c.sections) && history == HistoryParts(r, isNew)
    requires body == BodyParts(c, repeated)
    ensures var parts := history + told + body;
      && (DistinctKeys(c.sections) ==> forall key, text :: SectionPart(key, text) in parts <==>
            Section(key, text) in c.sections && !(key in known && known[key] == text))
      && (ResumePart in parts <==> repeated)
      && (!repeated ==> BodyPart(c.bodyKey, c.body) in parts)
      && (forall text :: HistoryPart(text) in parts <==> isNew && r.prior == Some(text) && text != "")
  {
    OnlySectionsInDelta(known, c.sections);
    if DistinctKeys(c.sections) {
      forall key, text
        ensures SectionPart(key, text) in told <==>
          Section(key, text) in c.sections && !(key in known && known[key] == text)
      {
        DeltaSendsTheChanged(known, c.sections, SectionPart(key, text));
      }
    }
  }

  lemma {:induction false} OnlySectionsInDelta(known: map<string, string>, sections: seq<Section>)
    ensures forall p :: p in DeltaParts(known, sections) ==> p.SectionPart?
    decreases |sections|
  {
    if sections != [] {
      var s := sections[0];
      OnlySectionsInDelta(if IsKnown(known, s) then known else Told(known, s), sections[1..]);
    }
  }

  lemma NothingClaimed(transcript: seq<Part>)
    ensures DeliveredOk(map[], map[], transcript)
  {
  }

  lemma NothingRendered()
    ensures Render([]) == ""
  {
  }

  lemma SectionIsRendered(told: seq<Part>, p: Part)
    requires p.SectionPart?
    ensures Render(told + [p]) == Render(told) + p.text + "\n"
  {
  }

  lemma RenderOne(p: Part)
    ensures Render([p]) == RenderPart(p)
  {
  }

  lemma BodyIsRendered(c: Composed, repeated: bool)
    ensures Render(BodyParts(c, repeated)) == if repeated then RESUMED_BODY else c.body
  {
  }

  lemma PromptIsRendered(history: seq<Part>, told: seq<Part>, body: seq<Part>, c: Composed, repeated: bool)
    requires history == [] || (|history| == 1 && history[0].HistoryPart?)
    requires body == BodyParts(c, repeated)
    ensures var text := Render(told) + (if repeated then RESUMED_BODY else c.body);
      Render(history + told + body) ==
        if history == [] then text else HISTORY_OPENS + history[0].text + HISTORY_CLOSES + text
  {
    hide RESUMED_BODY, HISTORY_OPENS, HISTORY_CLOSES, Render, BodyParts;
    RenderJoins(history, told);
    RenderJoins(history + told, body);
    BodyIsRendered(c, repeated);
    if history == [] {
      assert history + told == told;
    } else {
      RenderOne(history[0]);
      assert history == [history[0]];
    }
  }

  lemma QuietPart(t: seq<Part>, parts: seq<Part>)
    requires |parts| <= 1 && forall p :: p in parts ==> !p.SectionPart?
    ensures Knowledge(t + parts) == Knowledge(t)
  {
    if parts == [] {
      assert t + parts == t;
    } else {
      assert parts == [parts[0]];
      KnowledgeOneMore(t, parts[0]);
    }
  }

  /** History before the delta and body after it teach nothing under any key. */
  lemma DeltaOnTop(sent: seq<Part>, known: map<string, string>, sections: seq<Section>, history: seq<Part>,
                   body: seq<Part>)
    requires AgreesWith(known, Knowledge(sent))
    requires |history| <= 1 && |body| <= 1 && forall p :: p in history + body ==> !p.SectionPart?
    ensures var parts := history + DeltaParts(known, sections) + body;
      && Knowledge(sent + parts) == Knowledge(sent + AllParts(sections)) == ToldAll(Knowledge(sent), sections)
      && AgreesWith(ToldAll(known, sections), Knowledge(sent + parts))
  {
    hide Knowledge, DeltaParts, ToldAll, AllParts, AgreesWith;
    var delta := DeltaParts(known, sections);
    assert forall p :: p in history ==> p in history + body;
    assert forall p :: p in body ==> p in history + body;
    QuietPart(sent, history);
    DeltaTeachesTheSame(known, sent + history, sections);
    QuietPart(sent + history + delta, body);
    KnowledgeOfAll(sent, sections);
    assert sent + (history + delta + body) == sent + history + delta + body;
  }

  lemma SessionIsInformed(sent: seq<Part>, known: map<string, string>, c: Composed, history: seq<Part>, repeated: bool)
    requires AgreesWith(known, Knowledge(sent))
    requires |history| <= 1 && forall p :: p in history ==> p.HistoryPart?
    requires repeated ==> c.bodyKey.Some? && BodyTold(sent, c.bodyKey.value, c.body)
    ensures var parts := history + DeltaParts(known, c.sections) + BodyParts(c, repeated);
      && Knowledge(sent + parts) == Knowledge(sent + AllParts(c.sections))
      && AgreesWith(ToldAll(known, c.sections), Knowledge(sent + parts))
      && (DistinctKeys(c.sections) ==> Informed(sent + parts, c))
  {
    hide Knowledge, DeltaParts, ToldAll, AllParts, AgreesWith;
    DeltaOnTop(sent, known, c.sections, history, BodyParts(c, repeated));
    if DistinctKeys(c.sections) {
      EverySectionIsTold(Knowledge(sent), c.sections);
    }
    assert !repeated ==> BodyParts(c, repeated)[0] == BodyPart(c.bodyKey, c.body);
  }

  lemma BodiesStayTold(sent: seq<Part>, parts: seq<Part>, bodies: map<string, string>, c: Composed, repeated: bool)
    requires BodyParts(c, repeated)[0] in parts
    requires forall k :: k in bodies ==>
      BodyTold(sent, k, bodies[k]) || (!repeated && c.bodyKey == Some(k) && bodies[k] == c.body)
    ensures forall k :: k in bodies ==> BodyTold(sent + parts, k, bodies[k])
  {
  }
}

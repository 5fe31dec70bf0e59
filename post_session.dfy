/** The post-session summariser (app/post_session.py,
    `generate_session_summary`). Reading the event table, the text-generation
    backend and `finalize_session` are external: the table is a parameter,
    what the backend produced for the prompt is an oracle `Stream`, and the
    calls the task makes to the backend and to `finalize_session` are
    returned as its list of effects. */
module PostSession {
  import opened Text
  import opened Llm
  import opened Db

  /** The summary stored for a session with no events. */
  const NoDataSummary: string := "No conversation data."

  /** The lines of fixed text before the transcript in the summary prompt. */
  const PromptHeadLines: seq<string> := [
    "\n",
    "You are an AI assistant summarizing a conversation session.\n",
    "\n",
    "Provide a concise, high-level summary (3\U{2013}4 sentences max)\n",
    "focusing on:\n",
    "- main topics discussed\n",
    "- user intent\n",
    "- outcomes or conclusions\n",
    "\n",
    "Conversation:\n"
  ]

  /** The fixed text before and after the transcript in the summary prompt. */
  function PromptHead(): string
  {
    Concat(PromptHeadLines)
  }
  const PromptTail: string := "\n"

  /** The two calls the task can make. */
  datatype TaskEffect = Generate(prompt: string) | Finalize(sessionId: string, summary: string)

  /** One transcript line: the upper-cased role label, a colon, the content. */
  function Line(r: Row): string
  {
    Upper(r.role) + ": " + r.content + "\n"
  }

  /** The two role labels the relay logs read back upper-cased. */
  lemma RoleLabels()
    ensures Upper(RoleName(User)) == "USER"
    ensures Upper(RoleName(Assistant)) == "ASSISTANT"
  {
    var u := Upper("user");
    assert u == [u[0], u[1], u[2], u[3]];
    var a := Upper("assistant");
    assert a == [a[0], a[1], a[2], a[3], a[4], a[5], a[6], a[7], a[8]];
  }

  /** The transcript: the events' lines in order. */
  function Transcript(rows: seq<Row>): string
  {
    if rows == [] then "" else Line(rows[0]) + Transcript(rows[1..])
  }

  /** The summary prompt with the transcript inserted. */
  function Prompt(conversation: string): string
  {
    PromptHead() + conversation + PromptTail
  }

  /** The transcript a prompt carries: what lies between the fixed head and tail. */
  function PromptBody(p: string): string
    requires |PromptHead()| + |PromptTail| <= |p|
  {
    p[|PromptHead()|..|p| - |PromptTail|]
  }

  /** Specification of the task: with no events, finalise with the no-data
      summary and never invoke the backend; otherwise prompt the backend once
      with the transcript, and, if its stream completes, finalise with the
      stripped concatenation of the fragments. A generation error propagates
      out of the task, so it then never finalises. */
  function SummaryEffects(sid: string, rows: seq<Row>, reply: Stream): seq<TaskEffect>
  {
    if rows == [] then [Finalize(sid, NoDataSummary)]
    else
      var finalize := [Finalize(sid, Strip(Concat(NonEmpty(reply.chunks))))];
      [Generate(Prompt(Transcript(rows)))] + (if reply.completes then finalize else [])
  }

  /** `generate_session_summary(session_id)`, with the event table as it is
      when the task runs and the backend's reply to the summary prompt. */
  method GenerateSessionSummary(sid: string, table: seq<StoredEvent>, reply: Stream)
    returns (effects: seq<TaskEffect>)
    ensures effects == SummaryEffects(sid, FetchSessionEvents(table, sid), reply)
  {
    var events := FetchSessionEvents(table, sid);
    if events == [] {
      effects := [Finalize(sid, NoDataSummary)];
      return;
    }
    var conversation := BuildConversation(events);
    var prompt := Prompt(conversation);
    effects := [Generate(prompt)];
    var fragments := StreamLlmResponse(reply.chunks);
    var summaryText := AccumulateSummary(fragments);
    if !reply.completes {
      // the generation error leaves the task here, before finalize_session
      return;
    }
    effects := effects + [Finalize(sid, Strip(summaryText))];
  }

  /** The transcript loop: one line per event appended in order. */
  method BuildConversation(events: seq<Row>) returns (conversation: string)
    ensures conversation == Transcript(events)
  {
    conversation := "";
    for i := 0 to |events|
      invariant conversation == Transcript(events[..i])
    {
      assert events[..i + 1] == events[..i] + [events[i]];
      TranscriptSnoc(events[..i], events[i]);
      conversation := conversation + Line(events[i]);
    }
    assert events[..|events|] == events;
  }

  /** The summary loop: the fragments appended in order. */
  method AccumulateSummary(fragments: seq<string>) returns (summaryText: string)
    ensures summaryText == Concat(fragments)
  {
    summaryText := "";
    for i := 0 to |fragments|
      invariant summaryText == Concat(fragments[..i])
    {
      assert fragments[..i + 1] == fragments[..i] + [fragments[i]];
      ConcatAppend(fragments[..i], [fragments[i]]);
      assert Concat([fragments[i]]) == fragments[i] by {
        assert [fragments[i]][1..] == [];
      }
      summaryText := summaryText + fragments[i];
    }
    assert fragments[..|fragments|] == fragments;
  }

  lemma {:induction false} TranscriptAppend(a: seq<Row>, b: seq<Row>)
    ensures Transcript(a + b) == Transcript(a) + Transcript(b)
  {
    if a == [] {
      assert a + b == b;
    } else {
      assert (a + b)[1..] == a[1..] + b;
      TranscriptAppend(a[1..], b);
    }
  }

  /** How many times an effect list finalises the session. */
  function FinalizeCount(effects: seq<TaskEffect>): nat
  {
    if effects == [] then 0
    else (if effects[0].Finalize? then 1 else 0) + FinalizeCount(effects[1..])
  }

  /** How many times an effect list invokes the backend. */
  function GenerateCount(effects: seq<TaskEffect>): nat
  {
    if effects == [] then 0
    else (if effects[0].Generate? then 1 else 0) + GenerateCount(effects[1..])
  }

  /** With no events: one finalisation, with the no-data summary, and the
      backend is never invoked. */
  lemma SummaryNoData(sid: string, reply: Stream)
    ensures SummaryEffects(sid, [], reply) == [Finalize(sid, NoDataSummary)]
    ensures forall i :: 0 <= i < |SummaryEffects(sid, [], reply)| ==>
      !SummaryEffects(sid, [], reply)[i].Generate?
  {
  }

  /** At most one finalisation, for this session, as the last effect; it
      happens exactly when there are no events or the backend's stream
      completes, and the two branches never both finalise. The backend is
      invoked once when there are events and never otherwise. */
  lemma SummaryFinalizesOnce(sid: string, rows: seq<Row>, reply: Stream)
    ensures var effects := SummaryEffects(sid, rows, reply);
      && FinalizeCount(effects) == (if rows == [] || reply.completes then 1 else 0)
      && (FinalizeCount(effects) == 1 ==>
            effects[|effects| - 1].Finalize? && effects[|effects| - 1].sessionId == sid)
      && GenerateCount(effects) == (if rows == [] then 0 else 1)
  {
    var effects := SummaryEffects(sid, rows, reply);
    if rows == [] {
      assert effects[1..] == [];
    } else if reply.completes {
      assert |effects| == 2 && effects[0].Generate? && effects[1].Finalize?;
      assert effects[1..][1..] == [];
      assert FinalizeCount(effects[1..]) == 1 && GenerateCount(effects[1..]) == 0;
    } else {
      assert |effects| == 1 && effects[0].Generate?;
      assert effects[1..] == [];
    }
  }

  /** The stored summary is the backend's chunks concatenated (empty chunks add
      nothing) with surrounding whitespace stripped. */
  lemma SummaryText(sid: string, rows: seq<Row>, reply: Stream)
    requires rows != [] && reply.completes
    ensures SummaryEffects(sid, rows, reply)[1] == Finalize(sid, Strip(Concat(reply.chunks)))
  {
    NonEmptyConcat(reply.chunks);
  }

  /** The prompt is the fixed head, the transcript verbatim, then the fixed
      tail; the transcript can be read back out of it, so different
      transcripts give different prompts. */
  lemma PromptRoundTrip(conversation: string)
    ensures var p := Prompt(conversation);
      && p[..|PromptHead()|] == PromptHead()
      && p[|p| - |PromptTail|..] == PromptTail
      && |PromptHead()| + |PromptTail| <= |p|
      && PromptBody(p) == conversation
  {
    var p := Prompt(conversation);
    assert p == PromptHead() + conversation + PromptTail;
    assert p[|PromptHead()|..|p| - |PromptTail|] == conversation;
  }

  /** The transcript of a list followed by one more event ends with that
      event's line. */
  lemma TranscriptSnoc(rows: seq<Row>, r: Row)
    ensures Transcript(rows + [r]) == Transcript(rows) + Line(r)
  {
    TranscriptAppend(rows, [r]);
    assert [r][1..] == [];
  }

  /** One line per event: when no role label or content has a line break of
      its own, the transcript has exactly as many line breaks as events. */
  lemma {:induction false} TranscriptLines(rows: seq<Row>)
    requires forall i :: 0 <= i < |rows| ==> '\n' !in rows[i].role && '\n' !in rows[i].content
    ensures Count('\n', Transcript(rows)) == |rows|
  {
    if rows != [] {
      var r := rows[0];
      TranscriptLines(rows[1..]);
      UpperKeepsLineBreaks(r.role);
      CountAbsent('\n', Upper(r.role));
      CountAbsent('\n', ": ");
      CountAbsent('\n', r.content);
      CountAppend('\n', Upper(r.role), ": ");
      CountAppend('\n', Upper(r.role) + ": ", r.content);
      CountAppend('\n', Upper(r.role) + ": " + r.content, "\n");
      CountAppend('\n', Line(r), Transcript(rows[1..]));
      assert Count('\n', "\n") == 1 by {
        assert "\n"[1..] == "";
      }
    }
  }
}

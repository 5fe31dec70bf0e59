/** One session end to end: the relay's handler writes the event log, and the
    summary task it schedules reads that log back. */
module Lifecycle {
  import opened Text
  import opened Llm
  import opened Db
  import opened Relay
  import opened RelayProperties
  import opened PostSession

  /** A session that exchanged no message and then disconnected: the handler
      schedules one summary task for it, and that task, reading the session's
      (empty) log, finalises once with the no-data summary without invoking
      the backend. */
  lemma SilentSessionSummary(sid: string, reply: Stream)
    ensures var effects := EndpointEffects(sid, true, []);
      && Scheduled(effects) == [sid]
      && SummaryEffects(sid, FetchSessionEvents(EventLog(effects), sid), reply)
           == [Finalize(sid, NoDataSummary)]
  {
    EndpointChannels(sid, true, []);
    RunTurnsLog(sid, []);
    assert AllComplete([]);
    EndpointLog(sid, []);
  }

  /** A session in which at least one message arrived: the summary task reads
      back one row per logged event, the first being the user's first raw
      message, so it takes the transcript branch and prompts the backend
      with that transcript. */
  lemma BusySessionSummary(sid: string, inbound: seq<Inbound>, reply: Stream)
    requires inbound != []
    ensures var log := EventLog(EndpointEffects(sid, true, inbound));
      var rows := FetchSessionEvents(log, sid);
      && |rows| == |log| > 0
      && rows[0] == Row("user", inbound[0].message)
      && SummaryEffects(sid, rows, reply)[0] == Generate(Prompt(Transcript(rows)))
  {
    var effects := EndpointEffects(sid, true, inbound);
    EndpointLog(sid, inbound);
    var log := EventLog(effects);
    RunTurnsLog(sid, inbound);
    FetchOwnRows(log, sid);
    RunTurnsFirst(sid, inbound);
    TurnUserFirst(sid, inbound[0]);
    var rest := if inbound[0].reply.completes then RunTurns(sid, inbound[1..]) else [];
    EventLogAppend(TurnEffects(sid, inbound[0]), rest);
    TurnChannels(sid, inbound[0]);
  }

  /** The session of the example: the user sends "hello", the backend yields
      "Hi", " there" and an empty chunk, then the client disconnects. The
      client receives the greeting, "Hi" and " there"; the log holds the
      user's message, the two chunks and the final "Hi there"; one summary
      task is scheduled. */
  lemma HelloSession(sid: string)
    ensures var effects := EndpointEffects(sid, true, [Inbound("hello", Stream(["Hi", " there", ""], true))]);
      && Outbound(effects) == [Greeting(sid), "Hi", " there"]
      && EventLog(effects) == [
           StoredEvent(sid, Event(User, "hello", UserMessage)),
           StoredEvent(sid, Event(Assistant, "Hi", AiChunk)),
           StoredEvent(sid, Event(Assistant, " there", AiChunk)),
           StoredEvent(sid, Event(Assistant, "Hi there", AiFinal))]
      && Scheduled(effects) == [sid]
  {
    var t := Inbound("hello", Stream(["Hi", " there", ""], true));
    var inbound := [t];
    HelloReply();
    EndpointChannels(sid, true, inbound);
    assert AllComplete(inbound);
    assert Replies(inbound) == ["Hi", " there"] + Replies([]) by {
      assert inbound[1..] == [];
    }
    EndpointLog(sid, inbound);
    OneTurnLog(sid, t);
    HelloLog(sid);
  }

  /** The backend's reply of the example, filtered and concatenated. */
  lemma HelloReply()
    ensures NonEmpty(["Hi", " there", ""]) == ["Hi", " there"]
    ensures Concat(["Hi", " there"]) == "Hi there"
  {
    var chunks := ["Hi", " there", ""];
    assert chunks[1..] == [" there", ""];
    assert chunks[1..][1..] == [""];
    assert chunks[1..][1..][1..] == [];
    var fragments := ["Hi", " there"];
    assert fragments[1..] == [" there"];
    assert fragments[1..][1..] == [];
    assert Concat(fragments[1..]) == " there" + "";
    assert "Hi" + (" there" + "") == "Hi there";
  }

  /** The rows the example's single turn logs. */
  lemma HelloLog(sid: string)
    ensures EventLog(TurnEffects(sid, Inbound("hello", Stream(["Hi", " there", ""], true)))) == [
      StoredEvent(sid, Event(User, "hello", UserMessage)),
      StoredEvent(sid, Event(Assistant, "Hi", AiChunk)),
      StoredEvent(sid, Event(Assistant, " there", AiChunk)),
      StoredEvent(sid, Event(Assistant, "Hi there", AiFinal))]
  {
    HelloReply();
    TurnChannels(sid, Inbound("hello", Stream(["Hi", " there", ""], true)));
    assert ChunkRows(sid, ["Hi", " there"]) == [ChunkRow(sid, "Hi"), ChunkRow(sid, " there")];
  }

  /** After the greeting, the handler's log is the receive loop's log. */
  lemma EndpointLog(sid: string, inbound: seq<Inbound>)
    ensures EventLog(EndpointEffects(sid, true, inbound)) == EventLog(RunTurns(sid, inbound))
  {
    var turns := RunTurns(sid, inbound);
    EventLogAppend([CreateSession(sid)], [Send(Greeting(sid))] + turns);
    EventLogAppend([Send(Greeting(sid))], turns);
    assert [CreateSession(sid)][1..] == [] && [Send(Greeting(sid))][1..] == [];
  }

  /** A single completed turn followed by the disconnect logs what the turn
      logs. */
  lemma OneTurnLog(sid: string, t: Inbound)
    requires t.reply.completes
    ensures EventLog(RunTurns(sid, [t])) == EventLog(TurnEffects(sid, t))
  {
    RunTurnsFirst(sid, [t]);
    assert [t][1..] == [];
    EventLogAppend(TurnEffects(sid, t), [ScheduleSummary(sid)]);
    assert [ScheduleSummary(sid)][1..] == [];
  }
}

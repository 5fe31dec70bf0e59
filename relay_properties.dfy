/** What the relay's effect list shows on each channel, and the guarantees
    of app/websocket.py stated over those channels. */
module RelayProperties {
  import opened Text
  import opened Llm
  import opened Db
  import opened Relay

  /** The text messages sent to the client, in order. */
  function Outbound(effects: seq<Effect>): seq<string>
  {
    if effects == [] then []
    else (if effects[0].Send? then [effects[0].text] else []) + Outbound(effects[1..])
  }

  /** The rows inserted into the `events` table, in order. */
  function EventLog(effects: seq<Effect>): seq<StoredEvent>
  {
    if effects == [] then []
    else (if effects[0].LogEvent? then [effects[0].row] else []) + EventLog(effects[1..])
  }

  /** The session ids for which a summary task was scheduled, in order. */
  function Scheduled(effects: seq<Effect>): seq<string>
  {
    if effects == [] then []
    else (if effects[0].ScheduleSummary? then [effects[0].sessionId] else []) + Scheduled(effects[1..])
  }

  /** The session ids passed to `create_session`, in order. */
  function Created(effects: seq<Effect>): seq<string>
  {
    if effects == [] then []
    else (if effects[0].CreateSession? then [effects[0].sessionId] else []) + Created(effects[1..])
  }

  /** The contents of the `ai_chunk` events of a log, in order. */
  function ChunkContents(log: seq<StoredEvent>): seq<string>
  {
    if log == [] then []
    else (if log[0].event.kind == AiChunk then [log[0].event.content] else []) + ChunkContents(log[1..])
  }

  /** The contents of the `ai_final` events of a log, in order. */
  function FinalContents(log: seq<StoredEvent>): seq<string>
  {
    if log == [] then []
    else (if log[0].event.kind == AiFinal then [log[0].event.content] else []) + FinalContents(log[1..])
  }

  /** The contents of the `user_message` events of a log, in order. */
  function UserMessages(log: seq<StoredEvent>): seq<string>
  {
    if log == [] then []
    else (if log[0].event.kind == UserMessage then [log[0].event.content] else []) + UserMessages(log[1..])
  }

  /** The raw texts of the client's messages, in order. */
  function Messages(inbound: seq<Inbound>): seq<string>
  {
    if inbound == [] then [] else [inbound[0].message] + Messages(inbound[1..])
  }

  /** Reference definition of what the client receives after the greeting:
      each processed turn's non-empty fragments, turn after turn, up to and
      including the turn whose generation failed. */
  function Replies(inbound: seq<Inbound>): seq<string>
  {
    if inbound == [] then []
    else
      var rest := if inbound[0].reply.completes then Replies(inbound[1..]) else [];
      NonEmpty(inbound[0].reply.chunks) + rest
  }

  lemma {:induction false} OutboundAppend(a: seq<Effect>, b: seq<Effect>)
    ensures Outbound(a + b) == Outbound(a) + Outbound(b)
  {
    if a == [] {
      assert a + b == b;
    } else {
      var head := if a[0].Send? then [a[0].text] else [];
      assert (a + b)[0] == a[0] && (a + b)[1..] == a[1..] + b;
      OutboundAppend(a[1..], b);
      assert Outbound(a + b) == head + Outbound(a[1..] + b);
    }
  }

  lemma {:induction false} EventLogAppend(a: seq<Effect>, b: seq<Effect>)
    ensures EventLog(a + b) == EventLog(a) + EventLog(b)
  {
    if a == [] {
      assert a + b == b;
    } else {
      var head := if a[0].LogEvent? then [a[0].row] else [];
      assert (a + b)[0] == a[0] && (a + b)[1..] == a[1..] + b;
      EventLogAppend(a[1..], b);
      assert EventLog(a + b) == head + EventLog(a[1..] + b);
    }
  }

  lemma {:induction false} ScheduledAppend(a: seq<Effect>, b: seq<Effect>)
    ensures Scheduled(a + b) == Scheduled(a) + Scheduled(b)
  {
    if a == [] {
      assert a + b == b;
    } else {
      var head := if a[0].ScheduleSummary? then [a[0].sessionId] else [];
      assert (a + b)[0] == a[0] && (a + b)[1..] == a[1..] + b;
      ScheduledAppend(a[1..], b);
      assert Scheduled(a + b) == head + Scheduled(a[1..] + b);
    }
  }

  lemma {:induction false} CreatedAppend(a: seq<Effect>, b: seq<Effect>)
    ensures Created(a + b) == Created(a) + Created(b)
  {
    if a == [] {
      assert a + b == b;
    } else {
      var head := if a[0].CreateSession? then [a[0].sessionId] else [];
      assert (a + b)[0] == a[0] && (a + b)[1..] == a[1..] + b;
      CreatedAppend(a[1..], b);
      assert Created(a + b) == head + Created(a[1..] + b);
    }
  }

  /** Every channel of a concatenation of effect lists is the concatenation
      of the channels. */
  lemma ProjectAppend(a: seq<Effect>, b: seq<Effect>)
    ensures Outbound(a + b) == Outbound(a) + Outbound(b)
    ensures EventLog(a + b) == EventLog(a) + EventLog(b)
    ensures Scheduled(a + b) == Scheduled(a) + Scheduled(b)
    ensures Created(a + b) == Created(a) + Created(b)
  {
    OutboundAppend(a, b);
    EventLogAppend(a, b);
    ScheduledAppend(a, b);
    CreatedAppend(a, b);
  }

  lemma LogAppend(a: seq<StoredEvent>, b: seq<StoredEvent>)
    ensures ChunkContents(a + b) == ChunkContents(a) + ChunkContents(b)
    ensures FinalContents(a + b) == FinalContents(a) + FinalContents(b)
  {
    ChunkContentsAppend(a, b);
    FinalContentsAppend(a, b);
  }

  lemma {:induction false} ChunkContentsAppend(a: seq<StoredEvent>, b: seq<StoredEvent>)
    ensures ChunkContents(a + b) == ChunkContents(a) + ChunkContents(b)
  {
    if a == [] {
      assert a + b == b;
    } else {
      var head := if a[0].event.kind == AiChunk then [a[0].event.content] else [];
      assert (a + b)[0] == a[0] && (a + b)[1..] == a[1..] + b;
      ChunkContentsAppend(a[1..], b);
      assert ChunkContents(a + b) == head + ChunkContents(a[1..] + b);
    }
  }

  lemma {:induction false} FinalContentsAppend(a: seq<StoredEvent>, b: seq<StoredEvent>)
    ensures FinalContents(a + b) == FinalContents(a) + FinalContents(b)
  {
    if a == [] {
      assert a + b == b;
    } else {
      var head := if a[0].event.kind == AiFinal then [a[0].event.content] else [];
      assert (a + b)[0] == a[0] && (a + b)[1..] == a[1..] + b;
      FinalContentsAppend(a[1..], b);
      assert FinalContents(a + b) == head + FinalContents(a[1..] + b);
    }
  }

  lemma {:induction false} UserMessagesAppend(a: seq<StoredEvent>, b: seq<StoredEvent>)
    ensures UserMessages(a + b) == UserMessages(a) + UserMessages(b)
  {
    if a == [] {
      assert a + b == b;
    } else {
      var head := if a[0].event.kind == UserMessage then [a[0].event.content] else [];
      assert (a + b)[0] == a[0] && (a + b)[1..] == a[1..] + b;
      UserMessagesAppend(a[1..], b);
      assert UserMessages(a + b) == head + UserMessages(a[1..] + b);
    }
  }

  /** Relaying fragments sends exactly those fragments and logs each of them,
      in the same order, as an `ai_chunk` of this session. */
  lemma {:induction false} ChunkChannels(sid: string, fragments: seq<string>)
    ensures Outbound(ChunkEffects(sid, fragments)) == fragments
    ensures EventLog(ChunkEffects(sid, fragments)) == ChunkRows(sid, fragments)
    ensures Scheduled(ChunkEffects(sid, fragments)) == []
    ensures Created(ChunkEffects(sid, fragments)) == []
  {
    if fragments != [] {
      var f := fragments[0];
      ChunkChannels(sid, fragments[1..]);
      ProjectAppend([Send(f), ChunkLog(sid, f)], ChunkEffects(sid, fragments[1..]));
      assert [Send(f), ChunkLog(sid, f)][1..][1..] == [];
    }
  }

  /** The `ai_chunk` rows for a list of fragments. */
  function ChunkRows(sid: string, fragments: seq<string>): (rows: seq<StoredEvent>)
    ensures |rows| == |fragments|
    ensures forall j :: 0 <= j < |fragments| ==> rows[j] == ChunkRow(sid, fragments[j])
  {
    if fragments == [] then [] else [ChunkRow(sid, fragments[0])] + ChunkRows(sid, fragments[1..])
  }

  lemma {:induction false} ChunkRowsContents(sid: string, fragments: seq<string>)
    ensures ChunkContents(ChunkRows(sid, fragments)) == fragments
    ensures FinalContents(ChunkRows(sid, fragments)) == []
    ensures UserMessages(ChunkRows(sid, fragments)) == []
  {
    if fragments != [] {
      ChunkRowsContents(sid, fragments[1..]);
      LogAppend([ChunkRow(sid, fragments[0])], ChunkRows(sid, fragments[1..]));
      UserMessagesAppend([ChunkRow(sid, fragments[0])], ChunkRows(sid, fragments[1..]));
      assert [ChunkRow(sid, fragments[0])][1..] == [];
    }
  }

  /** One turn on each channel. The client receives exactly the turn's
      non-empty fragments, in order, with nothing dropped, reordered or
      batched. The log gains exactly the user's raw message as
      `user_message`, then one `ai_chunk` per fragment, then, when the
      reply completed, one `ai_final`; no summary is scheduled and no session
      created. */
  lemma TurnChannels(sid: string, t: Inbound)
    ensures var fragments := NonEmpty(t.reply.chunks);
      && Outbound(TurnEffects(sid, t)) == fragments
      && EventLog(TurnEffects(sid, t)) ==
           [UserRow(sid, t.message)]
           + ChunkRows(sid, fragments)
           + (if t.reply.completes then [FinalRow(sid, Concat(fragments))] else [])
      && Scheduled(TurnEffects(sid, t)) == []
      && Created(TurnEffects(sid, t)) == []
  {
    var fragments := NonEmpty(t.reply.chunks);
    var head := [UserLog(sid, t.message)];
    var tail := if t.reply.completes then [FinalLog(sid, Concat(fragments))] else [];
    ChunkChannels(sid, fragments);
    ProjectAppend(head, ChunkEffects(sid, fragments));
    ProjectAppend(head + ChunkEffects(sid, fragments), tail);
    assert head[1..] == [];
    if tail != [] {
      assert tail[1..] == [];
    }
  }

  /** Within a turn the `user_message` with the raw inbound text is the very
      first effect, before any fragment is sent or any assistant event is
      logged, and it is the turn's only `user_message`. */
  lemma TurnUserFirst(sid: string, t: Inbound)
    ensures TurnEffects(sid, t)[0] == LogEvent(UserRow(sid, t.message))
    ensures forall j :: 1 <= j < |EventLog(TurnEffects(sid, t))| ==>
      EventLog(TurnEffects(sid, t))[j].event.role == Assistant
      && EventLog(TurnEffects(sid, t))[j].event.kind != UserMessage
  {
    TurnChannels(sid, t);
  }

  /** The `ai_final` event of a completed turn carries exactly the
      concatenation of that turn's `ai_chunk` contents, which is also all the
      text the backend produced; a turn without fragments logs `""`. */
  lemma TurnFinalIsChunks(sid: string, t: Inbound)
    requires t.reply.completes
    ensures var log := EventLog(TurnEffects(sid, t));
      && FinalContents(log) == [Concat(ChunkContents(log))]
      && Concat(ChunkContents(log)) == Concat(t.reply.chunks)
      && (NonEmpty(t.reply.chunks) == [] ==> FinalContents(log) == [""])
  {
    var fragments := NonEmpty(t.reply.chunks);
    var user := [UserRow(sid, t.message)];
    var final := [FinalRow(sid, Concat(fragments))];
    TurnChannels(sid, t);
    ChunkRowsContents(sid, fragments);
    LogAppend(user, ChunkRows(sid, fragments));
    LogAppend(user + ChunkRows(sid, fragments), final);
    assert user[1..] == [] && final[1..] == [];
    assert ChunkContents(user) == [] && FinalContents(user) == [];
    assert ChunkContents(final) == [] && FinalContents(final) == [Concat(fragments)];
    var log := EventLog(TurnEffects(sid, t));
    assert log == user + ChunkRows(sid, fragments) + final;
    assert ChunkContents(log) == [] + fragments + [];
    assert ChunkContents(log) == fragments;
    assert FinalContents(log) == [] + [] + [Concat(fragments)];
    NonEmptyConcat(t.reply.chunks);
  }

  /** Replaying a session's log two ways gives the same text: the `ai_chunk`
      contents concatenated equal the `ai_final` contents concatenated. */
  lemma {:induction false} ReplayAgrees(sid: string, inbound: seq<Inbound>)
    requires AllComplete(inbound)
    ensures var log := EventLog(RunTurns(sid, inbound));
      Concat(ChunkContents(log)) == Concat(FinalContents(log))
  {
    var effects := RunTurns(sid, inbound);
    if inbound == [] {
      assert effects[1..] == [];
    } else {
      var t := inbound[0];
      var turn := TurnEffects(sid, t);
      assert AllComplete(inbound[1..]) by {
        assert forall i :: 0 <= i < |inbound[1..]| ==> inbound[1..][i] == inbound[i + 1];
      }
      ReplayAgrees(sid, inbound[1..]);
      var rest := RunTurns(sid, inbound[1..]);
      ProjectAppend(turn, rest);
      LogAppend(EventLog(turn), EventLog(rest));
      TurnFinalIsChunks(sid, t);
      var c := ChunkContents(EventLog(turn));
      ConcatAppend(c, ChunkContents(EventLog(rest)));
      ConcatAppend([Concat(c)], FinalContents(EventLog(rest)));
      assert Concat([Concat(c)]) == Concat(c) by {
        assert [Concat(c)][1..] == [];
      }
    }
  }

  /** Unfolding the receive loop once: the first turn, then the rest of the
      loop if that turn completed. */
  lemma RunTurnsFirst(sid: string, inbound: seq<Inbound>)
    requires inbound != []
    ensures RunTurns(sid, inbound) == TurnEffects(sid, inbound[0])
      + (if inbound[0].reply.completes then RunTurns(sid, inbound[1..]) else [])
    ensures AllComplete(inbound) <==> inbound[0].reply.completes && AllComplete(inbound[1..])
  {
    assert forall i :: 0 <= i < |inbound[1..]| ==> inbound[1..][i] == inbound[i + 1];
  }

  /** The receive loop sends the replies, turn after turn. */
  lemma {:induction false} RunTurnsOutbound(sid: string, inbound: seq<Inbound>)
    ensures Outbound(RunTurns(sid, inbound)) == Replies(inbound)
  {
    if inbound == [] {
      assert RunTurns(sid, inbound)[1..] == [];
    } else {
      RunTurnsFirst(sid, inbound);
      TurnChannels(sid, inbound[0]);
      var rest := if inbound[0].reply.completes then RunTurns(sid, inbound[1..]) else [];
      OutboundAppend(TurnEffects(sid, inbound[0]), rest);
      if inbound[0].reply.completes {
        RunTurnsOutbound(sid, inbound[1..]);
      }
    }
  }

  /** The receive loop logs only rows of this session, and logs nothing
      exactly when no message arrived. */
  lemma {:induction false} RunTurnsLog(sid: string, inbound: seq<Inbound>)
    ensures OwnRows(EventLog(RunTurns(sid, inbound)), sid)
    ensures EventLog(RunTurns(sid, inbound)) == [] <==> inbound == []
  {
    if inbound == [] {
      assert RunTurns(sid, inbound)[1..] == [];
    } else {
      RunTurnsFirst(sid, inbound);
      var turn := TurnEffects(sid, inbound[0]);
      TurnOwnRows(sid, inbound[0]);
      var rest := if inbound[0].reply.completes then RunTurns(sid, inbound[1..]) else [];
      EventLogAppend(turn, rest);
      if inbound[0].reply.completes {
        RunTurnsLog(sid, inbound[1..]);
      }
      OwnRowsAppend(EventLog(turn), EventLog(rest), sid);
    }
  }

  /** A turn logs rows of its own session only, and at least one. */
  lemma TurnOwnRows(sid: string, t: Inbound)
    ensures OwnRows(EventLog(TurnEffects(sid, t)), sid)
    ensures EventLog(TurnEffects(sid, t)) != []
  {
    var fragments := NonEmpty(t.reply.chunks);
    var user := [UserRow(sid, t.message)];
    var final := if t.reply.completes then [FinalRow(sid, Concat(fragments))] else [];
    TurnChannels(sid, t);
    assert OwnRows(ChunkRows(sid, fragments), sid);
    OwnRowsAppend(user, ChunkRows(sid, fragments), sid);
    OwnRowsAppend(user + ChunkRows(sid, fragments), final, sid);
  }

  /** A turn logs exactly one `user_message`: the raw inbound text. */
  lemma TurnUserMessages(sid: string, t: Inbound)
    ensures UserMessages(EventLog(TurnEffects(sid, t))) == [t.message]
  {
    var fragments := NonEmpty(t.reply.chunks);
    var user := [UserRow(sid, t.message)];
    var final := if t.reply.completes then [FinalRow(sid, Concat(fragments))] else [];
    TurnChannels(sid, t);
    ChunkRowsContents(sid, fragments);
    UserMessagesAppend(user, ChunkRows(sid, fragments));
    UserMessagesAppend(user + ChunkRows(sid, fragments), final);
    assert user[1..] == [];
    if final != [] {
      assert final[1..] == [];
    }
  }

  /** A failed turn is the loop's last: when `k` is the first turn whose
      generation fails (or `|inbound|` if none does), the messages logged as
      `user_message` are exactly those of turns `0..k`, in order, so no
      later message is ever served. */
  lemma {:induction false} RunTurnsServed(sid: string, inbound: seq<Inbound>, k: nat)
    requires k <= |inbound| && AllComplete(inbound[..k])
    requires k < |inbound| ==> !inbound[k].reply.completes
    ensures UserMessages(EventLog(RunTurns(sid, inbound)))
      == Messages(inbound[..if k < |inbound| then k + 1 else k])
  {
    if inbound != [] {
      var n := if k < |inbound| then k + 1 else k;
      var turn := TurnEffects(sid, inbound[0]);
      TurnUserMessages(sid, inbound[0]);
      RunTurnsFirst(sid, inbound);
      MessagesCons(inbound, n);
      if k == 0 {
        assert RunTurns(sid, inbound) == turn + [];
        assert turn + [] == turn;
        assert inbound[1..][..n - 1] == [];
      } else {
        AllCompleteTail(inbound, k);
        assert k - 1 < |inbound[1..]| ==> inbound[1..][k - 1] == inbound[k];
        RunTurnsServed(sid, inbound[1..], k - 1);
        var rest := RunTurns(sid, inbound[1..]);
        EventLogAppend(turn, rest);
        UserMessagesAppend(EventLog(turn), EventLog(rest));
      }
    } else {
      assert RunTurns(sid, inbound)[1..] == [];
    }
  }

  lemma MessagesCons(inbound: seq<Inbound>, n: nat)
    requires 0 < n <= |inbound|
    ensures Messages(inbound[..n]) == [inbound[0].message] + Messages(inbound[1..][..n - 1])
  {
    assert inbound[..n][0] == inbound[0];
    assert inbound[..n][1..] == inbound[1..][..n - 1];
  }

  lemma AllCompleteTail(inbound: seq<Inbound>, k: nat)
    requires 0 < k <= |inbound| && AllComplete(inbound[..k])
    ensures inbound[0].reply.completes && AllComplete(inbound[1..][..k - 1])
  {
    assert inbound[..k][0] == inbound[0];
    var tail := inbound[1..][..k - 1];
    forall i | 0 <= i < |tail| ensures tail[i].reply.completes {
      assert tail[i] == inbound[..k][i + 1];
    }
  }

  /** The receive loop creates no session, and schedules one summary task,
      for this session, as its very last effect, exactly when every turn
      completed, that is when it ended by the disconnect. */
  lemma {:induction false} RunTurnsSchedule(sid: string, inbound: seq<Inbound>)
    ensures Created(RunTurns(sid, inbound)) == []
    ensures Scheduled(RunTurns(sid, inbound)) == (if AllComplete(inbound) then [sid] else [])
    ensures AllComplete(inbound) ==>
      RunTurns(sid, inbound)[|RunTurns(sid, inbound)| - 1] == ScheduleSummary(sid)
  {
    if inbound == [] {
      assert RunTurns(sid, inbound)[1..] == [];
    } else {
      RunTurnsFirst(sid, inbound);
      TurnChannels(sid, inbound[0]);
      var rest := if inbound[0].reply.completes then RunTurns(sid, inbound[1..]) else [];
      ScheduledAppend(TurnEffects(sid, inbound[0]), rest);
      CreatedAppend(TurnEffects(sid, inbound[0]), rest);
      if inbound[0].reply.completes {
        RunTurnsSchedule(sid, inbound[1..]);
      }
    }
  }

  /** The whole handler. `create_session` is called exactly once, with the
      minted id, as the first effect, before anything is sent or logged.
      When it fails nothing is sent, nothing logged and no summary task
      scheduled. Otherwise the first message sent is the greeting with the
      session id, followed by the replies; every logged row belongs to the
      session; and one summary task for the session is scheduled exactly
      when the handler leaves through the disconnect. */
  lemma EndpointChannels(sid: string, created: bool, inbound: seq<Inbound>)
    ensures var effects := EndpointEffects(sid, created, inbound);
      && effects[0] == CreateSession(sid)
      && Created(effects) == [sid]
      && (!created ==> Outbound(effects) == [] && EventLog(effects) == [] && Scheduled(effects) == [])
      && (created ==> Outbound(effects) == [Greeting(sid)] + Replies(inbound))
      && OwnRows(EventLog(effects), sid)
      && (Scheduled(effects) == [sid] <==> EndpointExit(created, inbound) == Disconnected)
      && (Scheduled(effects) == [] <==> EndpointExit(created, inbound) != Disconnected)
  {
    var effects := EndpointEffects(sid, created, inbound);
    var create := [CreateSession(sid)];
    assert create[1..] == [];
    if created {
      var greet := [Send(Greeting(sid))];
      assert greet[1..] == [];
      RunTurnsOutbound(sid, inbound);
      RunTurnsLog(sid, inbound);
      RunTurnsSchedule(sid, inbound);
      ProjectAppend(greet, RunTurns(sid, inbound));
      ProjectAppend(create, greet + RunTurns(sid, inbound));
    } else {
      assert effects == create;
    }
  }
}

/** The per-session relay (app/websocket.py, `websocket_endpoint`). One
    connection is a `Connection` object whose state is the list of effects it
    has had so far on the outside world: the session record it created, the
    text it sent to the client, the events it logged and the summary task it
    scheduled. What the client sends, what the backend replies, the minted
    session id and whether `create_session` succeeds are the inputs. */
module Relay {
  import opened Text
  import opened Llm
  import opened Db

  /** One observable step of the handler, in the order it happens. */
  datatype Effect =
    | CreateSession(sessionId: string)
    | Send(text: string)
    | LogEvent(row: StoredEvent)
    | ScheduleSummary(sessionId: string)

  /** One inbound client message, and what the backend produced when prompted
      with it. */
  datatype Inbound = Inbound(message: string, reply: Stream)

  /** Where the handler is: before the session record exists, inside the
      receive loop, or returned. */
  datatype Phase = Connecting | Active | Closed

  /** How the handler returned: `create_session` raised (before the `try`),
      the client disconnected (`WebSocketDisconnect` on receive), or a
      generation error left the loop (any other exception). */
  datatype Exit = NotCreated | Disconnected | GenerationFailed

  /** The informational line sent once the session record exists. */
  function Greeting(sid: string): string
  {
    "Connected to session " + sid
  }

  /** The row logged for the user's raw message. */
  function UserRow(sid: string, m: string): StoredEvent
  {
    StoredEvent(sid, Event(User, m, UserMessage))
  }

  /** The row logged for one relayed fragment. */
  function ChunkRow(sid: string, f: string): StoredEvent
  {
    StoredEvent(sid, Event(Assistant, f, AiChunk))
  }

  /** The row logged for a completed reply's full text. */
  function FinalRow(sid: string, full: string): StoredEvent
  {
    StoredEvent(sid, Event(Assistant, full, AiFinal))
  }

  function UserLog(sid: string, m: string): Effect
  {
    LogEvent(UserRow(sid, m))
  }

  function ChunkLog(sid: string, f: string): Effect
  {
    LogEvent(ChunkRow(sid, f))
  }

  function FinalLog(sid: string, full: string): Effect
  {
    LogEvent(FinalRow(sid, full))
  }

  /** Relaying fragments: each is sent to the client, then logged as a chunk. */
  function ChunkEffects(sid: string, fragments: seq<string>): seq<Effect>
  {
    if fragments == [] then []
    else [Send(fragments[0]), ChunkLog(sid, fragments[0])] + ChunkEffects(sid, fragments[1..])
  }

  /** One turn: log the user's message, relay the backend's non-empty
      fragments, then, if the reply stream completed, log their concatenation
      as the final answer. */
  function TurnEffects(sid: string, t: Inbound): seq<Effect>
  {
    var fragments := NonEmpty(t.reply.chunks);
    [UserLog(sid, t.message)] + ChunkEffects(sid, fragments)
      + (if t.reply.completes then [FinalLog(sid, Concat(fragments))] else [])
  }

  /** The receive loop: turns follow one another until a generation error
      ends the handler, or the messages run out and the client disconnects,
      which schedules the summary task. */
  function RunTurns(sid: string, inbound: seq<Inbound>): seq<Effect>
  {
    if inbound == [] then [ScheduleSummary(sid)]
    else
      var rest := if inbound[0].reply.completes then RunTurns(sid, inbound[1..]) else [];
      TurnEffects(sid, inbound[0]) + rest
  }

  /** Specification of the whole handler for one connection. */
  function EndpointEffects(sid: string, created: bool, inbound: seq<Inbound>): seq<Effect>
  {
    [CreateSession(sid)] + (if created then [Send(Greeting(sid))] + RunTurns(sid, inbound) else [])
  }

  predicate AllComplete(inbound: seq<Inbound>)
  {
    forall i :: 0 <= i < |inbound| ==> inbound[i].reply.completes
  }

  function EndpointExit(created: bool, inbound: seq<Inbound>): Exit
  {
    if !created then NotCreated
    else if AllComplete(inbound) then Disconnected
    else GenerationFailed
  }

  class Connection {
    var sessionId: string
    var phase: Phase
    var trace: seq<Effect>

    /** The accepted connection with its freshly minted id; nothing has
        happened yet. */
    constructor (sid: string)
      ensures sessionId == sid && phase == Connecting && trace == []
    {
      sessionId := sid;
      phase := Connecting;
      trace := [];
    }

    /** `create_session`, then, if it did not raise, the greeting. A failed
        creation happens before the `try`, so it ends the handler at once. */
    method Open(created: bool)
      requires phase == Connecting
      modifies this
      ensures sessionId == old(sessionId)
      ensures trace == old(trace) + [CreateSession(sessionId)]
        + (if created then [Send(Greeting(sessionId))] else [])
      ensures phase == if created then Active else Closed
    {
      trace := trace + [CreateSession(sessionId)];
      if !created {
        phase := Closed;
        return;
      }
      trace := trace + [Send(Greeting(sessionId))];
      phase := Active;
    }

    /** One pass of the receive loop for message `t`. After a generation
        error the exception leaves the handler: no final event is logged. */
    method Turn(t: Inbound)
      requires phase == Active
      modifies this
      ensures sessionId == old(sessionId)
      ensures trace == old(trace) + TurnEffects(sessionId, t)
      ensures phase == if t.reply.completes then Active else Closed
    {
      trace := trace + [UserLog(sessionId, t.message)];
      var fragments := StreamLlmResponse(t.reply.chunks);
      var fullResponse := RelayFragments(fragments);
      if !t.reply.completes {
        phase := Closed;
        return;
      }
      trace := trace + [FinalLog(sessionId, fullResponse)];
    }

    /** The inner loop of a turn: each fragment is added to the running
        response, sent to the client, then logged as a chunk. The running
        response ends as the fragments' concatenation. */
    method RelayFragments(fragments: seq<string>) returns (fullResponse: string)
      modifies this
      ensures sessionId == old(sessionId) && phase == old(phase)
      ensures trace == old(trace) + ChunkEffects(sessionId, fragments)
      ensures fullResponse == Concat(fragments)
    {
      fullResponse := "";
      for i := 0 to |fragments|
        invariant sessionId == old(sessionId) && phase == old(phase)
        invariant fullResponse == Concat(fragments[..i])
        invariant trace == old(trace) + ChunkEffects(sessionId, fragments[..i])
      {
        var token := fragments[i];
        assert fragments[..i + 1] == fragments[..i] + [token];
        ConcatAppend(fragments[..i], [token]);
        assert Concat([token]) == token by {
          assert [token][1..] == [];
        }
        ChunkEffectsAppend(sessionId, fragments[..i], [token]);
        assert ChunkEffects(sessionId, [token]) == [Send(token), ChunkLog(sessionId, token)] by {
          assert [token][1..] == [];
        }
        fullResponse := fullResponse + token;
        trace := trace + [Send(token)];
        trace := trace + [ChunkLog(sessionId, token)];
      }
      assert fragments[..|fragments|] == fragments;
    }

    /** `WebSocketDisconnect` raised by the receive: schedule the summary task
        for this session and return. */
    method Disconnect()
      requires phase == Active
      modifies this
      ensures sessionId == old(sessionId)
      ensures trace == old(trace) + [ScheduleSummary(sessionId)]
      ensures phase == Closed
    {
      trace := trace + [ScheduleSummary(sessionId)];
      phase := Closed;
    }

    /** The receive loop inside the `try`: one turn per inbound message until
        a generation error escapes, then, when the messages run out, the
        disconnect. */
    method Serve(inbound: seq<Inbound>) returns (exit: Exit)
      requires phase == Active
      modifies this
      ensures sessionId == old(sessionId) && phase == Closed
      ensures trace == old(trace) + RunTurns(sessionId, inbound)
      ensures exit == if AllComplete(inbound) then Disconnected else GenerationFailed
    {
      var i := 0;
      while i < |inbound|
        invariant 0 <= i <= |inbound|
        invariant sessionId == old(sessionId) && phase == Active
        invariant AllComplete(inbound[..i])
        invariant trace + RunTurns(sessionId, inbound[i..]) == old(trace) + RunTurns(sessionId, inbound)
      {
        ghost var before := trace;
        Turn(inbound[i]);
        if !inbound[i].reply.completes {
          ServeFailed(sessionId, inbound, i, old(trace), before);
          return GenerationFailed;
        }
        ServeStep(sessionId, inbound, i, old(trace), before);
        i := i + 1;
      }
      assert inbound[i..] == [];
      Disconnect();
      exit := Disconnected;
    }
  }

  /** `websocket_endpoint` for one connection whose minted id is `sid`, whose
      `create_session` succeeds exactly when `created`, whose client sends
      the messages of `inbound` and then disconnects. */
  method WebsocketEndpoint(sid: string, created: bool, inbound: seq<Inbound>)
    returns (effects: seq<Effect>, exit: Exit)
    ensures effects == EndpointEffects(sid, created, inbound)
    ensures exit == EndpointExit(created, inbound)
  {
    var conn := new Connection(sid);
    conn.Open(created);
    if !created {
      return conn.trace, NotCreated;
    }
    exit := conn.Serve(inbound);
    effects := conn.trace;
  }

  /** The receive loop keeps its invariant across a completed turn `i`. */
  lemma ServeStep(sid: string, inbound: seq<Inbound>, i: nat, start: seq<Effect>, before: seq<Effect>)
    requires i < |inbound| && inbound[i].reply.completes
    requires AllComplete(inbound[..i])
    requires before + RunTurns(sid, inbound[i..]) == start + RunTurns(sid, inbound)
    ensures AllComplete(inbound[..i + 1])
    ensures (before + TurnEffects(sid, inbound[i])) + RunTurns(sid, inbound[i + 1..])
      == start + RunTurns(sid, inbound)
  {
    RunTurnsStep(sid, inbound, i);
    var turn := TurnEffects(sid, inbound[i]);
    var later := RunTurns(sid, inbound[i + 1..]);
    assert before + (turn + later) == (before + turn) + later;
    assert inbound[..i + 1] == inbound[..i] + [inbound[i]];
  }

  /** A failed turn `i` leaves the loop with the whole of `RunTurns` done. */
  lemma ServeFailed(sid: string, inbound: seq<Inbound>, i: nat, start: seq<Effect>, before: seq<Effect>)
    requires i < |inbound| && !inbound[i].reply.completes
    requires before + RunTurns(sid, inbound[i..]) == start + RunTurns(sid, inbound)
    ensures !AllComplete(inbound)
    ensures before + TurnEffects(sid, inbound[i]) == start + RunTurns(sid, inbound)
  {
    RunTurnsStep(sid, inbound, i);
    var turn := TurnEffects(sid, inbound[i]);
    assert turn + [] == turn;
  }

  /** Unfolding the receive loop at turn `i`. */
  lemma RunTurnsStep(sid: string, inbound: seq<Inbound>, i: nat)
    requires i < |inbound|
    ensures RunTurns(sid, inbound[i..]) == TurnEffects(sid, inbound[i])
      + (if inbound[i].reply.completes then RunTurns(sid, inbound[i + 1..]) else [])
  {
    assert inbound[i..][1..] == inbound[i + 1..];
  }

  lemma {:induction false} ChunkEffectsAppend(sid: string, a: seq<string>, b: seq<string>)
    ensures ChunkEffects(sid, a + b) == ChunkEffects(sid, a) + ChunkEffects(sid, b)
  {
    if a == [] {
      assert a + b == b;
    } else {
      assert (a + b)[1..] == a[1..] + b;
      ChunkEffectsAppend(sid, a[1..], b);
    }
  }
}

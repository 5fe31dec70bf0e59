/** The records the relay writes and the summariser reads back (app/db.py).
    The storage backend itself is not modelled: the `events` table is a list
    of rows in the order they were inserted, and reading a session's events
    back selects that session's rows in the same order. */
module Db {

  datatype Role = User | Assistant

  datatype Kind = UserMessage | AiChunk | AiFinal

  /** One conversation event as `log_event` is called with it. */
  datatype Event = Event(role: Role, content: string, kind: Kind)

  /** One row of the `events` table: the event and the session it belongs to. */
  datatype StoredEvent = StoredEvent(sessionId: string, event: Event)

  /** What `fetch_session_events` projects each row onto: `role, content`. */
  datatype Row = Row(role: string, content: string)

  /** The role labels the relay passes to `log_event`. */
  function RoleName(r: Role): string
  {
    match r
    case User => "user"
    case Assistant => "assistant"
  }

  function ToRow(e: Event): Row
  {
    Row(RoleName(e.role), e.content)
  }

  /** `fetch_session_events`: the `role, content` of every row of session `sid`,
      in insertion order. */
  function FetchSessionEvents(table: seq<StoredEvent>, sid: string): seq<Row>
  {
    if table == [] then []
    else
      var head := if table[0].sessionId == sid then [ToRow(table[0].event)] else [];
      head + FetchSessionEvents(table[1..], sid)
  }

  /** Every row of `table` belongs to session `sid`. */
  predicate OwnRows(table: seq<StoredEvent>, sid: string)
  {
    forall i :: 0 <= i < |table| ==> table[i].sessionId == sid
  }

  lemma OwnRowsAppend(a: seq<StoredEvent>, b: seq<StoredEvent>, sid: string)
    ensures OwnRows(a + b, sid) <==> OwnRows(a, sid) && OwnRows(b, sid)
  {
    if OwnRows(a, sid) && OwnRows(b, sid) {
      forall i | 0 <= i < |a + b| ensures (a + b)[i].sessionId == sid {
        if i >= |a| {
          assert (a + b)[i] == b[i - |a|];
        }
      }
    }
    if OwnRows(a + b, sid) {
      forall i | 0 <= i < |a| ensures a[i].sessionId == sid {
        assert (a + b)[i] == a[i];
      }
      forall i | 0 <= i < |b| ensures b[i].sessionId == sid {
        assert (a + b)[|a| + i] == b[i];
      }
    }
  }

  /** Reading back a table that holds only session `sid`'s rows yields one row
      per stored event, in order, with its role label and content. */
  lemma {:induction false} FetchOwnRows(table: seq<StoredEvent>, sid: string)
    requires OwnRows(table, sid)
    ensures |FetchSessionEvents(table, sid)| == |table|
    ensures forall i :: 0 <= i < |table| ==>
      FetchSessionEvents(table, sid)[i] == ToRow(table[i].event)
  {
    if table != [] {
      FetchOwnRows(table[1..], sid);
    }
  }

  /** Reading back a table that grew by appends reads back the old rows
      first, then the new ones. */
  lemma {:induction false} FetchAppend(a: seq<StoredEvent>, b: seq<StoredEvent>, sid: string)
    ensures FetchSessionEvents(a + b, sid) == FetchSessionEvents(a, sid) + FetchSessionEvents(b, sid)
  {
    if a == [] {
      assert a + b == b;
    } else {
      var head := if a[0].sessionId == sid then [ToRow(a[0].event)] else [];
      assert (a + b)[0] == a[0] && (a + b)[1..] == a[1..] + b;
      FetchAppend(a[1..], b, sid);
      assert FetchSessionEvents(a + b, sid) == head + FetchSessionEvents(a[1..] + b, sid);
    }
  }
}

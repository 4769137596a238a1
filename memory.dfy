/**
 The session memory store of the question-answering service: a table from
 session id to the ordered list of messages exchanged in that session,
 changed in place by appending and by deleting whole sessions.
 */
module Memory {

  /** One stored exchange, the `{"query": ..., "answer": ...}` record of a turn. */
  datatype Message = Message(query: string, answer: string)

  /** The `sessions` table: session id to its messages in insertion order. */
  type Sessions = map<string, seq<Message>>

  /** What `sessions.get(id, [])` yields: the stored list, or `[]` for an unknown session. */
  function History(sessions: Sessions, id: string): seq<Message>
  {
    if id in sessions then sessions[id] else []
  }

  /** Every stored session holds at least one message: the table only gets an
      entry through an append, and loses it only by a delete of the whole entry. */
  ghost predicate NoEmptySession(sessions: Sessions)
  {
    forall id :: id in sessions ==> sessions[id] != []
  }

  /** The table after appending `m` to session `id` (created if absent). */
  function Appended(sessions: Sessions, id: string, m: Message): (r: Sessions)
    ensures r.Keys == sessions.Keys + {id}
    ensures History(r, id) == History(sessions, id) + [m]
    ensures forall other :: other != id ==> History(r, other) == History(sessions, other)
    ensures NoEmptySession(sessions) ==> NoEmptySession(r)
  {
    sessions[id := History(sessions, id) + [m]]
  }

  /** The table after deleting session `id` if it is present. */
  function Cleared(sessions: Sessions, id: string): (r: Sessions)
    ensures r.Keys == sessions.Keys - {id}
    ensures History(r, id) == []
    ensures forall other :: other != id ==> History(r, other) == History(sessions, other)
    ensures NoEmptySession(sessions) ==> NoEmptySession(r)
  {
    if id in sessions then sessions - {id} else sessions
  }

  /** Clearing a session that is not stored changes nothing and fails in no way. */
  lemma ClearAbsentIsNoOp(sessions: Sessions, id: string)
    requires id !in sessions
    ensures Cleared(sessions, id) == sessions
  {
  }

  /** Clearing twice has the effect of clearing once. */
  lemma ClearIdempotent(sessions: Sessions, id: string)
    ensures Cleared(Cleared(sessions, id), id) == Cleared(sessions, id)
  {
  }

  /** In a table that keeps its invariant, a session is stored exactly when it has history. */
  lemma StoredIffHistory(sessions: Sessions, id: string)
    requires NoEmptySession(sessions)
    ensures id in sessions <==> History(sessions, id) != []
  {
  }

  /** A call that changes the store, as the application makes them. */
  datatype Call = Add(id: string, m: Message) | Clear(id: string)

  function Apply(sessions: Sessions, c: Call): Sessions
  {
    match c
    case Add(id, m) => Appended(sessions, id, m)
    case Clear(id) => Cleared(sessions, id)
  }

  /** The table after the calls `calls`, in order, on a freshly built store. */
  function Replay(calls: seq<Call>): Sessions
  {
    if calls == [] then map[]
    else Apply(Replay(calls[..|calls| - 1]), calls[|calls| - 1])
  }

  /** The messages added to session `id` since its most recent clear, in call order. */
  function SinceLastClear(calls: seq<Call>, id: string): seq<Message>
  {
    if calls == [] then []
    else
      var earlier := SinceLastClear(calls[..|calls| - 1], id);
      match calls[|calls| - 1]
      case Add(a, m) => if a == id then earlier + [m] else earlier
      case Clear(c) => if c == id then [] else earlier
  }

  /** The history of a session is exactly what was appended to it since it was
      last cleared (or since the store was built), in order. */
  lemma {:induction false} ReplayHistory(calls: seq<Call>, id: string)
    ensures History(Replay(calls), id) == SinceLastClear(calls, id)
  {
    if calls != [] {
      ReplayHistory(calls[..|calls| - 1], id);
    }
  }

  /** Any sequence of calls leaves no stored session with an empty list. */
  lemma {:induction false} ReplayKeepsSessionsNonEmpty(calls: seq<Call>)
    ensures NoEmptySession(Replay(calls))
  {
    if calls != [] {
      ReplayKeepsSessionsNonEmpty(calls[..|calls| - 1]);
    }
  }

  /** A call other than clearing `id` keeps the history of `id` as a prefix. */
  lemma ApplyKeepsPrefix(sessions: Sessions, c: Call, id: string)
    requires c != Clear(id)
    ensures History(sessions, id) <= History(Apply(sessions, c), id)
  {
  }

  /** Append-only until clear: while session `id` is not cleared, its earlier
      history stays a prefix of its later history. */
  lemma {:induction false} AppendOnlyUntilClear(calls: seq<Call>, later: seq<Call>, id: string)
    requires forall i :: 0 <= i < |later| ==> later[i] != Clear(id)
    ensures History(Replay(calls), id) <= History(Replay(calls + later), id)
  {
    if later == [] {
      assert calls + later == calls;
    } else {
      var all := calls + later;
      var before := later[..|later| - 1];
      var last := later[|later| - 1];
      assert all[..|all| - 1] == calls + before;
      assert all[|all| - 1] == last;
      assert Replay(all) == Apply(Replay(calls + before), last);
      AppendOnlyUntilClear(calls, before, id);
      ApplyKeepsPrefix(Replay(calls + before), last, id);
    }
  }

  /** The store itself, updated in place. */
  class MemoryManager {
    var sessions: Sessions

    ghost predicate Valid()
      reads this
    {
      NoEmptySession(sessions)
    }

    constructor ()
      ensures Valid()
      ensures sessions == map[]
    {
      sessions := map[];
    }

    /** Appends `m` to session `id`; an unknown session is created first (defaultdict). */
    method AddMessage(id: string, m: Message)
      requires Valid()
      modifies this
      ensures Valid()
      ensures sessions == Appended(old(sessions), id, m)
    {
      var list := if id in sessions then sessions[id] else [];
      sessions := sessions[id := list + [m]];
    }

    /** Reads the history of `id` without creating an entry for it. */
    method GetSessionHistory(id: string) returns (history: seq<Message>)
      ensures history == History(sessions, id)
      ensures id !in sessions ==> history == []
    {
      if id in sessions {
        history := sessions[id];
      } else {
        history := [];
      }
    }

    /** Deletes session `id` when it is stored; otherwise does nothing. */
    method ClearSession(id: string)
      requires Valid()
      modifies this
      ensures Valid()
      ensures sessions == Cleared(old(sessions), id)
    {
      if id in sessions {
        sessions := sessions - {id};
      }
    }
  }
}

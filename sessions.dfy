/** The session store: a table of sessions keyed by id and a table of messages, the
    operations that create, read, list, update, fork, delete and expire sessions, and the
    message history. Timestamps are integers supplied by the caller (`now`). */
module Sessions {
  import opened Json
  import Text

  datatype SessionStatus = Active | Paused | Completed | Error

  /** The tools a session gets when it is created without any. */
  const DefaultTools: seq<string> := ["Read", "Glob", "Grep", "Edit", "Write", "Bash"]

  /** The five token counters of a session. */
  datatype Counters = Counters(input: int, output: int, total: int, cacheRead: int, cacheCreation: int)

  const Zero := Counters(0, 0, 0, 0, 0)

  /** A row of the sessions table; the allowed tools are stored comma-joined. */
  datatype SessionRow = SessionRow(
    id: string,
    name: Option<string>,
    claudeSessionId: Option<string>,
    createdAt: int,
    lastAccessed: int,
    status: SessionStatus,
    workingDirectory: string,
    allowedTools: string,
    usage: Counters,
    messageCount: int)

  /** `SessionResponse`: a row with its tools split back into a list. */
  datatype SessionResponse = SessionResponse(
    id: string,
    name: Option<string>,
    createdAt: int,
    lastAccessed: int,
    status: SessionStatus,
    workingDirectory: string,
    allowedTools: seq<string>,
    usage: Counters,
    messageCount: int)

  /** A row of the messages table; `tools_used` is stored comma-joined. */
  datatype MessageRow = MessageRow(
    id: nat,
    sessionId: string,
    role: string,
    content: string,
    createdAt: int,
    durationMs: int,
    inputTokens: int,
    outputTokens: int,
    toolsUsed: string)

  /** One entry of `get_messages`. */
  datatype MessageView = MessageView(
    id: nat,
    role: string,
    content: string,
    createdAt: int,
    durationMs: int,
    inputTokens: int,
    outputTokens: int,
    toolsUsed: seq<string>)

  // ---------------------------------------------------------------------------
  // Stored tool lists
  // ---------------------------------------------------------------------------

  /** A stored tool string read back as a list: split on commas, and `[]` for the empty string. */
  function ToolsOf(stored: string): (tools: seq<string>)
    ensures stored == "" <==> tools == []
    ensures Text.Join(tools, ',') == stored
    ensures Text.NoSeparator(tools, ',')
  {
    if stored == "" then []
    else
      Text.JoinSplit(stored, ',');
      Text.Split(stored, ',')
  }

  /** A tool list as it is stored: `",".join`, and `""` for no tools. */
  function StoreTools(tools: Option<seq<string>>): string
  {
    if tools.Some? && tools.value != [] then Text.Join(tools.value, ',') else ""
  }

  /** Storing a list of comma-free tool names and reading it back gives the list again,
      except for the list holding one empty name, which comes back empty. */
  lemma ToolsRoundTrip(tools: seq<string>)
    requires Text.NoSeparator(tools, ',')
    ensures ToolsOf(StoreTools(Some(tools))) == tools <==> tools != [""]
  {
    if tools != [] {
      Text.SplitJoin(tools, ',');
      if |tools| >= 2 {
        assert Text.Join(tools, ',') == tools[0] + [','] + Text.Join(tools[1..], ',');
        assert Text.Join(tools, ',')[|tools[0]|] == ',';
      }
    }
  }

  /** The tools `create_session` stores: the given list, or the default list when none or
      an empty one is given. */
  function CreatedTools(allowedTools: Option<seq<string>>): string
  {
    if allowedTools.Some? && allowedTools.value != [] then Text.Join(allowedTools.value, ',')
    else Text.Join(DefaultTools, ',')
  }

  /** A session created without tools reads back with exactly the default tools. */
  lemma DefaultToolsStored(allowedTools: Option<seq<string>>)
    requires allowedTools.None? || allowedTools.value == []
    ensures ToolsOf(CreatedTools(allowedTools)) == DefaultTools
  {
    assert Text.NoSeparator(DefaultTools, ',');
    Text.SplitJoin(DefaultTools, ',');
    assert Text.Join(DefaultTools, ',') != "" by {
      assert Text.Join(DefaultTools, ',') == "Read" + [','] + Text.Join(DefaultTools[1..], ',');
    }
  }

  /** A fork stores the same tool string as its original, unless the original's is empty,
      when it gets the default tools. */
  lemma ForkKeepsTools(stored: string)
    ensures CreatedTools(Some(ToolsOf(stored))) == if stored == "" then Text.Join(DefaultTools, ',') else stored
  {
  }

  /** `_to_response`. */
  function ToResponse(row: SessionRow): (r: SessionResponse)
    ensures r.id == row.id && r.usage == row.usage && r.messageCount == row.messageCount
    ensures r.name == row.name && r.status == row.status && r.workingDirectory == row.workingDirectory
    ensures r.createdAt == row.createdAt && r.lastAccessed == row.lastAccessed
    ensures Text.Join(r.allowedTools, ',') == row.allowedTools
  {
    SessionResponse(row.id, row.name, row.createdAt, row.lastAccessed, row.status,
                    row.workingDirectory, ToolsOf(row.allowedTools), row.usage, row.messageCount)
  }

  /** The row `create_session` inserts: zero counters, created and accessed at `now`. */
  function NewRow(id: string, name: Option<string>, workingDirectory: string,
                  allowedTools: Option<seq<string>>, now: int): SessionRow
  {
    SessionRow(id, name, None, now, now, Active, workingDirectory, CreatedTools(allowedTools), Zero, 0)
  }

  /** The name of a fork: the requested one, or the original's (or "session") with "_fork". */
  function ForkName(newName: Option<string>, originalName: Option<string>): (name: string)
    ensures Truthy(newName) ==> name == newName.value
    ensures !Truthy(newName) ==> |name| >= 5 && name[|name| - 5..] == "_fork"
    ensures !Truthy(newName) ==> name[..|name| - 5] == if Truthy(originalName) then originalName.value else "session"
  {
    if Truthy(newName) then newName.value
    else (if Truthy(originalName) then originalName.value else "session") + "_fork"
  }

  // ---------------------------------------------------------------------------
  // Token usage updates
  // ---------------------------------------------------------------------------

  /** `token_usage.get(key, 0)`. */
  function Amount(usage: map<string, int>, key: string): int
  {
    if key in usage then usage[key] else 0
  }

  /** The counters after adding a usage dict: each grows by its entry, 0 when missing. */
  function AddUsage(c: Counters, usage: map<string, int>): (r: Counters)
    ensures usage == map[] ==> r == c
  {
    Counters(c.input + Amount(usage, "input_tokens"), c.output + Amount(usage, "output_tokens"),
             c.total + Amount(usage, "total_tokens"), c.cacheRead + Amount(usage, "cache_read_tokens"),
             c.cacheCreation + Amount(usage, "cache_creation_tokens"))
  }

  /** Adding two usage dicts one after the other is adding their sums: updates accumulate. */
  lemma AddUsageTwice(c: Counters, u: map<string, int>, v: map<string, int>)
    ensures AddUsage(AddUsage(c, u), v)
            == AddUsage(c, map k | k in u.Keys + v.Keys :: Amount(u, k) + Amount(v, k))
  {
  }

  /** The row `update_session` writes. */
  function UpdatedRow(row: SessionRow, claudeSessionId: Option<string>, status: Option<SessionStatus>,
                      tokenUsage: Option<map<string, int>>, incrementMessages: bool, now: int): (r: SessionRow)
    ensures r.id == row.id && r.name == row.name && r.createdAt == row.createdAt
    ensures r.workingDirectory == row.workingDirectory && r.allowedTools == row.allowedTools
    ensures r.lastAccessed == now
    ensures r.claudeSessionId == (if Truthy(claudeSessionId) then claudeSessionId else row.claudeSessionId)
    ensures r.status == (if status.Some? then status.value else row.status)
    ensures r.messageCount == row.messageCount + (if incrementMessages then 1 else 0)
    ensures r.usage == (if tokenUsage.Some? then AddUsage(row.usage, tokenUsage.value) else row.usage)
  {
    var row := if Truthy(claudeSessionId) then row.(claudeSessionId := claudeSessionId) else row;
    var row := if status.Some? then row.(status := status.value) else row;
    var row := if tokenUsage.Some? && tokenUsage.value != map[] then row.(usage := AddUsage(row.usage, tokenUsage.value)) else row;
    var row := if incrementMessages then row.(messageCount := row.messageCount + 1) else row;
    row.(lastAccessed := now)
  }

  // ---------------------------------------------------------------------------
  // Listing
  // ---------------------------------------------------------------------------

  /** A row passes the optional status filter. */
  predicate Selected(row: SessionRow, status: Option<SessionStatus>)
  {
    status.None? || row.status == status.value
  }

  /** `ids` lists rows from most to least recently accessed. */
  ghost predicate ByRecency(sessions: map<string, SessionRow>, ids: seq<string>)
  {
    forall i, j :: 0 <= i < j < |ids| && ids[i] in sessions && ids[j] in sessions ==>
      sessions[ids[i]].lastAccessed >= sessions[ids[j]].lastAccessed
  }

  /** No id occurs twice. */
  predicate Distinct(ids: seq<string>)
  {
    forall i, j :: 0 <= i < j < |ids| ==> ids[i] != ids[j]
  }

  /** `offset(offset).limit(limit)` on a list. */
  function Page<T>(xs: seq<T>, offset: nat, limit: nat): (page: seq<T>)
    ensures |page| == if offset >= |xs| then 0 else if offset + limit <= |xs| then limit else |xs| - offset
    ensures forall i :: 0 <= i < |page| ==> page[i] == xs[offset + i]
  {
    if offset >= |xs| then [] else xs[offset..if offset + limit <= |xs| then offset + limit else |xs|]
  }

  /** Two consecutive pages together are the page spanning both: paging loses and
      repeats nothing. */
  lemma PagesConsecutive<T>(xs: seq<T>, offset: nat, limit: nat, more: nat)
    ensures Page(xs, offset, limit) + Page(xs, offset + limit, more) == Page(xs, offset, limit + more)
  {
    var a, b, c := Page(xs, offset, limit), Page(xs, offset + limit, more), Page(xs, offset, limit + more);
    assert |a + b| == |c|;
    forall i | 0 <= i < |c|
      ensures (a + b)[i] == c[i]
    {
      if i >= |a| {
        assert (a + b)[i] == b[i - |a|];
      }
    }
  }

  /** The responses for a list of ids, in order. */
  function Responses(sessions: map<string, SessionRow>, ids: seq<string>): (rs: seq<SessionResponse>)
    requires forall i :: 0 <= i < |ids| ==> ids[i] in sessions
    ensures |rs| == |ids|
    ensures forall i :: 0 <= i < |ids| ==> rs[i] == ToResponse(sessions[ids[i]])
  {
    seq(|ids|, i requires 0 <= i < |ids| => ToResponse(sessions[ids[i]]))
  }

  /** A finite non-empty set of rows has a most recently accessed one. */
  lemma {:induction false} MostRecentExists(sessions: map<string, SessionRow>, ids: set<string>)
    requires ids != {} && ids <= sessions.Keys
    ensures exists m :: m in ids && forall o :: o in ids ==> sessions[o].lastAccessed <= sessions[m].lastAccessed
    decreases |ids|
  {
    var x :| x in ids;
    if ids != {x} {
      MostRecentExists(sessions, ids - {x});
      var m :| m in ids - {x} && forall o :: o in ids - {x} ==> sessions[o].lastAccessed <= sessions[m].lastAccessed;
      if sessions[x].lastAccessed > sessions[m].lastAccessed {
        assert forall o :: o in ids ==> sessions[o].lastAccessed <= sessions[x].lastAccessed;
      } else {
        assert forall o :: o in ids ==> sessions[o].lastAccessed <= sessions[m].lastAccessed;
      }
    } else {
      assert forall o :: o in ids ==> o == x;
    }
  }

  /** A sequence without repetitions is as long as the set of its elements. */
  lemma {:induction false} DistinctCardinality(ids: seq<string>)
    requires Distinct(ids)
    ensures |set i | 0 <= i < |ids| :: ids[i]| == |ids|
  {
    if ids != [] {
      var last := ids[|ids| - 1];
      var front := ids[..|ids| - 1];
      assert Distinct(front);
      DistinctCardinality(front);
      var s := set i | 0 <= i < |ids| :: ids[i];
      var f := set i | 0 <= i < |front| :: front[i];
      assert s == f + {last};
      assert last !in f;
    }
  }

  /** A sequence of distinct members of `ids` as long as `ids` holds all of them. */
  lemma DistinctCovers(order: seq<string>, ids: set<string>)
    requires Distinct(order) && |order| == |ids|
    requires forall i :: 0 <= i < |order| ==> order[i] in ids
    ensures forall id :: id in ids ==> id in order
  {
    var s := set i | 0 <= i < |order| :: order[i];
    DistinctCardinality(order);
    var rest := ids - s;
    assert ids == s + rest;
    assert s * rest == {};
    assert |rest| == 0;
    forall id | id in ids
      ensures id in order
    {
      assert id !in rest;
      assert id in s;
    }
  }

  /** One entry of the dashboard summary. */
  datatype DashboardEntry = DashboardEntry(
    id: string,
    name: Option<string>,
    createdAt: int,
    lastAccessed: int,
    status: SessionStatus,
    messageCount: int,
    totalTokens: int,
    workingDirectory: string)

  /** The dashboard entry of a row. */
  function Summary(row: SessionRow): DashboardEntry
  {
    DashboardEntry(row.id, row.name, row.createdAt, row.lastAccessed, row.status,
                   row.messageCount, row.usage.total, row.workingDirectory)
  }

  // ---------------------------------------------------------------------------
  // Messages
  // ---------------------------------------------------------------------------

  /** The messages of one session, in table order. */
  function OfSession(messages: seq<MessageRow>, sessionId: string): (r: seq<MessageRow>)
    ensures forall m <- r :: m in messages && m.sessionId == sessionId
    ensures forall m <- messages :: m.sessionId == sessionId ==> m in r
  {
    if messages == [] then []
    else
      var rest := OfSession(messages[1..], sessionId);
      if messages[0].sessionId == sessionId then [messages[0]] + rest else rest
  }

  predicate Ascending(ms: seq<MessageRow>)
  {
    forall i, j :: 0 <= i < j < |ms| ==> ms[i].createdAt <= ms[j].createdAt
  }

  /** Inserts `m` before the first message not earlier than it, so that `m` precedes the
      messages of its own time. */
  function InsertByTime(m: MessageRow, ms: seq<MessageRow>): (r: seq<MessageRow>)
    ensures |r| == |ms| + 1
    ensures multiset(r) == multiset(ms) + multiset{m}
  {
    if ms == [] then [m]
    else if m.createdAt <= ms[0].createdAt then [m] + ms
    else
      assert ms == [ms[0]] + ms[1..];
      [ms[0]] + InsertByTime(m, ms[1..])
  }

  /** Inserting into an ascending history keeps it ascending. */
  lemma {:induction false} InsertKeepsAscending(m: MessageRow, ms: seq<MessageRow>)
    requires Ascending(ms)
    ensures Ascending(InsertByTime(m, ms))
  {
    if ms != [] && m.createdAt > ms[0].createdAt {
      var rest := InsertByTime(m, ms[1..]);
      InsertKeepsAscending(m, ms[1..]);
      forall i | 0 <= i < |rest|
        ensures ms[0].createdAt <= rest[i].createdAt
      {
        assert rest[i] in multiset(ms[1..]) + multiset{m};
        if rest[i] != m {
          assert rest[i] in ms[1..];
        }
      }
    }
  }

  /** `order_by(created_at.asc())`, keeping table order among equal times. */
  function SortByTime(ms: seq<MessageRow>): (r: seq<MessageRow>)
    ensures Ascending(r)
    ensures multiset(r) == multiset(ms)
    ensures |r| == |ms|
  {
    if ms == [] then []
    else
      assert ms == [ms[0]] + ms[1..];
      InsertKeepsAscending(ms[0], SortByTime(ms[1..]));
      InsertByTime(ms[0], SortByTime(ms[1..]))
  }

  /** The messages created at time `t`, in the order they appear. */
  function AtTime(ms: seq<MessageRow>, t: int): (r: seq<MessageRow>)
    ensures forall m <- r :: m.createdAt == t
  {
    if ms == [] then []
    else if ms[0].createdAt == t then [ms[0]] + AtTime(ms[1..], t)
    else AtTime(ms[1..], t)
  }

  /** Inserting `m` puts it ahead of every message of its own time and leaves the order
      of the other times alone. */
  lemma {:induction false} InsertAtTime(m: MessageRow, ms: seq<MessageRow>, t: int)
    ensures AtTime(InsertByTime(m, ms), t) == (if m.createdAt == t then [m] else []) + AtTime(ms, t)
  {
    var r := InsertByTime(m, ms);
    if ms == [] {
    } else if m.createdAt <= ms[0].createdAt {
      assert r[1..] == ms;
    } else {
      assert r[0] == ms[0] && r[1..] == InsertByTime(m, ms[1..]);
      InsertAtTime(m, ms[1..], t);
    }
  }

  /** The sort is stable: the messages of any one time keep their table order. */
  lemma {:induction false} SortIsStable(ms: seq<MessageRow>, t: int)
    ensures AtTime(SortByTime(ms), t) == AtTime(ms, t)
  {
    if ms != [] {
      SortIsStable(ms[1..], t);
      InsertAtTime(ms[0], SortByTime(ms[1..]), t);
    }
  }

  /** A message row as `get_messages` returns it. */
  function ViewOf(m: MessageRow): MessageView
  {
    MessageView(m.id, m.role, m.content, m.createdAt, m.durationMs, m.inputTokens, m.outputTokens, ToolsOf(m.toolsUsed))
  }

  /** The session's messages, oldest first: exactly the session's rows, each once. */
  function SessionHistory(messages: seq<MessageRow>, sessionId: string): (r: seq<MessageRow>)
    ensures Ascending(r)
    ensures multiset(r) == multiset(OfSession(messages, sessionId))
    ensures forall m <- r :: m.sessionId == sessionId && m in messages
    ensures forall m <- messages :: m.sessionId == sessionId ==> m in r
    ensures |r| == |OfSession(messages, sessionId)|
  {
    var r := SortByTime(OfSession(messages, sessionId));
    assert forall m :: m in r <==> m in multiset(r);
    r
  }

  // ---------------------------------------------------------------------------
  // The store
  // ---------------------------------------------------------------------------

  /** `SessionManager` over its two tables. */
  class SessionManager {
    var sessions: map<string, SessionRow>
    var messages: seq<MessageRow>
    var nextMessageId: nat

    /** Every row is stored under its own id, and message ids are below the next one. */
    ghost predicate Valid()
      reads this
    {
      (forall id :: id in sessions ==> sessions[id].id == id) &&
      1 <= nextMessageId &&
      (forall i :: 0 <= i < |messages| ==> 1 <= messages[i].id < nextMessageId)
    }

    constructor ()
      ensures Valid() && sessions == map[] && messages == [] && nextMessageId == 1
    {
      sessions := map[];
      messages := [];
      nextMessageId := 1;
    }

    /** `create_session` with `id` as the generated uuid: inserts exactly one new row. */
    method CreateSession(id: string, name: Option<string>, workingDirectory: string,
                         allowedTools: Option<seq<string>>, now: int) returns (r: SessionResponse)
      requires Valid() && id !in sessions
      modifies this
      ensures Valid()
      ensures sessions == old(sessions)[id := NewRow(id, name, workingDirectory, allowedTools, now)]
      ensures messages == old(messages) && nextMessageId == old(nextMessageId)
      ensures r == ToResponse(sessions[id])
    {
      var tools := if allowedTools.Some? && allowedTools.value != [] then allowedTools.value else DefaultTools;
      var row := SessionRow(id, name, None, now, now, Active, workingDirectory, Text.Join(tools, ','), Zero, 0);
      sessions := sessions[id := row];
      r := ToResponse(row);
    }

    /** `get_session`: refreshes `last_accessed` of a present row and changes nothing else. */
    method GetSession(id: string, now: int) returns (r: Option<SessionResponse>)
      requires Valid()
      modifies this
      ensures Valid() && messages == old(messages) && nextMessageId == old(nextMessageId)
      ensures id !in old(sessions) ==> r == None && sessions == old(sessions)
      ensures id in old(sessions) ==>
                sessions == old(sessions)[id := old(sessions)[id].(lastAccessed := now)] &&
                r == Some(ToResponse(sessions[id]))
      ensures r.Some? ==> r.value.id == id
    {
      if id !in sessions {
        return None;
      }
      var row := sessions[id].(lastAccessed := now);
      sessions := sessions[id := row];
      r := Some(ToResponse(row));
    }

    /** `order_by(last_accessed.desc())` over the rows in `ids`: each of them once, most
        recently accessed first, in any order among equal times. */
    method OrderByRecency(ids: set<string>) returns (order: seq<string>)
      requires ids <= sessions.Keys
      ensures |order| == |ids| && Distinct(order)
      ensures forall i :: 0 <= i < |order| ==> order[i] in ids
      ensures ByRecency(sessions, order)
    {
      var remaining := ids;
      order := [];
      while remaining != {}
        invariant remaining <= ids
        invariant forall i :: 0 <= i < |order| ==> order[i] in ids && order[i] !in remaining
        invariant forall id :: id in ids ==> id in remaining || id in order
        invariant Distinct(order)
        invariant ByRecency(sessions, order)
        invariant forall i, o :: 0 <= i < |order| && o in remaining ==>
                    sessions[o].lastAccessed <= sessions[order[i]].lastAccessed
        decreases |remaining|
      {
        MostRecentExists(sessions, remaining);
        var best :| best in remaining && forall o :: o in remaining ==> sessions[o].lastAccessed <= sessions[best].lastAccessed;
        order := order + [best];
        remaining := remaining - {best};
      }
      DistinctCardinality(order);
      assert (set i | 0 <= i < |order| :: order[i]) == ids;
    }

    /** `list_sessions`: the rows passing the status filter, most recently accessed first
        (in any order among equal times), paged by `offset` and `limit`; `total` counts all
        the rows passing the filter. `order` is the full ordering the page is cut from. */
    method ListSessions(limit: nat, offset: nat, status: Option<SessionStatus>)
      returns (page: seq<SessionResponse>, total: nat, order: seq<string>)
      requires Valid()
      ensures total == |set id | id in sessions && Selected(sessions[id], status)|
      ensures |order| == total && Distinct(order)
      ensures forall i :: 0 <= i < |order| ==> order[i] in sessions && Selected(sessions[order[i]], status)
      ensures forall id :: id in sessions && Selected(sessions[id], status) ==> id in order
      ensures ByRecency(sessions, order)
      ensures page == Page(Responses(sessions, order), offset, limit)
      ensures forall i :: 0 <= i < |page| ==> offset + i < |order| && page[i].id == order[offset + i]
    {
      var matching := set id | id in sessions && Selected(sessions[id], status);
      order := OrderByRecency(matching);
      DistinctCovers(order, matching);
      total := |matching|;
      page := Page(Responses(sessions, order), offset, limit);
    }

    /** `get_all_sessions_with_messages`: a summary of every session, most recently accessed
        first. `order` is the ids in the order the entries have. */
    method AllSessions() returns (entries: seq<DashboardEntry>, order: seq<string>)
      ensures |order| == |sessions.Keys| && Distinct(order)
      ensures forall id :: id in sessions ==> id in order
      ensures forall i :: 0 <= i < |order| ==> order[i] in sessions
      ensures ByRecency(sessions, order)
      ensures |entries| == |order|
      ensures forall i :: 0 <= i < |order| ==> entries[i] == Summary(sessions[order[i]])
    {
      order := OrderByRecency(sessions.Keys);
      DistinctCovers(order, sessions.Keys);
      var rows := sessions;
      entries := seq(|order|, i requires 0 <= i < |order| && order[i] in rows => Summary(rows[order[i]]));
    }

    /** `update_session`: `None` and no change for an unknown id; otherwise only that row
        changes, as `UpdatedRow` says. */
    method UpdateSession(id: string, claudeSessionId: Option<string>, status: Option<SessionStatus>,
                         tokenUsage: Option<map<string, int>>, incrementMessages: bool, now: int)
      returns (r: Option<SessionResponse>)
      requires Valid()
      modifies this
      ensures Valid() && messages == old(messages) && nextMessageId == old(nextMessageId)
      ensures id !in old(sessions) ==> r == None && sessions == old(sessions)
      ensures id in old(sessions) ==>
                sessions == old(sessions)[id := UpdatedRow(old(sessions)[id], claudeSessionId, status, tokenUsage, incrementMessages, now)] &&
                r == Some(ToResponse(sessions[id]))
    {
      if id !in sessions {
        return None;
      }
      var row := UpdatedRow(sessions[id], claudeSessionId, status, tokenUsage, incrementMessages, now);
      sessions := sessions[id := row];
      r := Some(ToResponse(row));
    }

    /** `delete_session`: true exactly when the row existed; removes only it. */
    method DeleteSession(id: string) returns (deleted: bool)
      requires Valid()
      modifies this
      ensures Valid() && messages == old(messages) && nextMessageId == old(nextMessageId)
      ensures deleted <==> id in old(sessions)
      ensures sessions == old(sessions) - {id}
    {
      deleted := id in sessions;
      sessions := sessions - {id};
    }

    /** `fork_session` with `newId` as the generated uuid: reads the original through
        `get_session` (refreshing it), then creates a session with its directory and tools. */
    method ForkSession(id: string, newId: string, newName: Option<string>, now: int)
      returns (r: Option<SessionResponse>)
      requires Valid() && newId !in sessions && newId != id
      modifies this
      ensures Valid() && messages == old(messages) && nextMessageId == old(nextMessageId)
      ensures id !in old(sessions) ==> r == None && sessions == old(sessions)
      ensures id in old(sessions) ==>
                var original := old(sessions)[id];
                var tools := ToolsOf(original.allowedTools);
                sessions == old(sessions)[id := original.(lastAccessed := now)]
                                         [newId := NewRow(newId, Some(ForkName(newName, original.name)),
                                                          original.workingDirectory, Some(tools), now)] &&
                r == Some(ToResponse(sessions[newId]))
    {
      var original := GetSession(id, now);
      if original.None? {
        return None;
      }
      var o := original.value;
      var name := if Truthy(newName) then newName.value
                  else (if Truthy(o.name) then o.name.value else "session") + "_fork";
      var forked := CreateSession(newId, Some(name), o.workingDirectory, Some(o.allowedTools), now);
      r := Some(forked);
    }

    /** `cleanup_expired`: removes exactly the rows last accessed before `now - ttl` and
        returns how many there were. */
    method CleanupExpired(now: int, ttl: int) returns (count: nat)
      requires Valid()
      modifies this
      ensures Valid() && messages == old(messages) && nextMessageId == old(nextMessageId)
      ensures sessions == map id | id in old(sessions) && old(sessions)[id].lastAccessed >= now - ttl :: old(sessions)[id]
      ensures count == |set id | id in old(sessions) && old(sessions)[id].lastAccessed < now - ttl|
      ensures count + |sessions.Keys| == |old(sessions).Keys|
    {
      var cutoff := now - ttl;
      var expired := set id | id in sessions && sessions[id].lastAccessed < cutoff;
      var kept := map id | id in sessions && sessions[id].lastAccessed >= cutoff :: sessions[id];
      assert kept.Keys + expired == sessions.Keys;
      assert kept.Keys * expired == {};
      count := |expired|;
      sessions := kept;
    }

    /** `get_claude_session_id`: the stored agent session id, `None` for an unknown id. */
    method GetClaudeSessionId(id: string) returns (r: Option<string>)
      ensures id !in sessions ==> r == None
      ensures id in sessions ==> r == sessions[id].claudeSessionId
    {
      r := if id in sessions then sessions[id].claudeSessionId else None;
    }

    /** `add_message`: appends one row with the next id; tools are stored comma-joined. */
    method AddMessage(sessionId: string, role: string, content: string, durationMs: int,
                      inputTokens: int, outputTokens: int, toolsUsed: Option<seq<string>>, now: int)
      requires Valid()
      modifies this
      ensures Valid() && sessions == old(sessions)
      ensures messages == old(messages) + [MessageRow(old(nextMessageId), sessionId, role, content, now,
                                                      durationMs, inputTokens, outputTokens, StoreTools(toolsUsed))]
      ensures nextMessageId == old(nextMessageId) + 1
    {
      var stored := if toolsUsed.Some? && toolsUsed.value != [] then Text.Join(toolsUsed.value, ',') else "";
      messages := messages + [MessageRow(nextMessageId, sessionId, role, content, now,
                                         durationMs, inputTokens, outputTokens, stored)];
      nextMessageId := nextMessageId + 1;
    }

    /** `get_messages`: the session's messages, oldest first. */
    method GetMessages(sessionId: string) returns (views: seq<MessageView>)
      ensures |views| == |OfSession(messages, sessionId)| == |SessionHistory(messages, sessionId)|
      ensures forall i :: 0 <= i < |views| ==> views[i] == ViewOf(SessionHistory(messages, sessionId)[i])
      ensures forall i, j :: 0 <= i < j < |views| ==> views[i].createdAt <= views[j].createdAt
    {
      var history := SessionHistory(messages, sessionId);
      views := seq(|history|, i requires 0 <= i < |history| => ViewOf(history[i]));
    }
  }
}

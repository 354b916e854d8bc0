/** MemoryManager (odyssey/agent/memory.py): the SQLite tables `tasks`,
    `plans`, `logs` and `self_modification_log`, held as rows in the instance,
    and the guards around the optional semantic vector store.

    Timestamps come from a logical clock that ticks once for every write that
    stamps a row (`utcnow()` in the source); ids follow SQLite AUTOINCREMENT,
    so the row at position i has id i + 1. */
module Memory {
  import opened Common
  import opened Json
  import opened Sorting
  import VectorStore

  const AllowedLevels: seq<string> := ["INFO", "WARNING", "ERROR", "DEBUG", "CRITICAL"]

  /** The level `log_event` stores: the upper-cased level when it is one of the
      allowed ones, "INFO" otherwise. */
  function NormaliseLevel(level: string): (r: string)
    ensures r in AllowedLevels
    ensures Upper(level) in AllowedLevels <==> r == Upper(level)
    ensures Upper(level) !in AllowedLevels ==> r == "INFO"
  {
    if Upper(level) in AllowedLevels then Upper(level) else "INFO"
  }

  datatype TaskRow = TaskRow(id: nat, description: string, status: string, timestamp: nat)
  datatype PlanRow = PlanRow(id: nat, details: string, timestamp: nat)
  datatype LogRow = LogRow(id: nat, message: string, level: string, timestamp: nat)

  /** A row of `self_modification_log`; nullable columns are options. */
  datatype Proposal = Proposal(
    proposalId: string,
    branchName: string,
    commitMessage: string,
    status: string,
    validationOutput: Option<string>,
    createdAt: nat,
    updatedAt: nat,
    approvedBy: Option<string>)

  /** The arguments of one `log_proposal_step` call. */
  datatype Step = Step(
    proposalId: string,
    branchName: string,
    commitMessage: string,
    status: string,
    validationOutput: Option<string>,
    approvedBy: Option<string>)

  /** The table after the upsert of `log_proposal_step` at time `now`: a new id
      gets a fresh row; on conflict every column except proposal_id and
      created_at takes the new value. */
  function Upsert(m: map<string, Proposal>, s: Step, now: nat): (r: map<string, Proposal>)
    ensures r.Keys == m.Keys + {s.proposalId}
    ensures forall k :: k in m && k != s.proposalId ==> r[k] == m[k]
  {
    var created := if s.proposalId in m then m[s.proposalId].createdAt else now;
    m[s.proposalId := Proposal(s.proposalId, s.branchName, s.commitMessage, s.status,
                               s.validationOutput, created, now, s.approvedBy)]
  }

  /** The table after the steps `ws`, the k-th written at time `t0 + k + 1`. */
  function ApplySteps(m: map<string, Proposal>, ws: seq<Step>, t0: nat): (r: map<string, Proposal>)
    ensures m.Keys <= r.Keys
    decreases |ws|
  {
    if ws == [] then m else ApplySteps(Upsert(m, ws[0], t0 + 1), ws[1..], t0 + 1)
  }

  /** The first write for an id creates a record whose created_at equals its
      updated_at, with the given nullable columns (None when omitted). */
  lemma UpsertCreates(m: map<string, Proposal>, s: Step, now: nat)
    requires s.proposalId !in m
    ensures var p := Upsert(m, s, now)[s.proposalId];
            p.createdAt == p.updatedAt == now &&
            p.branchName == s.branchName && p.commitMessage == s.commitMessage && p.status == s.status &&
            p.validationOutput == s.validationOutput && p.approvedBy == s.approvedBy
  {
  }

  /** A later write keeps proposal_id and created_at and overwrites every other
      column, so omitting validation_output or approved_by clears it. */
  lemma UpsertOverwrites(m: map<string, Proposal>, s: Step, now: nat)
    requires s.proposalId in m
    ensures var p := Upsert(m, s, now)[s.proposalId];
            p.proposalId == s.proposalId && p.createdAt == m[s.proposalId].createdAt &&
            p.updatedAt == now && p.branchName == s.branchName && p.commitMessage == s.commitMessage &&
            p.status == s.status && p.validationOutput == s.validationOutput && p.approvedBy == s.approvedBy
  {
  }

  /** A write for one id leaves every other record alone and is the last word
      on its own id until the next write for it. */
  lemma {:induction false} ApplyStepsLast(m: map<string, Proposal>, ws: seq<Step>, t0: nat)
    requires ws != []
    ensures var r := ApplySteps(m, ws, t0);
            var last := ws[|ws| - 1];
            last.proposalId in r &&
            r[last.proposalId].status == last.status &&
            r[last.proposalId].validationOutput == last.validationOutput &&
            r[last.proposalId].approvedBy == last.approvedBy &&
            r[last.proposalId].updatedAt == t0 + |ws|
    decreases |ws|
  {
    if |ws| > 1 {
      ApplyStepsLast(Upsert(m, ws[0], t0 + 1), ws[1..], t0 + 1);
      assert ws[1..][|ws[1..]| - 1] == ws[|ws| - 1];
    }
  }

  /** Writing `a` and then `b` is writing `a + b`. */
  lemma {:induction false} ApplyStepsAppend(m: map<string, Proposal>, a: seq<Step>, b: seq<Step>, t0: nat)
    ensures ApplySteps(m, a + b, t0) == ApplySteps(ApplySteps(m, a, t0), b, t0 + |a|)
    decreases |a|
  {
    if a == [] {
      assert a + b == b;
    } else {
      assert (a + b)[0] == a[0];
      assert (a + b)[1..] == a[1..] + b;
      ApplyStepsAppend(Upsert(m, a[0], t0 + 1), a[1..], b, t0 + 1);
    }
  }

  /** A single write is one upsert at the next clock value. */
  lemma OneWrite(m: map<string, Proposal>, s: Step, t0: nat)
    ensures ApplySteps(m, [s], t0) == Upsert(m, s, t0 + 1)
  {
    assert [s][1..] == [];
  }

  /** Two writes one after the other. */
  lemma TwoWrites(m: map<string, Proposal>, ws: seq<Step>, t0: nat)
    requires |ws| == 2
    ensures ApplySteps(ApplySteps(m, [ws[0]], t0), [ws[1]], t0 + 1) == ApplySteps(m, ws, t0)
  {
    ApplyStepsAppend(m, [ws[0]], [ws[1]], t0);
    assert [ws[0]] + [ws[1]] == ws;
  }

  lemma {:induction false} ApplyStepsOthers(m: map<string, Proposal>, ws: seq<Step>, t0: nat, k: string)
    requires k in m && forall w :: w in ws ==> w.proposalId != k
    ensures k in ApplySteps(m, ws, t0) && ApplySteps(m, ws, t0)[k] == m[k]
    decreases |ws|
  {
    if ws != [] {
      assert ws[0] in ws;
      assert forall w :: w in ws[1..] ==> w in ws;
      ApplyStepsOthers(Upsert(m, ws[0], t0 + 1), ws[1..], t0 + 1, k);
    }
  }

  /** Sort keys and filters of the list queries. */
  function TaskStamp(t: TaskRow): int { t.timestamp }
  function PlanStamp(p: PlanRow): int { p.timestamp }
  function LogStamp(l: LogRow): int { l.timestamp }
  function ProposalStamp(p: Proposal): int { p.updatedAt }

  function StatusIs(filter: Option<string>): TaskRow -> bool {
    (t: TaskRow) => !TruthyStr(filter) || t.status == filter.value
  }

  function LevelIs(filter: Option<string>): LogRow -> bool {
    (l: LogRow) => !TruthyStr(filter) || l.level == Upper(filter.value)
  }

  /** How many rows `LIMIT limit` lets through out of n. */
  function Limited(n: nat, limit: int): nat {
    if limit < 0 || limit >= n then n else limit
  }

  /** One element of `semantic_search`'s result list. */
  datatype SearchItem = Found(hit: VectorStore.Hit) | SearchError(error: string)

  /** The records of a table in the order of its ids. */
  function InOrder(order: seq<string>, table: map<string, Proposal>): (r: seq<Proposal>)
    requires forall i :: 0 <= i < |order| ==> order[i] in table
    ensures |r| == |order| && forall i :: 0 <= i < |order| ==> r[i] == table[order[i]]
  {
    seq(|order|, i requires 0 <= i < |order| => table[order[i]])
  }

  /** Listing the records along a duplicate-free order lists no record twice. */
  lemma InOrderDistinct(order: seq<string>, table: map<string, Proposal>)
    requires forall i :: 0 <= i < |order| ==> order[i] in table
    requires forall i, j :: 0 <= i < j < |order| ==> order[i] != order[j]
    requires forall k :: k in table ==> table[k].proposalId == k
    ensures var rows := InOrder(order, table);
            forall i, j :: 0 <= i < j < |rows| ==> rows[i] != rows[j]
  {
    var rows := InOrder(order, table);
    forall i, j | 0 <= i < j < |rows|
      ensures rows[i] != rows[j]
    {
      assert rows[i].proposalId == order[i] && rows[j].proposalId == order[j];
    }
  }

  /** Records drawn without repeats from a ledger keyed by their own ids
      carry pairwise different ids. */
  lemma DistinctIds(r: seq<Proposal>, rows: seq<Proposal>, table: map<string, Proposal>)
    requires multiset(r) <= multiset(rows)
    requires forall i, j :: 0 <= i < j < |rows| ==> rows[i] != rows[j]
    requires forall p :: p in r ==> p.proposalId in table && table[p.proposalId] == p
    ensures forall i, j :: 0 <= i < j < |r| ==> r[i].proposalId != r[j].proposalId
  {
    SubMultisetDistinct(r, rows);
    forall i, j | 0 <= i < j < |r|
      ensures r[i].proposalId != r[j].proposalId
    {
      assert r[i] in r && r[j] in r;
    }
  }

  /** Listing the records along a duplicate-free order of all ids yields
      every record exactly once. */
  lemma InOrderCovers(order: seq<string>, table: map<string, Proposal>)
    requires Elems(order) == table.Keys
    requires forall i, j :: 0 <= i < j < |order| ==> order[i] != order[j]
    requires forall k :: k in table ==> table[k].proposalId == k
    ensures var rows := InOrder(order, table);
            && |rows| == |table|
            && (forall p :: p in rows ==> p.proposalId in table && table[p.proposalId] == p)
            && (forall k :: k in table ==> table[k] in rows)
  {
    var rows := InOrder(order, table);
    DistinctCard(order);
    assert |table| == |table.Keys|;
    forall k | k in table
      ensures table[k] in rows
    {
      var i :| 0 <= i < |order| && order[i] == k;
      assert rows[i] == table[k];
    }
  }

  class MemoryManager {
    var tasks: seq<TaskRow>
    var plans: seq<PlanRow>
    var logs: seq<LogRow>
    var proposals: map<string, Proposal>
    /** Proposal ids in the order their rows were first inserted. */
    var proposalOrder: seq<string>
    var clock: nat
    /** Connections opened on the database and not yet closed. */
    var openConnections: nat
    var vectorStore: VectorStore.ChromaVectorStore?

    ghost predicate Valid()
      reads this`tasks, this`plans, this`logs, this`proposals, this`proposalOrder, this`clock
    {
      TablesValid() && LedgerValid()
    }

    /** Row ids are 1, 2, 3, ... in insertion order; stored log levels are allowed ones. */
    ghost predicate TablesValid()
      reads this`tasks, this`plans, this`logs
    {
      && (forall i :: 0 <= i < |tasks| ==> tasks[i].id == i + 1)
      && (forall i :: 0 <= i < |plans| ==> plans[i].id == i + 1)
      && (forall i :: 0 <= i < |logs| ==> logs[i].id == i + 1 && StoredLevel(logs[i]))
    }

    /** Every proposal is listed once in insertion order, under its own id,
        and was written no later than the current clock. */
    ghost predicate LedgerValid()
      reads this`proposals, this`proposalOrder, this`clock
    {
      && Elems(proposalOrder) == proposals.Keys
      && (forall i, j :: 0 <= i < j < |proposalOrder| ==> proposalOrder[i] != proposalOrder[j])
      && (forall k :: k in proposals ==>
            proposals[k].proposalId == k && proposals[k].createdAt <= proposals[k].updatedAt <= clock)
    }

    /** The proposal table changed by exactly the writes `ws` (in order) and
        nothing else in the database changed. */
    twostate predicate LedgerWrote(ws: seq<Step>)
      reads this
    {
      && proposals == ApplySteps(old(proposals), ws, old(clock))
      && clock == old(clock) + |ws|
      && tasks == old(tasks) && plans == old(plans) && logs == old(logs)
      && vectorStore == old(vectorStore) && openConnections == old(openConnections)
    }

    constructor (store: VectorStore.ChromaVectorStore?)
      ensures Valid()
      ensures tasks == [] && plans == [] && logs == [] && proposals == map[]
      ensures openConnections == 1 && vectorStore == store
    {
      tasks, plans, logs := [], [], [];
      proposals, proposalOrder := map[], [];
      clock, openConnections := 0, 1;
      vectorStore := store;
    }

    /** Opening another `MemoryManager` on the same database file. */
    method Connect()
      modifies this`openConnections
      ensures openConnections == old(openConnections) + 1
    {
      openConnections := openConnections + 1;
    }

    /** `close()` */
    method Close()
      modifies this`openConnections
      ensures openConnections == if old(openConnections) > 0 then old(openConnections) - 1 else 0
    {
      if openConnections > 0 {
        openConnections := openConnections - 1;
      }
    }

    // ------------------------------------------------------------------ tasks

    /** `add_task`: a new row with status 'pending'; returns its fresh id. */
    method AddTask(description: string) returns (id: nat)
      requires Valid()
      modifies this`tasks, this`clock
      ensures Valid()
      ensures forall i :: 0 <= i < |old(tasks)| ==> old(tasks)[i].id != id
      ensures tasks == old(tasks) + [TaskRow(id, description, "pending", clock)]
      ensures clock == old(clock) + 1
    {
      clock := clock + 1;
      id := |tasks| + 1;
      tasks := tasks + [TaskRow(id, description, "pending", clock)];
    }

    /** `get_tasks`: rows with the given status (all rows for a falsy filter),
        newest first, at most `limit` of them. */
    method GetTasks(statusFilter: Option<string>, limit: int) returns (r: seq<TaskRow>)
      ensures forall t :: t in r ==> t in tasks && (TruthyStr(statusFilter) ==> t.status == statusFilter.value)
      ensures forall i, j :: 0 <= i < j < |r| ==> r[i].timestamp >= r[j].timestamp
      ensures |r| == Limited(|Filter(tasks, StatusIs(statusFilter))|, limit)
      ensures forall x, y :: x in r && y in tasks && StatusIs(statusFilter)(y) && y !in r ==> y.timestamp <= x.timestamp
      ensures multiset(r) <= multiset(Filter(tasks, StatusIs(statusFilter)))
    {
      var rows, keep, key := tasks, StatusIs(statusFilter), TaskStamp;
      r := Query(rows, keep, key, limit);
      QueryProperties(rows, keep, key, limit, r);
      forall i, j | 0 <= i < j < |r|
        ensures r[i].timestamp >= r[j].timestamp
      {
        assert key(r[i]) >= key(r[j]);
      }
      forall x, y | x in r && y in rows && keep(y) && y !in r
        ensures y.timestamp <= x.timestamp
      {
        assert key(y) <= key(x);
      }
    }

    /** `update_task_status`: true iff a row has that id; only its status changes. */
    method UpdateTaskStatus(taskId: int, status: string) returns (ok: bool)
      requires Valid()
      modifies this`tasks
      ensures Valid()
      ensures ok <==> exists i :: 0 <= i < |old(tasks)| && old(tasks)[i].id == taskId
      ensures ok ==> tasks == old(tasks)[taskId - 1 := old(tasks)[taskId - 1].(status := status)]
      ensures !ok ==> tasks == old(tasks)
    {
      if 1 <= taskId <= |tasks| {
        assert tasks[taskId - 1].id == taskId;
        tasks := tasks[taskId - 1 := tasks[taskId - 1].(status := status)];
        ok := true;
      } else {
        ok := false;
      }
    }

    // ------------------------------------------------------------------ plans

    /** `add_plan` */
    method AddPlan(details: string) returns (id: nat)
      requires Valid()
      modifies this`plans, this`clock
      ensures Valid()
      ensures forall i :: 0 <= i < |old(plans)| ==> old(plans)[i].id != id
      ensures plans == old(plans) + [PlanRow(id, details, clock)]
      ensures clock == old(clock) + 1
    {
      clock := clock + 1;
      id := |plans| + 1;
      plans := plans + [PlanRow(id, details, clock)];
    }

    /** `get_plans`: newest first, at most `limit`. */
    method GetPlans(limit: int) returns (r: seq<PlanRow>)
      ensures forall p :: p in r ==> p in plans
      ensures forall i, j :: 0 <= i < j < |r| ==> r[i].timestamp >= r[j].timestamp
      ensures |r| == Limited(|plans|, limit)
      ensures forall x, y :: x in r && y in plans && y !in r ==> y.timestamp <= x.timestamp
      ensures multiset(r) <= multiset(plans)
    {
      var rows, key := plans, PlanStamp;
      r := Latest(rows, key, limit);
      LatestProperties(rows, key, limit, r);
      forall x, y | x in r && y in rows && y !in r
        ensures y.timestamp <= x.timestamp
      {
        assert key(y) <= key(x);
      }
    }

    // ------------------------------------------------------------------- logs

    /** `log_event`: stores the normalised level; returns the new row's id. */
    method LogEvent(message: string, level: string) returns (id: nat)
      requires Valid()
      modifies this`logs, this`clock
      ensures Valid()
      ensures id == |old(logs)| + 1
      ensures logs == old(logs) + [LogRow(id, message, NormaliseLevel(level), clock)]
      ensures clock == old(clock) + 1
    {
      var stored := if Upper(level) in AllowedLevels then Upper(level) else "INFO";
      clock := clock + 1;
      id := |logs| + 1;
      logs := logs + [LogRow(id, message, stored, clock)];
    }

    /** `get_logs`: rows whose level equals the upper-cased filter (all rows
        for a falsy filter), newest first, at most `limit`. */
    method GetLogs(levelFilter: Option<string>, limit: int) returns (r: seq<LogRow>)
      ensures forall l :: l in r ==> l in logs && (TruthyStr(levelFilter) ==> l.level == Upper(levelFilter.value))
      ensures forall i, j :: 0 <= i < j < |r| ==> r[i].timestamp >= r[j].timestamp
      ensures |r| == Limited(|Filter(logs, LevelIs(levelFilter))|, limit)
      ensures forall x, y :: x in r && y in logs && LevelIs(levelFilter)(y) && y !in r ==> y.timestamp <= x.timestamp
      ensures multiset(r) <= multiset(Filter(logs, LevelIs(levelFilter)))
    {
      var rows, keep, key := logs, LevelIs(levelFilter), LogStamp;
      r := Query(rows, keep, key, limit);
      QueryProperties(rows, keep, key, limit, r);
      forall i, j | 0 <= i < j < |r|
        ensures r[i].timestamp >= r[j].timestamp
      {
        assert key(r[i]) >= key(r[j]);
      }
      forall x, y | x in r && y in rows && keep(y) && y !in r
        ensures y.timestamp <= x.timestamp
      {
        assert key(y) <= key(x);
      }
    }

    // -------------------------------------------------------------- proposals

    /** `log_proposal_step`: the upsert, stamped with the next clock value. */
    method LogProposalStep(proposalId: string, branchName: string, commitMessage: string, status: string,
                           validationOutput: Option<string>, approvedBy: Option<string>)
      requires LedgerValid()
      modifies this`proposals, this`proposalOrder, this`clock
      ensures LedgerValid()
      ensures LedgerWrote([Step(proposalId, branchName, commitMessage, status, validationOutput, approvedBy)])
    {
      var step := Step(proposalId, branchName, commitMessage, status, validationOutput, approvedBy);
      clock := clock + 1;
      if proposalId !in proposals {
        proposalOrder := proposalOrder + [proposalId];
      }
      proposals := Upsert(proposals, step, clock);
      assert ApplySteps(old(proposals), [step], old(clock)) == ApplySteps(proposals, [], clock);
    }

    /** `get_proposal_log`: the stored record for a known id, None otherwise. */
    method GetProposalLog(proposalId: string) returns (r: Option<Proposal>)
      requires LedgerValid()
      ensures proposalId in proposals <==> r.Some?
      ensures r.Some? ==> r.value == proposals[proposalId] && r.value.proposalId == proposalId
    {
      if proposalId in proposals {
        return Some(proposals[proposalId]);
      }
      return None;
    }

    /** `list_proposals`: records by descending updated_at, at most `limit`. */
    method ListProposals(limit: int) returns (r: seq<Proposal>)
      requires LedgerValid()
      ensures forall p :: p in r ==> p.proposalId in proposals && proposals[p.proposalId] == p
      ensures forall i, j :: 0 <= i < j < |r| ==> r[i].updatedAt >= r[j].updatedAt
      ensures |r| == Limited(|proposals|, limit)
      ensures forall x, k :: x in r && k in proposals && proposals[k] !in r ==> proposals[k].updatedAt <= x.updatedAt
      ensures forall i, j :: 0 <= i < j < |r| ==> r[i].proposalId != r[j].proposalId
    {
      var rows := InOrder(proposalOrder, proposals);
      InOrderCovers(proposalOrder, proposals);
      var key := ProposalStamp;
      r := Latest(rows, key, limit);
      LatestProperties(rows, key, limit, r);
      forall i, j | 0 <= i < j < |r|
        ensures r[i].updatedAt >= r[j].updatedAt
      {
        assert key(r[i]) >= key(r[j]);
      }
      forall x, k | x in r && k in proposals && proposals[k] !in r
        ensures proposals[k].updatedAt <= x.updatedAt
      {
        assert key(proposals[k]) <= key(x);
      }
      InOrderDistinct(proposalOrder, proposals);
      DistinctIds(r, rows, proposals);
    }

    // ------------------------------------------------------- semantic memory

    /** `add_semantic_memory_event`: the document id when the store accepted
        the document under that id, None otherwise. */
    method AddSemanticMemoryEvent(text: string, metadata: Obj, eventId: Option<string>,
                                  stamp: string, hex: string, addError: Option<Exc>)
      returns (r: Option<string>)
      modifies vectorStore
      ensures vectorStore == null ==> r == None
      ensures vectorStore != null ==> (r.Some? <==> text != "" && addError.None?)
      ensures r.Some? ==> r.value == OrElse(eventId, stamp + "_" + hex)
      ensures r.Some? ==> vectorStore.docs == old(vectorStore.docs)[r.value := VectorStore.Entry(text, metadata)]
      ensures r.None? && vectorStore != null ==> vectorStore.docs == old(vectorStore.docs)
    {
      if vectorStore == null {
        return None;
      }
      var docId := OrElse(eventId, stamp + "_" + hex);
      var doc := VectorStore.InputDoc(Some(text), Some(metadata), Some(docId));
      var uuid := (k: nat) => "";
      var added := vectorStore.AddDocuments([doc], uuid, addError);
      FilterSingle(doc, VectorStore.Keeps);
      if text != "" {
        var entry := VectorStore.Entry(text, metadata);
        assert TruthyStr(doc.id) by {
          assert |stamp + "_" + hex| > 0;
        }
        assert Filter([doc], VectorStore.Keeps) == [doc];
        var ids := VectorStore.KeptIds([doc], uuid);
        assert |ids| == 1 && ids[0] == OrElse(doc.id, uuid(0));
        assert ids == [docId];
        assert VectorStore.KeptEntries([doc]) == [entry];
        assert VectorStore.AddAll(old(vectorStore.docs), [docId], [entry]) == old(vectorStore.docs)[docId := entry] by {
          assert [docId][..0] == [] && [entry][..0] == [];
        }
      }
      if added.Ok? && added.value != [] && added.value[0] == docId {
        r := Some(docId);
      } else {
        r := None;
      }
    }

    /** `semantic_search`: an error item without a store, otherwise the
        store's formatted results. */
    method SemanticSearch(queryText: string, topK: int, filter: Obj, reply: VectorStore.QueryReply)
      returns (r: seq<SearchItem>)
      ensures vectorStore == null ==> r == [SearchError("Semantic search not available / Vector store not initialized.")]
      ensures vectorStore != null ==>
                var hits := VectorStore.QueryResults(topK, reply);
                |r| == |hits| && forall i :: 0 <= i < |r| ==> r[i] == Found(hits[i])
    {
      if vectorStore == null {
        return [SearchError("Semantic search not available / Vector store not initialized.")];
      }
      var hits := vectorStore.QuerySimilarDocuments(queryText, topK, filter, reply);
      r := seq(|hits|, i requires 0 <= i < |hits| => Found(hits[i]));
    }
  }

  lemma FilterSingle<T>(x: T, keep: T -> bool)
    ensures Filter([x], keep) == if keep(x) then [x] else []
  {
    assert [x][1..] == [];
  }

  /** Stored levels are always allowed ones, so a filter on any other level,
      such as "USER_NOTE", finds nothing. */
  lemma {:induction false} NoRowsAtUnknownLevel(logs: seq<LogRow>, filter: string)
    requires forall i :: 0 <= i < |logs| ==> logs[i].level in AllowedLevels
    requires filter != "" && Upper(filter) !in AllowedLevels
    ensures Filter(logs, LevelIs(Some(filter))) == []
  {
    if logs != [] {
      StoredLevelMisses(logs[0], filter);
      assert forall i :: 0 <= i < |logs[1..]| ==> logs[1..][i] == logs[i + 1];
      NoRowsAtUnknownLevel(logs[1..], filter);
    }
  }

  predicate StoredLevel(l: LogRow) {
    l.level in AllowedLevels
  }

  lemma StoredLevelMisses(l: LogRow, filter: string)
    requires StoredLevel(l)
    requires filter != "" && Upper(filter) !in AllowedLevels
    ensures !LevelIs(Some(filter))(l)
  {
  }
}

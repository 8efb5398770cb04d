/**
 * WorkflowClient.Get: look a PipelineRun up in the informer's cache and merge
 * the live status of its TaskRun and Run children into Status.TaskRuns and
 * Status.Runs.
 *
 * The cache lookup and the two list calls are given to Get as their results:
 * a list result is consulted only when Get issues that query, and Get reports
 * the queries it issued, in order.
 */
module WorkflowClient {
  import opened Wrappers
  import opened Util
  import opened Tekton

  // ---------------------------------------------------------------------------
  // Lookup failures

  /** A not-found error becomes the not-found code, every other error the generic one. */
  function ClassifyLookupError(e: LookupError): (code: CustomCode)
    ensures code == CustomCodeNotFound <==> e.isNotFound
    ensures code == CustomCodeGeneric <==> !e.isNotFound
  {
    if e.isNotFound then CustomCodeNotFound else CustomCodeGeneric
  }

  // ---------------------------------------------------------------------------
  // Child references

  /** The kinds the scan tells apart; every other kind string is OtherChild. */
  datatype ChildKind = TaskRunChild | RunChild | OtherChild

  function KindOf(kind: string): (k: ChildKind)
    ensures k == TaskRunChild <==> kind == TaskRunKind
    ensures k == RunChild <==> kind == RunKind
  {
    if kind == TaskRunKind then TaskRunChild
    else if kind == RunKind then RunChild
    else OtherChild
  }

  /** Some child reference has the given kind. */
  predicate HasChildOfKind(children: seq<ChildReference>, kind: string)
  {
    exists i | 0 <= i < |children| :: children[i].kind == kind
  }

  /** The single pass over Status.ChildReferences that sets the two flags. */
  method ScanChildKinds(children: seq<ChildReference>) returns (hasTaskRun: bool, hasRun: bool)
    ensures hasTaskRun <==> HasChildOfKind(children, TaskRunKind)
    ensures hasRun <==> HasChildOfKind(children, RunKind)
  {
    hasTaskRun, hasRun := false, false;
    for i := 0 to |children|
      invariant hasTaskRun <==> exists j | 0 <= j < i :: children[j].kind == TaskRunKind
      invariant hasRun <==> exists j | 0 <= j < i :: children[j].kind == RunKind
    {
      match KindOf(children[i].kind)
      case TaskRunChild => hasTaskRun := true;
      case RunChild => hasRun := true;
      case OtherChild =>
    }
  }

  // ---------------------------------------------------------------------------
  // Label selector

  /** Go's map index: the value under key, or "" when the key is absent. */
  function LabelValue(labels: map<string, string>, key: string): (v: string)
    ensures key in labels ==> v == labels[key]
    ensures key !in labels ==> v == ""
  {
    if key in labels then labels[key] else ""
  }

  /** The selector both list calls use: `<run-id key>=<the run's run-id label>`. */
  function RunIdSelector(labels: map<string, string>): (selector: string)
    ensures var n := |LabelKeyWorkflowRunId|;
      && |selector| > n && selector[..n] == LabelKeyWorkflowRunId && selector[n] == '='
      && selector[n + 1..] == LabelValue(labels, LabelKeyWorkflowRunId)
  {
    LabelKeyWorkflowRunId + "=" + LabelValue(labels, LabelKeyWorkflowRunId)
  }

  /** Splits s at the first occurrence of sep, as an equality label selector is read. */
  function SplitAtFirst(s: string, sep: char): (r: Option<(string, string)>)
    ensures r.None? <==> sep !in s
  {
    if s == [] then None
    else if s[0] == sep then Some(([], s[1..]))
    else match SplitAtFirst(s[1..], sep)
      case None => None
      case Some(kv) => Some(([s[0]] + kv.0, kv.1))
  }

  lemma {:induction false} SplitAtFirstJoin(key: string, sep: char, value: string)
    requires sep !in key
    ensures SplitAtFirst(key + [sep] + value, sep) == Some((key, value))
  {
    var s := key + [sep] + value;
    if key == [] {
      assert s[1..] == value;
    } else {
      assert s[1..] == key[1..] + [sep] + value;
      SplitAtFirstJoin(key[1..], sep, value);
      assert [key[0]] + key[1..] == key;
    }
  }

  /** The selector names exactly the run-id label key and the run's run-id, whatever that value holds. */
  lemma RunIdSelectorSelectsRunId(labels: map<string, string>)
    ensures SplitAtFirst(RunIdSelector(labels), '=') == Some((LabelKeyWorkflowRunId, LabelValue(labels, LabelKeyWorkflowRunId)))
  {
    assert forall i | 0 <= i < |LabelKeyWorkflowRunId| :: LabelKeyWorkflowRunId[i] != '=';
    SplitAtFirstJoin(LabelKeyWorkflowRunId, '=', LabelValue(labels, LabelKeyWorkflowRunId));
  }

  // ---------------------------------------------------------------------------
  // Status maps

  /** The map entry made for one list item: its pipelineTask label and its status. */
  function Entry(item: SubRecord): (e: ChildStatus)
    ensures e.pipelineTaskName == LabelValue(item.labels, PipelineTaskLabelKey)
    ensures e.status == item.status
  {
    ChildStatus(LabelValue(item.labels, PipelineTaskLabelKey), item.status)
  }

  /** The names of the items of a list result. */
  function Names(items: seq<SubRecord>): (ns: set<string>)
  {
    set i | 0 <= i < |items| :: items[i].name
  }

  /** The position of the last item called k. */
  function LastIndexOf(items: seq<SubRecord>, k: string): (j: nat)
    requires k in Names(items)
    ensures j < |items| && items[j].name == k
    ensures forall i | j < i < |items| :: items[i].name != k
  {
    var n := |items| - 1;
    if items[n].name == k then n
    else
      assert k in Names(items[..n]) by {
        var i :| 0 <= i < |items| && items[i].name == k;
        assert items[..n][i].name == k;
      }
      LastIndexOf(items[..n], k)
  }

  /** The map the insertion loop builds: the items inserted in order, each under its name. */
  function StatusMap(items: seq<SubRecord>): (m: map<string, ChildStatus>)
    ensures m.Keys == Names(items)
  {
    if items == [] then map[]
    else
      var n := |items| - 1;
      assert Names(items) == Names(items[..n]) + {items[n].name} by {
        forall k | k in Names(items) ensures k in Names(items[..n]) + {items[n].name} {
          var i :| 0 <= i < |items| && items[i].name == k;
          if i < n { assert items[..n][i].name == k; }
        }
        forall k | k in Names(items[..n]) ensures k in Names(items) {
          var i :| 0 <= i < n && items[..n][i].name == k;
          assert items[i].name == k;
        }
      }
      StatusMap(items[..n])[items[n].name := Entry(items[n])]
  }

  /** Independent reading of the same map: each name maps to the entry of its last item. */
  function LastWinsMap(items: seq<SubRecord>): (m: map<string, ChildStatus>)
  {
    map k | k in Names(items) :: Entry(items[LastIndexOf(items, k)])
  }

  /** When names repeat, the later item wins. */
  lemma {:induction false} StatusMapIsLastWins(items: seq<SubRecord>)
    ensures StatusMap(items) == LastWinsMap(items)
  {
    if items != [] {
      var n := |items| - 1;
      var p := items[..n];
      StatusMapIsLastWins(p);
      var m, r := StatusMap(items), LastWinsMap(items);
      assert m.Keys == r.Keys;
      forall k | k in m ensures m[k] == r[k] {
        if k == items[n].name {
          assert LastIndexOf(items, k) == n;
        } else {
          assert LastIndexOf(items, k) == LastIndexOf(p, k);
          assert items[LastIndexOf(p, k)] == p[LastIndexOf(p, k)];
        }
      }
    }
  }

  /** The loop at each list result: a fresh map, one insertion per item. */
  method BuildStatusMap(items: seq<SubRecord>) returns (statuses: map<string, ChildStatus>)
    ensures statuses.Keys == Names(items)
    ensures forall k | k in statuses :: statuses[k] == Entry(items[LastIndexOf(items, k)])
    ensures statuses == StatusMap(items)
  {
    statuses := map[];
    for i := 0 to |items|
      invariant statuses == StatusMap(items[..i])
    {
      assert items[..i + 1][..i] == items[..i];
      statuses := statuses[items[i].name := Entry(items[i])];
    }
    assert items[..|items|] == items;
    StatusMapIsLastWins(items);
  }

  // ---------------------------------------------------------------------------
  // What Get promises, as functions of its inputs

  /** The list calls Get issues for a record with these child references, in order. */
  function IssuedQueries(namespace: string, selector: string, children: Option<seq<ChildReference>>,
                         taskRunList: Result<seq<SubRecord>, ApiError>): (qs: seq<ListQuery>)
    ensures forall i | 0 <= i < |qs| :: qs[i].namespace == namespace && qs[i].labelSelector == selector
    ensures ListQuery(TaskRunResource, namespace, selector) in qs
            <==> children.Some? && HasChildOfKind(children.value, TaskRunKind)
    ensures ListQuery(RunResource, namespace, selector) in qs
            <==> children.Some? && HasChildOfKind(children.value, RunKind)
                 && !(HasChildOfKind(children.value, TaskRunKind) && taskRunList.Failure?)
    ensures |qs| <= 2 && (|qs| == 2 ==> qs[0].resource == TaskRunResource && qs[1].resource == RunResource)
  {
    match children
    case None => []
    case Some(c) =>
      var hasTaskRun, hasRun := HasChildOfKind(c, TaskRunKind), HasChildOfKind(c, RunKind);
      (if hasTaskRun then [ListQuery(TaskRunResource, namespace, selector)] else [])
      + (if hasRun && !(hasTaskRun && taskRunList.Failure?) then [ListQuery(RunResource, namespace, selector)] else [])
  }

  const FetchTaskRunsMessage: string := "can't fetch taskruns"
  const FetchRunsMessage: string := "can't fetch runs"

  /** The status Get returns for a cached status, or the error it returns instead. */
  function Reconcile(status: PipelineRunStatus, taskRunList: Result<seq<SubRecord>, ApiError>,
                     runList: Result<seq<SubRecord>, ApiError>): (r: Result<PipelineRunStatus, GetError>)
    // nil (or empty) child references: the cached status unchanged
    ensures status.childReferences.None? || status.childReferences == Some([]) ==> r == Success(status)
    // all or nothing: a consulted list failure is an internal-server error, and only that fails
    ensures r.Failure? <==>
      status.childReferences.Some? &&
      ((HasChildOfKind(status.childReferences.value, TaskRunKind) && taskRunList.Failure?) ||
       (HasChildOfKind(status.childReferences.value, RunKind) && runList.Failure?))
    ensures r.Failure? && status.childReferences.Some? &&
            HasChildOfKind(status.childReferences.value, TaskRunKind) && taskRunList.Failure?
            ==> r == Failure(InternalServerError(taskRunList.error, FetchTaskRunsMessage))
    ensures r.Failure? && !(HasChildOfKind(status.childReferences.value, TaskRunKind) && taskRunList.Failure?)
            ==> r == Failure(InternalServerError(runList.error, FetchRunsMessage))
    // nothing but the two maps changes
    ensures r.Success? ==> r.value.base == status.base && r.value.childReferences == status.childReferences
    ensures r.Success? ==>
      r.value.taskRuns == if status.childReferences.Some? && HasChildOfKind(status.childReferences.value, TaskRunKind)
                          then Some(StatusMap(taskRunList.value)) else status.taskRuns
    ensures r.Success? ==>
      r.value.runs == if status.childReferences.Some? && HasChildOfKind(status.childReferences.value, RunKind)
                      then Some(StatusMap(runList.value)) else status.runs
  {
    match status.childReferences
    case None => Success(status)
    case Some(children) =>
      var hasTaskRun, hasRun := HasChildOfKind(children, TaskRunKind), HasChildOfKind(children, RunKind);
      if hasTaskRun && taskRunList.Failure? then
        Failure(InternalServerError(taskRunList.error, FetchTaskRunsMessage))
      else if hasRun && runList.Failure? then
        Failure(InternalServerError(runList.error, FetchRunsMessage))
      else
        Success(status.(taskRuns := if hasTaskRun then Some(StatusMap(taskRunList.value)) else status.taskRuns,
                        runs := if hasRun then Some(StatusMap(runList.value)) else status.runs))
  }

  /**
   * The status left in the cached object once Get returns. Get writes into the
   * object the cache handed out, so on success this is the merged status, and
   * when the Run fetch fails after a successful TaskRun fetch it still holds the
   * TaskRuns map written before the failure.
   */
  function CachedStatusAfterGet(status: PipelineRunStatus, taskRunList: Result<seq<SubRecord>, ApiError>,
                                runList: Result<seq<SubRecord>, ApiError>): (s: PipelineRunStatus)
    ensures Reconcile(status, taskRunList, runList).Success? ==> s == Reconcile(status, taskRunList, runList).value
    // the merge never touches the rest of the status
    ensures s.base == status.base && s.childReferences == status.childReferences
    // a failed call leaves Runs alone, and changes TaskRuns only to the map of a TaskRun fetch that succeeded
    ensures Reconcile(status, taskRunList, runList).Failure? ==> s.runs == status.runs
    ensures Reconcile(status, taskRunList, runList).Failure? && s != status ==>
      && HasChildOfKind(status.childReferences.value, TaskRunKind) && taskRunList.Success?
      && s == status.(taskRuns := Some(StatusMap(taskRunList.value)))
  {
    match Reconcile(status, taskRunList, runList)
    case Success(merged) => merged
    case Failure(_) =>
      if HasChildOfKind(status.childReferences.value, TaskRunKind) && taskRunList.Success?
      then status.(taskRuns := Some(StatusMap(taskRunList.value)))
      else status
  }

  // ---------------------------------------------------------------------------
  // Get

  /** Lines 74-121 of Get: the scan, the fetches and the in-place writes into workflow's status. */
  method MergeChildStatuses(workflow: PipelineRun, namespace: string,
                            taskRunList: Result<seq<SubRecord>, ApiError>,
                            runList: Result<seq<SubRecord>, ApiError>)
    returns (err: Option<GetError>, queries: seq<ListQuery>)
    modifies workflow
    ensures workflow.labels == old(workflow.labels)
    ensures queries == IssuedQueries(namespace, RunIdSelector(workflow.labels), old(workflow.status).childReferences, taskRunList)
    ensures err.None? <==> Reconcile(old(workflow.status), taskRunList, runList).Success?
    ensures err.Some? ==> Reconcile(old(workflow.status), taskRunList, runList) == Failure(err.value)
    ensures workflow.status == CachedStatusAfterGet(old(workflow.status), taskRunList, runList)
  {
    err, queries := None, [];
    if workflow.status.childReferences.Some? {
      var hasTaskRun, hasRun := ScanChildKinds(workflow.status.childReferences.value);
      if hasTaskRun {
        queries := queries + [ListQuery(TaskRunResource, namespace, RunIdSelector(workflow.labels))];
        if taskRunList.Failure? {
          return Some(InternalServerError(taskRunList.error, FetchTaskRunsMessage)), queries;
        }
        var taskRunStatuses := BuildStatusMap(taskRunList.value);
        workflow.status := workflow.status.(taskRuns := Some(taskRunStatuses));
      }
      if hasRun {
        queries := queries + [ListQuery(RunResource, namespace, RunIdSelector(workflow.labels))];
        if runList.Failure? {
          return Some(InternalServerError(runList.error, FetchRunsMessage)), queries;
        }
        var runStatuses := BuildStatusMap(runList.value);
        workflow.status := workflow.status.(runs := Some(runStatuses));
      }
    }
  }

  /**
   * WorkflowClient.Get as written: it merges into the object the cache returned
   * and returns that same object.
   */
  method Get(namespace: string, name: string, lookup: Result<PipelineRun, LookupError>,
             taskRunList: Result<seq<SubRecord>, ApiError>, runList: Result<seq<SubRecord>, ApiError>)
    returns (wf: Option<PipelineRun>, err: Option<GetError>, queries: seq<ListQuery>)
    modifies if lookup.Success? then {lookup.value} else {}
    ensures lookup.Failure? ==>
      && wf.None? && queries == []
      && err == Some(CustomError(ClassifyLookupError(lookup.error), namespace, name, lookup.error))
    ensures lookup.Success? ==>
      && lookup.value.labels == old(lookup.value.labels)
      && queries == IssuedQueries(namespace, RunIdSelector(lookup.value.labels), old(lookup.value.status).childReferences, taskRunList)
      && lookup.value.status == CachedStatusAfterGet(old(lookup.value.status), taskRunList, runList)
      && match Reconcile(old(lookup.value.status), taskRunList, runList)
         case Success(merged) => wf == Some(lookup.value) && err.None? && lookup.value.status == merged
         case Failure(e) => wf.None? && err == Some(e)
  {
    if lookup.Failure? {
      var code := ClassifyLookupError(lookup.error);
      return None, Some(CustomError(code, namespace, name, lookup.error)), [];
    }
    var workflow := lookup.value;
    err, queries := MergeChildStatuses(workflow, namespace, taskRunList, runList);
    if err.Some? {
      return None, err, queries;
    }
    wf := Some(workflow);
  }

  /**
   * Get with the cached object copied before the merge, as the cache's
   * read-only contract asks: the cached object is left as it was, and the
   * merged status is returned in a new object.
   */
  method GetFromCopy(namespace: string, name: string, lookup: Result<PipelineRun, LookupError>,
                     taskRunList: Result<seq<SubRecord>, ApiError>, runList: Result<seq<SubRecord>, ApiError>)
    returns (wf: Option<PipelineRun>, err: Option<GetError>, queries: seq<ListQuery>)
    ensures lookup.Failure? ==>
      && wf.None? && queries == []
      && err == Some(CustomError(ClassifyLookupError(lookup.error), namespace, name, lookup.error))
    ensures lookup.Success? ==>
      && unchanged(lookup.value)
      && queries == IssuedQueries(namespace, RunIdSelector(lookup.value.labels), lookup.value.status.childReferences, taskRunList)
      && match Reconcile(lookup.value.status, taskRunList, runList)
         case Success(merged) =>
           && wf.Some? && fresh(wf.value) && err.None?
           && wf.value.namespace == lookup.value.namespace && wf.value.name == lookup.value.name
           && wf.value.labels == lookup.value.labels && wf.value.status == merged
         case Failure(e) => wf.None? && err == Some(e)
  {
    if lookup.Failure? {
      var code := ClassifyLookupError(lookup.error);
      return None, Some(CustomError(code, namespace, name, lookup.error)), [];
    }
    var cached := lookup.value;
    var workflow := new PipelineRun(cached.namespace, cached.name, cached.labels, cached.status);
    err, queries := MergeChildStatuses(workflow, namespace, taskRunList, runList);
    if err.Some? {
      return None, err, queries;
    }
    wf := Some(workflow);
  }

  // ---------------------------------------------------------------------------
  // Properties of the merge

  /** After a successful merge each fetched kind's map is keyed by the item names, the last item of a name winning. */
  lemma MergedMapsAreLastWins(status: PipelineRunStatus, taskRunList: Result<seq<SubRecord>, ApiError>,
                              runList: Result<seq<SubRecord>, ApiError>)
    requires Reconcile(status, taskRunList, runList).Success?
    requires status.childReferences.Some?
    ensures var merged := Reconcile(status, taskRunList, runList).value;
      && (HasChildOfKind(status.childReferences.value, TaskRunKind) ==>
            && taskRunList.Success? && merged.taskRuns.Some?
            && merged.taskRuns.value.Keys == Names(taskRunList.value)
            && forall k | k in merged.taskRuns.value ::
                 merged.taskRuns.value[k] == Entry(taskRunList.value[LastIndexOf(taskRunList.value, k)]))
      && (HasChildOfKind(status.childReferences.value, RunKind) ==>
            && runList.Success? && merged.runs.Some?
            && merged.runs.value.Keys == Names(runList.value)
            && forall k | k in merged.runs.value ::
                 merged.runs.value[k] == Entry(runList.value[LastIndexOf(runList.value, k)]))
  {
    if taskRunList.Success? { StatusMapIsLastWins(taskRunList.value); }
    if runList.Success? { StatusMapIsLastWins(runList.value); }
  }

  /** Only whether a kind occurs among the children matters, not how often or beside what. */
  lemma OnlyKindPresenceMatters(status: PipelineRunStatus, c1: seq<ChildReference>, c2: seq<ChildReference>,
                                namespace: string, selector: string,
                                taskRunList: Result<seq<SubRecord>, ApiError>, runList: Result<seq<SubRecord>, ApiError>)
    requires HasChildOfKind(c1, TaskRunKind) == HasChildOfKind(c2, TaskRunKind)
    requires HasChildOfKind(c1, RunKind) == HasChildOfKind(c2, RunKind)
    ensures var r1 := Reconcile(status.(childReferences := Some(c1)), taskRunList, runList);
            var r2 := Reconcile(status.(childReferences := Some(c2)), taskRunList, runList);
      && (r1.Failure? <==> r2.Failure?)
      && (r1.Failure? ==> r1 == r2)
      && (r1.Success? ==> r1.value.(childReferences := Some(c2)) == r2.value)
    ensures IssuedQueries(namespace, selector, Some(c1), taskRunList) == IssuedQueries(namespace, selector, Some(c2), taskRunList)
  {
  }

  /** A child of an unrecognised kind, wherever it stands, triggers no query and no error and changes no map. */
  lemma {:induction false} UnknownKindIgnored(status: PipelineRunStatus, children: seq<ChildReference>, j: nat,
                                              c: ChildReference, namespace: string, selector: string,
                                              taskRunList: Result<seq<SubRecord>, ApiError>,
                                              runList: Result<seq<SubRecord>, ApiError>)
    requires j <= |children| && KindOf(c.kind) == OtherChild
    ensures var withC := children[..j] + [c] + children[j..];
            var r1 := Reconcile(status.(childReferences := Some(withC)), taskRunList, runList);
            var r2 := Reconcile(status.(childReferences := Some(children)), taskRunList, runList);
      && (r1.Failure? <==> r2.Failure?)
      && (r1.Failure? ==> r1 == r2)
      && (r1.Success? ==> r1.value.(childReferences := Some(children)) == r2.value)
      && IssuedQueries(namespace, selector, Some(withC), taskRunList) == IssuedQueries(namespace, selector, Some(children), taskRunList)
  {
    var withC := children[..j] + [c] + children[j..];
    forall kind | kind == TaskRunKind || kind == RunKind
      ensures HasChildOfKind(withC, kind) == HasChildOfKind(children, kind)
    {
      if HasChildOfKind(withC, kind) {
        var i :| 0 <= i < |withC| && withC[i].kind == kind;
        if i < j { assert children[i] == withC[i]; }
        else if i > j { assert children[i - 1] == withC[i]; }
      }
      if HasChildOfKind(children, kind) {
        var i :| 0 <= i < |children| && children[i].kind == kind;
        if i < j { assert withC[i] == children[i]; }
        else { assert withC[i + 1] == children[i]; }
      }
    }
    OnlyKindPresenceMatters(status, withC, children, namespace, selector, taskRunList, runList);
  }

  /** Merging again against the same live state changes nothing. */
  lemma ReconcileIdempotent(status: PipelineRunStatus, taskRunList: Result<seq<SubRecord>, ApiError>,
                            runList: Result<seq<SubRecord>, ApiError>)
    requires Reconcile(status, taskRunList, runList).Success?
    ensures var merged := Reconcile(status, taskRunList, runList).value;
            Reconcile(merged, taskRunList, runList) == Success(merged)
  {
  }

  /**
   * The internal-server error path: when the TaskRun fetch succeeds and the Run
   * fetch fails, Get returns no record, yet the cached object keeps the TaskRuns
   * map written before the failure.
   */
  lemma FailedRunFetchLeavesCacheMerged()
    ensures var status := PipelineRunStatus(Payload(map[]),
                                            Some([ChildReference(TaskRunKind, "step-a"), ChildReference(RunKind, "step-b")]),
                                            None, None);
            var taskRuns := Success([SubRecord("step-a", map[PipelineTaskLabelKey := "train"], Payload(map["phase" := "Succeeded"]))]);
            var runs: Result<seq<SubRecord>, ApiError> := Failure(ApiError("unavailable"));
      && Reconcile(status, taskRuns, runs) == Failure(InternalServerError(ApiError("unavailable"), FetchRunsMessage))
      && CachedStatusAfterGet(status, taskRuns, runs) != status
      && CachedStatusAfterGet(status, taskRuns, runs).taskRuns
           == Some(map["step-a" := ChildStatus("train", Payload(map["phase" := "Succeeded"]))])
  {
    var status := PipelineRunStatus(Payload(map[]),
                                    Some([ChildReference(TaskRunKind, "step-a"), ChildReference(RunKind, "step-b")]),
                                    None, None);
    assert status.childReferences.value[0].kind == TaskRunKind;
    assert status.childReferences.value[1].kind == RunKind;
    var items := [SubRecord("step-a", map[PipelineTaskLabelKey := "train"], Payload(map["phase" := "Succeeded"]))];
    assert items[..0] == [];
  }

  /** A record with one TaskRun child whose single TaskRun is listed gets a one-entry TaskRuns map and no Runs map. */
  lemma SingleTaskRunScenario()
    ensures var status := PipelineRunStatus(Payload(map[]), Some([ChildReference(TaskRunKind, "step-a")]), None, None);
            var taskRuns := Success([SubRecord("step-a", map[PipelineTaskLabelKey := "train", LabelKeyWorkflowRunId := "run-1"],
                                               Payload(map["phase" := "Succeeded"]))]);
            var runs: Result<seq<SubRecord>, ApiError> := Failure(ApiError("not consulted"));
            Reconcile(status, taskRuns, runs)
              == Success(status.(taskRuns := Some(map["step-a" := ChildStatus("train", Payload(map["phase" := "Succeeded"]))])))
  {
    var status := PipelineRunStatus(Payload(map[]), Some([ChildReference(TaskRunKind, "step-a")]), None, None);
    assert status.childReferences.value[0].kind == TaskRunKind;
    assert !HasChildOfKind(status.childReferences.value, RunKind);
    var items := [SubRecord("step-a", map[PipelineTaskLabelKey := "train", LabelKeyWorkflowRunId := "run-1"],
                            Payload(map["phase" := "Succeeded"]))];
    assert items[..0] == [];
  }
}

/**
 * The task store (`useTasks`): the task list of the loaded project, a
 * `loading` flag and an `error` slot, all shared by every caller, and the
 * operations that keep the list in step with the task service while
 * holding at most three tasks in "doing" (the WIP limit).
 */
module Tasks {
  import opened Remote
  import opened Collections

  datatype TaskStatus = Todo | Doing | Done

  /** A task record as the service returns it. */
  datatype Task = Task(
    id: string,
    projectId: string,
    title: string,
    description: Option<string>,
    status: TaskStatus,
    positionX: Option<real>,
    positionY: Option<real>,
    createdAt: string)

  /** The fields a caller supplies to create a task. */
  datatype CreateTaskPayload = CreateTaskPayload(
    projectId: string,
    title: string,
    description: Option<string>,
    status: TaskStatus)

  /**
   * An update: the `id` plus any of the mutable fields. The outer Option is
   * "field present"; the inner one, where the field is nullable, is "set to null".
   */
  datatype UpdateTaskPayload = UpdateTaskPayload(
    id: string,
    title: Option<string>,
    description: Option<Option<string>>,
    status: Option<TaskStatus>,
    positionX: Option<Option<real>>,
    positionY: Option<Option<real>>)

  /** A call issued to the task service. */
  datatype TaskRequest =
    | FetchTasksRequest(projectId: string)
    | CreateTaskRequest(create: CreateTaskPayload)
    | UpdateTaskRequest(update: UpdateTaskPayload)
    | DeleteTaskRequest(id: string)
    | UpdatePositionRequest(id: string, x: real, y: real)

  /** At most this many tasks may be in "doing". */
  const WipLimit: nat := 3

  /** The error a WIP-limit rejection stores. */
  const WipLimitError: ErrorInfo := ErrorInfo("WIP limit reached: max 3 tasks in Doing.")

  function TaskId(t: Task): string { t.id }

  /** The payload `updateStatus(id, status)` hands to `updateTask`. */
  function StatusPayload(id: string, status: TaskStatus): UpdateTaskPayload
  {
    UpdateTaskPayload(id, None, None, Some(status), None, None)
  }

  function DoingWeight(t: Task): nat { if t.status == Doing then 1 else 0 }

  /** `tasks.filter(t => t.status === 'doing').length`. */
  function CountDoing(s: seq<Task>): (n: nat)
    ensures n <= |s|
    ensures n == 0 <==> forall i :: 0 <= i < |s| ==> s[i].status != Doing
  {
    if |s| == 0 then 0 else CountDoing(s[..|s| - 1]) + DoingWeight(s[|s| - 1])
  }

  /** The count is the number of positions that hold a "doing" task. */
  lemma {:induction false} CountDoingCountsPositions(s: seq<Task>)
    ensures CountDoing(s) == |set i | 0 <= i < |s| && s[i].status == Doing|
  {
    if |s| > 0 {
      var n := |s| - 1;
      var init := s[..n];
      CountDoingCountsPositions(init);
      var before := set i | 0 <= i < |init| && init[i].status == Doing;
      var all := set i | 0 <= i < |s| && s[i].status == Doing;
      if s[n].status == Doing {
        assert all == before + {n};
        assert n !in before;
      } else {
        assert all == before;
      }
    }
  }

  /** Counting splits over concatenation. */
  lemma {:induction false} CountDoingConcat(a: seq<Task>, b: seq<Task>)
    ensures CountDoing(a + b) == CountDoing(a) + CountDoing(b)
  {
    if |b| == 0 {
      assert a + b == a;
    } else {
      var m := |b| - 1;
      assert (a + b)[..|a + b| - 1] == a + b[..m];
      assert (a + b)[|a + b| - 1] == b[m];
      CountDoingConcat(a, b[..m]);
    }
  }

  /** Replacing one task changes the count by the difference of their weights. */
  lemma CountDoingReplace(s: seq<Task>, i: nat, t: Task)
    requires i < |s|
    ensures CountDoing(s[i := t]) == CountDoing(s) - DoingWeight(s[i]) + DoingWeight(t)
  {
    assert s == s[..i] + [s[i]] + s[i + 1..];
    assert s[i := t] == s[..i] + [t] + s[i + 1..];
    CountDoingConcat(s[..i] + [s[i]], s[i + 1..]);
    CountDoingConcat(s[..i] + [t], s[i + 1..]);
    CountDoingConcat(s[..i], [s[i]]);
    CountDoingConcat(s[..i], [t]);
  }

  /** Filtering tasks out never raises the count. */
  lemma {:induction false} CountDoingWithout(s: seq<Task>, id: string)
    ensures CountDoing(Without(s, TaskId, id)) <= CountDoing(s)
  {
    if |s| > 0 {
      var head := if s[0].id == id then [] else [s[0]];
      assert s == [s[0]] + s[1..];
      CountDoingConcat([s[0]], s[1..]);
      CountDoingConcat(head, Without(s[1..], TaskId, id));
      CountDoingWithout(s[1..], id);
    }
  }

  /**
   * The WIP test of `updateTask`: the update asks for "doing", the limit is
   * already reached, and the first task with that id (if any) is not
   * already in "doing".
   */
  function BlocksUpdate(s: seq<Task>, payload: UpdateTaskPayload): (blocked: bool)
    ensures blocked <==>
      && payload.status == Some(Doing)
      && CountDoing(s) >= WipLimit
      && !(exists i :: FirstMatch(s, TaskId, payload.id, i) && s[i].status == Doing)
  {
    var found := Find(s, TaskId, payload.id);
    payload.status == Some(Doing) && CountDoing(s) >= WipLimit
    && (found.None? || found.value.status != Doing)
  }

  /** The record the service stores keeps the requested status, or the old one when none is sent. */
  predicate EchoesStatus(payload: UpdateTaskPayload, before: Task, after: Task)
  {
    after.status == payload.status.GetOr(before.status)
  }

  /** A create the WIP test lets through keeps the limit, if the stored record has the requested status. */
  lemma CreateKeepsWipLimit(s: seq<Task>, payload: CreateTaskPayload, created: Task)
    requires CountDoing(s) <= WipLimit
    requires !(payload.status == Doing && CountDoing(s) >= WipLimit)
    requires created.status == payload.status
    ensures CountDoing(s + [created]) <= WipLimit
  {
  }

  /** An update the WIP test lets through keeps the limit, if the stored record echoes the requested status. */
  lemma UpdateKeepsWipLimit(s: seq<Task>, payload: UpdateTaskPayload, updated: Task)
    requires CountDoing(s) <= WipLimit
    requires !BlocksUpdate(s, payload)
    requires forall i :: FirstMatch(s, TaskId, payload.id, i) ==> EchoesStatus(payload, s[i], updated)
    ensures CountDoing(ReplaceFirst(s, TaskId, payload.id, updated)) <= WipLimit
  {
    var i := FindIndex(s, TaskId, payload.id);
    if i != -1 {
      CountDoingReplace(s, i, updated);
    }
  }

  class TaskStore {
    var tasks: seq<Task>
    var loading: bool
    var error: Option<ErrorInfo>
    /** The task-service calls issued so far, oldest first. */
    ghost var requests: seq<TaskRequest>

    /** The module-level initial state. */
    constructor ()
      ensures tasks == [] && !loading && error == None && requests == []
    {
      tasks, loading, error := [], false, None;
      requests := [];
    }

    /** `doingCount`, derived from `tasks` on every read. */
    function DoingCount(): (n: nat)
      reads this
      ensures n == |set i | 0 <= i < |tasks| && tasks[i].status == Doing|
    {
      CountDoingCountsPositions(tasks);
      CountDoing(tasks)
    }

    /** `fetchTasks`: replace the list with the project's tasks, or with [] when the data is null. */
    method FetchTasks(projectId: string, reply: Reply<seq<Task>>)
      modifies this
      ensures requests == old(requests) + [FetchTasksRequest(projectId)]
      ensures !loading
      ensures reply.error.Some? ==> error == reply.error && tasks == old(tasks)
      ensures reply.error.None? ==> error == None && tasks == reply.data.GetOr([])
    {
      loading := true;
      error := None;
      requests := requests + [FetchTasksRequest(projectId)];
      loading := false;
      if reply.error.Some? {
        error := reply.error;
        return;
      }
      tasks := reply.data.GetOr([]);
    }

    /** `createTask`: the WIP test, then the service call, then append the stored record. */
    method CreateTask(payload: CreateTaskPayload, reply: Reply<Task>) returns (ok: bool)
      modifies this
      ensures payload.status == Doing && old(DoingCount()) >= WipLimit ==>
        && !ok && error == Some(WipLimitError)
        && tasks == old(tasks) && loading == old(loading) && requests == old(requests)
      ensures !(payload.status == Doing && old(DoingCount()) >= WipLimit) ==>
        && requests == old(requests) + [CreateTaskRequest(payload)]
        && !loading
        && (reply.error.Some? ==> !ok && error == reply.error && tasks == old(tasks))
        && (reply.error.None? ==>
              && ok && error == None
              && tasks == old(tasks) + (if reply.data.Some? then [reply.data.value] else []))
      ensures ok && old(DoingCount()) <= WipLimit
              && (reply.data.Some? ==> reply.data.value.status == payload.status)
              ==> DoingCount() <= WipLimit
    {
      if payload.status == Doing && DoingCount() >= WipLimit {
        error := Some(WipLimitError);
        return false;
      }
      loading := true;
      error := None;
      requests := requests + [CreateTaskRequest(payload)];
      loading := false;
      if reply.error.Some? {
        error := reply.error;
        return false;
      }
      if reply.data.Some? {
        ghost var before := tasks;
        tasks := tasks + [reply.data.value];
        if CountDoing(before) <= WipLimit && reply.data.value.status == payload.status {
          CreateKeepsWipLimit(before, payload, reply.data.value);
        }
      }
      return true;
    }

    /**
     * Everything `updateTask(payload)` promises, given the reply the
     * service would send: a WIP rejection changes only `error` and calls
     * nothing; otherwise one call is made, `loading` ends false, and on
     * success the first task with `payload.id` becomes the stored record.
     */
    twostate predicate UpdateOutcome(payload: UpdateTaskPayload, reply: Reply<Task>, ok: bool)
      reads this
    {
      && (BlocksUpdate(old(tasks), payload) ==>
            && !ok && error == Some(WipLimitError)
            && tasks == old(tasks) && loading == old(loading) && requests == old(requests))
      && (!BlocksUpdate(old(tasks), payload) ==>
            && requests == old(requests) + [UpdateTaskRequest(payload)]
            && !loading
            && (reply.error.Some? ==> !ok && error == reply.error && tasks == old(tasks))
            && (reply.error.None? ==>
                  && ok && error == None
                  && tasks == if reply.data.Some?
                              then ReplaceFirst(old(tasks), TaskId, payload.id, reply.data.value)
                              else old(tasks)))
      && (ok && old(CountDoing(tasks)) <= WipLimit
          && (reply.data.Some? ==>
                forall i :: FirstMatch(old(tasks), TaskId, payload.id, i) ==>
                  EchoesStatus(payload, old(tasks)[i], reply.data.value))
          ==> CountDoing(tasks) <= WipLimit)
    }

    /** `updateTask`: the WIP test, then the service call, then replace the task in place. */
    method UpdateTask(payload: UpdateTaskPayload, reply: Reply<Task>) returns (ok: bool)
      modifies this
      ensures UpdateOutcome(payload, reply, ok)
    {
      if BlocksUpdate(tasks, payload) {
        error := Some(WipLimitError);
        return false;
      }
      loading := true;
      error := None;
      requests := requests + [UpdateTaskRequest(payload)];
      loading := false;
      if reply.error.Some? {
        error := reply.error;
        return false;
      }
      if reply.data.Some? {
        ghost var before := tasks;
        var index := FindIndex(tasks, TaskId, payload.id);
        if index != -1 {
          tasks := tasks[index := reply.data.value];
        }
        if CountDoing(before) <= WipLimit
           && forall i :: FirstMatch(before, TaskId, payload.id, i) ==>
                EchoesStatus(payload, before[i], reply.data.value)
        {
          UpdateKeepsWipLimit(before, payload, reply.data.value);
        }
      }
      return true;
    }

    /** `deleteTask`: after the service call, keep the tasks whose id is not `id`. */
    method DeleteTask(id: string, reply: Reply<()>) returns (ok: bool)
      modifies this
      ensures requests == old(requests) + [DeleteTaskRequest(id)]
      ensures !loading
      ensures reply.error.Some? ==> !ok && error == reply.error && tasks == old(tasks)
      ensures reply.error.None? ==> ok && error == None && tasks == Without(old(tasks), TaskId, id)
      ensures DoingCount() <= old(DoingCount())
    {
      loading := true;
      error := None;
      requests := requests + [DeleteTaskRequest(id)];
      loading := false;
      if reply.error.Some? {
        error := reply.error;
        return false;
      }
      CountDoingWithout(tasks, id);
      tasks := Without(tasks, TaskId, id);
      return true;
    }

    /** `updateStatus(id, status)`: exactly `updateTask({id, status})`. */
    method UpdateStatus(id: string, status: TaskStatus, reply: Reply<Task>) returns (ok: bool)
      modifies this
      ensures UpdateOutcome(StatusPayload(id, status), reply, ok)
    {
      ok := UpdateTask(StatusPayload(id, status), reply);
    }

    /**
     * `updatePosition`: no WIP test (a request is always issued), `loading`
     * is never written, and `error` is only written on failure.
     */
    method UpdatePosition(id: string, x: real, y: real, reply: Reply<Task>) returns (ok: bool)
      modifies this
      ensures requests == old(requests) + [UpdatePositionRequest(id, x, y)]
      ensures loading == old(loading)
      ensures reply.error.Some? ==> !ok && error == reply.error && tasks == old(tasks)
      ensures reply.error.None? ==>
        && ok && error == old(error)
        && tasks == if reply.data.Some? then ReplaceFirst(old(tasks), TaskId, id, reply.data.value) else old(tasks)
      ensures reply.data.Some?
              && (forall i :: FirstMatch(old(tasks), TaskId, id, i) ==> old(tasks)[i].status == reply.data.value.status)
              ==> DoingCount() == old(DoingCount())
    {
      requests := requests + [UpdatePositionRequest(id, x, y)];
      if reply.error.Some? {
        error := reply.error;
        return false;
      }
      if reply.data.Some? {
        var index := FindIndex(tasks, TaskId, id);
        if index != -1 {
          CountDoingReplace(tasks, index, reply.data.value);
          tasks := tasks[index := reply.data.value];
        }
      }
      return true;
    }

    /** `clearError`: only the error slot changes. */
    method ClearError()
      modifies this`error
      ensures error == None
    {
      error := None;
    }
  }
}

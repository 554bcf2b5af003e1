/**
 The results a finished child execution hands to its waiting parent:
 `getDataLastExecutedNodeData`, `shouldRestartParentExecution` and the pure part of
 `updateParentExecutionWithChildResults` in packages/cli/src/workflow-helpers.ts.
 */
module ChildResults {
  import opened Wrappers

  type ExecutionId = string

  datatype Status = New | Running | Waiting | Success | Failed | Canceled | Crashed

  datatype Item = Item(json: string, pairedItem: Option<nat>)

  /** The data on the connections of a node: items per output. */
  type Connections = seq<seq<Item>>

  datatype Task = Task(data: Option<Connections>, source: string)

  /** Pinned data is one item or a list of items. */
  datatype Pin = One(json: string) | Many(jsons: seq<string>)

  datatype Run = Run(
    status: Status,
    mode: string,
    lastNodeExecuted: Option<string>,
    runData: map<string, seq<Task>>,
    pinData: map<string, Pin>)

  datatype Lookup = Missing | Threw | Found(task: Task)

  function PinnedItems(jsons: seq<string>): seq<Item> {
    seq(|jsons|, i requires 0 <= i < |jsons| => Item(jsons[i], Some(i)))
  }

  /** `Threw` is the property access on the missing run of a pinned node that has no runs. */
  function LastExecutedNodeData(run: Run): Lookup {
    if run.lastNodeExecuted.None? || run.lastNodeExecuted.value !in run.runData then Missing else
      var name := run.lastNodeExecuted.value;
      var runs := run.runData[name];
      if name in run.pinData && run.mode == "manual" then
        if runs == [] then Threw else
          var jsons := match run.pinData[name] case One(json) => [json] case Many(js) => js;
          Found(Task(Some([PinnedItems(jsons)]), runs[|runs| - 1].source))
      else if runs == [] then Missing
      else Found(runs[|runs| - 1])
  }

  /** The output data a child has to offer, if any. */
  function Output(run: Run): Option<Connections> {
    match LastExecutedNodeData(run)
    case Found(task) => task.data
    case _ => None
  }

  /** The last node that ran, with its runs, if it has any entry at all. */
  ghost predicate LastNode(run: Run, name: string, runs: seq<Task>) {
    run.lastNodeExecuted == Some(name) && name in run.runData && run.runData[name] == runs
  }

  predicate Pinned(run: Run, name: string) {
    name in run.pinData && run.mode == "manual"
  }

  ghost predicate Throws(run: Run) {
    exists name :: LastNode(run, name, []) && Pinned(run, name)
  }

  /**
   The output of a run: in a manual run the pinned items of the last node, numbered; otherwise the
   data of that node's last run; nothing without a last node that has run.
   */
  ghost predicate Offers(run: Run, out: Option<Connections>) {
    && (forall name, runs :: LastNode(run, name, runs) && runs != [] ==>
          if Pinned(run, name) then
            out.Some? && |out.value| == 1 &&
            match run.pinData[name]
            case One(json) => out.value[0] == [Item(json, Some(0))]
            case Many(jsons) =>
              |out.value[0]| == |jsons| && forall i :: 0 <= i < |jsons| ==> out.value[0][i] == Item(jsons[i], Some(i))
          else out == runs[|runs| - 1].data)
    && ((forall name, runs :: LastNode(run, name, runs) ==> runs == []) ==> out == None)
  }

  lemma OutputMeans(run: Run)
    ensures LastExecutedNodeData(run) == Threw <==> Throws(run)
    ensures Offers(run, Output(run))
  {
    if run.lastNodeExecuted.Some? && run.lastNodeExecuted.value in run.runData {
      var name := run.lastNodeExecuted.value;
      assert LastNode(run, name, run.runData[name]);
      if Pinned(run, name) && run.pinData[name].One? {
        assert PinnedItems([run.pinData[name].json]) == [Item(run.pinData[name].json, Some(0))];
      }
    }
  }

  // ----- The saved state of an execution -----

  datatype StackItem = StackItem(node: string, data: Connections)

  datatype RelatedExecution = RelatedExecution(executionId: ExecutionId, shouldResume: Option<bool>)

  datatype Saved = Saved(stack: Option<seq<StackItem>>, parent: Option<RelatedExecution>, rest: string)

  /** The parent to wake up, if there is one and nothing says otherwise. */
  function ParentToRestart(d: Saved): Option<ExecutionId> {
    if d.parent.Some? && (d.parent.value.shouldResume.None? || d.parent.value.shouldResume.value) then
      Some(d.parent.value.executionId)
    else None
  }

  predicate HasStack(d: Saved) {
    d.stack.Some? && d.stack.value != []
  }

  /** The saved state with the input of the node on top of the stack replaced. */
  function WithHead(d: Saved, output: Connections): (r: Saved)
    requires HasStack(d)
    ensures HasStack(r)
  {
    d.(stack := Some([d.stack.value[0].(data := output)] + d.stack.value[1..]))
  }

  /** Only the input of the stack head can change, and the last replacement decides it. */
  lemma HeadOverwrites(d: Saved, a: Connections, b: Connections)
    requires HasStack(d)
    ensures WithHead(WithHead(d, a), b) == WithHead(d, b)
    ensures WithHead(d, a) == d <==> d.stack.value[0].data == a
  {
    var tail := d.stack.value[1..];
    assert WithHead(d, a).stack.value[1..] == tail;
    if d.stack.value[0].data == a {
      assert [d.stack.value[0]] + tail == d.stack.value;
    }
    if WithHead(d, a) == d {
      assert WithHead(d, a).stack.value[0].data == a;
    }
  }
}

/**
 Running the hooks of a list one after another.
 */
module HookRuns {
  import opened Hooks

  // Where a run of n hooks is: at which hook, and whether its process was started.
  datatype RunState = RunState(at: nat, running: bool)

  // One call of cm_hook_ready(): whether the process, if there is one, is found to
  // have ended, and whether the next one, if one is started, starts.
  datatype Call = Call(ended: bool, starts: bool)

  function After(n: nat, s: RunState, c: Call): RunState {
    if !s.running || !c.ended || s.at + 1 >= n then s else RunState(s.at + 1, c.starts)
  }

  // 0 is for ready.
  function ResultOf(n: nat, s: RunState, c: Call): int {
    if !s.running || !c.ended || (s.at + 1 < n && c.starts) then -1 else 0
  }

  // The hooks which were started so far.
  function StartedBy(list: seq<Hook>, s: RunState): seq<Hook>
    requires s.at < |list|
  {
    if s.running then list[..s.at + 1] else list[..s.at]
  }

  class HookState {
    var hooks: HookNode
    var subproc: bool
    ghost const nodes: seq<HookNode>
    ghost const list: seq<Hook>
    ghost var at: nat
    ghost var started: seq<Hook>

    constructor (head: HookNode, ghost nodes: seq<HookNode>, ghost list: seq<Hook>)
      requires Chain(head, nodes, list)
      ensures Valid() && this.nodes == nodes && this.list == list && State() == RunState(0, true)
    {
      hooks, subproc, this.nodes, this.list, at, started := head, true, nodes, list, 0, [list[0]];
    }

    ghost predicate Valid()
      reads this, nodes
    {
      && at < |nodes| && Chain(nodes[0], nodes, list) && hooks == nodes[at]
      && started == StartedBy(list, State())
    }

    ghost function State(): RunState
      reads this
    {
      RunState(at, subproc)
    }

    // cm_hook_ready(): the outcome of asking for the process, and of starting the next.
    method Ready(ended: bool, starts: bool) returns (result: int)
      requires Valid()
      modifies this
      ensures Valid()
      ensures State() == After(|list|, old(State()), Call(ended, starts))
      ensures result == ResultOf(|list|, old(State()), Call(ended, starts))
    {
      result := -1;
      if subproc {
        result := if ended then 0 else -1;
      }
      if result == 0 {
        if hooks.next != null {
          // The process before is cleaned up.
          hooks := hooks.next;
          at := at + 1;
          subproc := starts;
          if subproc {
            started := started + [Hook(hooks.command, hooks.uid)];
            return -1;
          }
        }
      }
    }
  }

  // cm_hook_start(): NULL if there is no hook, or if the first does not start.
  method StartHooks(list: HookList, starts: bool) returns (state: HookState?)
    requires list.Valid()
    ensures state == null <==> list.hooks == [] || !starts
    ensures state != null ==> fresh(state) && state.Valid() && state.list == list.hooks && state.State() == RunState(0, true)
  {
    if list.head == null || !starts {
      return null;
    }
    state := new HookState(list.head, list.nodes, list.hooks);
  }

  // Runs.

  function Run(n: nat, calls: seq<Call>): RunState {
    if calls == [] then RunState(0, true) else After(n, Run(n, calls[..|calls| - 1]), calls[|calls| - 1])
  }

  // The result of the last call.
  function LastResult(n: nat, calls: seq<Call>): int
    requires calls != []
  {
    ResultOf(n, Run(n, calls[..|calls| - 1]), calls[|calls| - 1])
  }

  function Ends(calls: seq<Call>): nat {
    if calls == [] then 0 else Ends(calls[..|calls| - 1]) + if calls[|calls| - 1].ended then 1 else 0
  }

  // A run in which a start has failed stays where it is, so that one which is still
  // running is one in which every start succeeded.
  lemma RunningBefore(n: nat, calls: seq<Call>)
    requires calls != [] && Run(n, calls).running
    ensures Run(n, calls[..|calls| - 1]).running
  {
  }

  // As long as starts succeed, as many hooks have been started as processes were seen
  // to end, and one more, in the order of the list, until there are no more.
  lemma {:induction false} HooksRunInOrder(list: seq<Hook>, calls: seq<Call>)
    requires list != [] && Run(|list|, calls).running
    ensures var s := Run(|list|, calls); var k := if Ends(calls) < |list| then Ends(calls) + 1 else |list|;
            s.at == k - 1 && StartedBy(list, s) == list[..k]
    decreases |calls|
  {
    if calls != [] {
      RunningBefore(|list|, calls);
      HooksRunInOrder(list, calls[..|calls| - 1]);
    }
  }

  lemma {:induction false} StaysInList(n: nat, calls: seq<Call>)
    requires n > 0
    ensures Run(n, calls).at < n
    decreases |calls|
  {
    if calls != [] {
      StaysInList(n, calls[..|calls| - 1]);
    }
  }

  // As long as starts succeed, a call says that all is done exactly if a process ended
  // and all others had ended before.
  lemma ReadyAfterTheLast(list: seq<Hook>, calls: seq<Call>)
    requires list != [] && calls != [] && Run(|list|, calls).running
    ensures LastResult(|list|, calls) == 0 <==> calls[|calls| - 1].ended && Ends(calls) >= |list|
  {
    RunningBefore(|list|, calls);
    HooksRunInOrder(list, calls[..|calls| - 1]);
  }

  // Whatever the calls find, one which says that all is done has had every hook
  // started, each once and in order, exactly if the run is still running.
  lemma ReadyMeansAllStarted(list: seq<Hook>, calls: seq<Call>)
    requires list != [] && calls != [] && LastResult(|list|, calls) == 0
    ensures var s := Run(|list|, calls);
            s.at < |list| && (StartedBy(list, s) == list <==> s.running)
  {
    StaysInList(|list|, calls);
    StaysInList(|list|, calls[..|calls| - 1]);
    var s := Run(|list|, calls);
    assert s.running ==> list[..s.at + 1] == list;
    assert |list[..s.at]| < |list|;
  }

  // A hook which does not start ends the run, and is taken for its success.
  lemma FailedStartSkipsTheRest(list: seq<Hook>, calls: seq<Call>, more: seq<Call>)
    requires list != [] && Run(|list|, calls).running && Ends(calls) + 1 < |list|
    ensures var all := calls + [Call(true, false)];
            && LastResult(|list|, all) == 0 && Run(|list|, all).at < |list|
            && StartedBy(list, Run(|list|, all)) == list[..Ends(calls) + 1] != list
            && Run(|list|, all + more) == Run(|list|, all)
  {
    var all := calls + [Call(true, false)];
    HooksRunInOrder(list, calls);
    assert all[..|all| - 1] == calls;
    StuckForGood(|list|, all, more);
  }

  lemma {:induction false} StuckForGood(n: nat, calls: seq<Call>, more: seq<Call>)
    requires !Run(n, calls).running
    ensures Run(n, calls + more) == Run(n, calls)
    decreases |more|
  {
    if more == [] {
      assert calls + more == calls;
    } else {
      StuckForGood(n, calls, more[..|more| - 1]);
      assert (calls + more)[..|calls + more| - 1] == calls + more[..|more| - 1];
    }
  }
}

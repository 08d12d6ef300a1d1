/** The VM deployer: replaces the deployment's current VM (if any) by a new one created
    from a stemcell, and waits for a VM's agent to become ready, optionally through an
    SSH tunnel. Every step is reported to a stage; collaborators (VM manager, VM, stemcell,
    tunnel) are test doubles whose outcomes are data, and whose calls are logged in order. */
module VMDeployer {
  import opened Common
  import opened EventLog

  /** Readiness-wait parameters, in milliseconds: 10 seconds before deleting an existing
      VM, 10 minutes after creating one, and a 500 millisecond delay between probes. */
  const ExistingVMWaitTimeout: nat := 10_000
  const NewVMWaitTimeout: nat := 600_000
  const WaitDelay: nat := 500

  datatype WatchTime = WatchTime(start: int, end: int)
  datatype Job = Job(name: string)
  datatype Deployment = Deployment(updateWatchTime: WatchTime, jobs: seq<Job>)
  datatype Stemcell = Stemcell(cid: string, name: string, version: string)

  /** A VM as its test double describes it: its CID, the disks its agent lists, and what
      each call on it returns (`unmountDiskErr` maps a disk CID to the error unmounting it gives). */
  datatype VM = VM(
    cid: string,
    waitToBeReadyErr: Option<string>,
    stopErr: Option<string>,
    disks: seq<string>,
    unmountDiskErr: map<string, string>,
    deleteErr: Option<string>)

  /** The VM manager's behaviour: the VM FindCurrent reports, and what Create returns. */
  datatype VMManager = VMManager(current: Option<VM>, create: Result<VM>)

  datatype TunnelOptions = TunnelOptions(
    host: string, port: int, user: string, password: string, privateKey: string,
    localForwardPort: int, remoteForwardPort: int)

  /** The zero value of the tunnel options: no tunnel is configured. */
  const EmptyTunnelOptions := TunnelOptions("", 0, "", "", "", 0, 0)

  /** What starting the SSH tunnel returns. */
  datatype Tunnel = Tunnel(startErr: Option<string>)

  /** A call made on a collaborator, with its arguments. */
  datatype Call =
    | Waited(vm: string, timeout: nat, delay: nat)
    | Stopped(vm: string)
    | DisksListed(vm: string)
    | Unmounted(vm: string, disk: string)
    | Deleted(vm: string)
    | Created(stemcell: Stemcell, deployment: Deployment)
    | Promoted(stemcellCID: string)
    | TunnelCreated(options: TunnelOptions)
    | TunnelStarted

  /** The test doubles' shared call log: each method logs its call and returns the outcome
      the double was configured with. */
  class Collaborators {
    var calls: seq<Call>

    constructor ()
      ensures calls == []
    {
      calls := [];
    }

    method WaitToBeReady(vm: VM, timeout: nat, delay: nat) returns (err: Option<string>)
      modifies this
      ensures calls == old(calls) + [Waited(vm.cid, timeout, delay)] && err == vm.waitToBeReadyErr
    {
      calls := calls + [Waited(vm.cid, timeout, delay)];
      err := vm.waitToBeReadyErr;
    }

    method Stop(vm: VM) returns (err: Option<string>)
      modifies this
      ensures calls == old(calls) + [Stopped(vm.cid)] && err == vm.stopErr
    {
      calls := calls + [Stopped(vm.cid)];
      err := vm.stopErr;
    }

    method ListDisks(vm: VM) returns (disks: seq<string>)
      modifies this
      ensures calls == old(calls) + [DisksListed(vm.cid)] && disks == vm.disks
    {
      calls := calls + [DisksListed(vm.cid)];
      disks := vm.disks;
    }

    method UnmountDisk(vm: VM, disk: string) returns (err: Option<string>)
      modifies this
      ensures calls == old(calls) + [Unmounted(vm.cid, disk)]
      ensures err == if disk in vm.unmountDiskErr then Some(vm.unmountDiskErr[disk]) else None
    {
      calls := calls + [Unmounted(vm.cid, disk)];
      err := if disk in vm.unmountDiskErr then Some(vm.unmountDiskErr[disk]) else None;
    }

    method Delete(vm: VM) returns (err: Option<string>)
      modifies this
      ensures calls == old(calls) + [Deleted(vm.cid)] && err == vm.deleteErr
    {
      calls := calls + [Deleted(vm.cid)];
      err := vm.deleteErr;
    }

    method Create(manager: VMManager, stemcell: Stemcell, deployment: Deployment) returns (r: Result<VM>)
      modifies this
      ensures calls == old(calls) + [Created(stemcell, deployment)] && r == manager.create
    {
      calls := calls + [Created(stemcell, deployment)];
      r := manager.create;
    }

    method PromoteAsCurrent(stemcell: Stemcell)
      modifies this
      ensures calls == old(calls) + [Promoted(stemcell.cid)]
    {
      calls := calls + [Promoted(stemcell.cid)];
    }

    method StartTunnel(options: TunnelOptions, tunnel: Tunnel) returns (err: Option<string>)
      modifies this
      ensures calls == old(calls) + [TunnelCreated(options), TunnelStarted] && err == tunnel.startErr
    {
      calls := calls + [TunnelCreated(options), TunnelStarted];
      err := tunnel.startErr;
    }
  }

  // ---------------------------------------------------------------------------------
  // Step names and failure messages

  function WaitingStepName(vmCID: string): string { "Waiting for the agent on VM " + Quoted(vmCID) }
  function StoppingStepName(jobName: string): string { "Stopping " + Quoted(jobName) }
  function UnmountingStepName(diskCID: string): string { "Unmounting disk " + Quoted(diskCID) }
  function DeletingStepName(vmCID: string): string { "Deleting VM " + Quoted(vmCID) }
  function CreatingStepName(stemcellCID: string): string { "Creating VM from stemcell " + Quoted(stemcellCID) }

  function UnmountContext(diskCID: string, vmCID: string): string
  {
    "Unmounting disk " + Quoted(diskCID) + " from VM " + Quoted(vmCID)
  }

  // ---------------------------------------------------------------------------------
  // The specification: the steps, the calls and the error of each phase

  /** What a phase (or a whole operation) leaves behind: the steps it reported, the calls
      it made, and the error it returned. */
  datatype Run = Run(steps: seq<Step>, calls: seq<Call>, err: Option<string>)

  /** `a` then `b`, where an error in `a` returns at once. */
  function Then(a: Run, b: Run): Run
  {
    if a.err.Some? then a else Run(a.steps + b.steps, a.calls + b.calls, b.err)
  }

  /** Checking the existing VM's agent: reported as a step, but never fatal. */
  function PreDeleteWaitRun(vm: VM): Run
  {
    Run([StepFor(WaitingStepName(vm.cid), WrapErr("Agent unreachable", vm.waitToBeReadyErr))],
        [Waited(vm.cid, ExistingVMWaitTimeout, WaitDelay)],
        None)
  }

  function StoppedSteps(jobs: seq<Job>): (r: seq<Step>)
    ensures |r| == |jobs|
    ensures forall i :: 0 <= i < |jobs| ==> r[i] == FinishedStep(StoppingStepName(jobs[i].name))
  {
    seq(|jobs|, i requires 0 <= i < |jobs| => FinishedStep(StoppingStepName(jobs[i].name)))
  }

  function StopCalls(vmCID: string, n: nat): (r: seq<Call>)
    ensures |r| == n && forall i :: 0 <= i < n ==> r[i] == Stopped(vmCID)
  {
    seq(n, i => Stopped(vmCID))
  }

  /** Stopping the existing VM once per job, each in its own step; the first failure aborts. */
  function StopRun(vm: VM, jobs: seq<Job>): Run
  {
    if vm.stopErr.None? || jobs == [] then
      Run(StoppedSteps(jobs), StopCalls(vm.cid, |jobs|), None)
    else
      var message := Wrap("Stopping VM", vm.stopErr.value);
      Run([FailedStep(StoppingStepName(jobs[0].name), message)], [Stopped(vm.cid)], Some(message))
  }

  function UnmountedSteps(disks: seq<string>): (r: seq<Step>)
    ensures |r| == |disks|
    ensures forall i :: 0 <= i < |disks| ==> r[i] == FinishedStep(UnmountingStepName(disks[i]))
  {
    seq(|disks|, i requires 0 <= i < |disks| => FinishedStep(UnmountingStepName(disks[i])))
  }

  function UnmountCalls(vmCID: string, disks: seq<string>): (r: seq<Call>)
    ensures |r| == |disks|
    ensures forall i :: 0 <= i < |disks| ==> r[i] == Unmounted(vmCID, disks[i])
  {
    seq(|disks|, i requires 0 <= i < |disks| => Unmounted(vmCID, disks[i]))
  }

  /** The index of the first listed disk whose unmount fails, or the number of disks. */
  function FirstFailingDisk(vm: VM, disks: seq<string>): (k: nat)
    ensures k <= |disks|
  {
    FirstIndex(disks, (d: string) => d in vm.unmountDiskErr)
  }

  /** The first failing disk is pinned down by "none before fails, this one does". */
  lemma FirstFailingDiskAt(vm: VM, disks: seq<string>, k: nat)
    requires k <= |disks|
    requires forall j :: 0 <= j < k ==> disks[j] !in vm.unmountDiskErr
    requires k < |disks| ==> disks[k] in vm.unmountDiskErr
    ensures FirstFailingDisk(vm, disks) == k
  {
    FirstIndexAt(disks, (d: string) => d in vm.unmountDiskErr, k);
  }

  /** Unmounting the listed disks in order, each in its own step; the first failure aborts
      and leaves the remaining disks alone. */
  function UnmountRun(vm: VM, disks: seq<string>): Run
  {
    var k := FirstFailingDisk(vm, disks);
    if k == |disks| then
      Run(UnmountedSteps(disks), UnmountCalls(vm.cid, disks), None)
    else
      var message := Wrap(UnmountContext(disks[k], vm.cid), vm.unmountDiskErr[disks[k]]);
      Run(UnmountedSteps(disks[..k]) + [FailedStep(UnmountingStepName(disks[k]), message)],
          UnmountCalls(vm.cid, disks[..k + 1]),
          Some(message))
  }

  function ListDisksRun(vm: VM): Run
  {
    Run([], [DisksListed(vm.cid)], None)
  }

  function DeleteRun(vm: VM): Run
  {
    var err := WrapErr("Deleting VM", vm.deleteErr);
    Run([StepFor(DeletingStepName(vm.cid), err)], [Deleted(vm.cid)], err)
  }

  /** Tearing down the existing VM: wait, stop, list and unmount disks, delete. */
  function TeardownRun(vm: VM, deployment: Deployment): Run
  {
    Then(PreDeleteWaitRun(vm), StopAndDeleteRun(vm, deployment))
  }

  /** Creating the new VM, and promoting the stemcell once that succeeded. */
  function CreateRun(manager: VMManager, deployment: Deployment, stemcell: Stemcell): Run
  {
    var err := if manager.create.Err? then Some(Wrap("Creating VM", manager.create.error)) else None;
    Run([StepFor(CreatingStepName(stemcell.cid), err)],
        [Created(stemcell, deployment)] + (if err.None? then [Promoted(stemcell.cid)] else []),
        err)
  }

  /** Deploy as a whole. */
  function DeployRun(manager: VMManager, deployment: Deployment, stemcell: Stemcell): Run
  {
    if manager.current.Some? then
      Then(TeardownRun(manager.current.value, deployment), CreateRun(manager, deployment, stemcell))
    else
      CreateRun(manager, deployment, stemcell)
  }

  /** WaitUntilReady as a whole: the tunnel (only for non-empty options), then the wait. */
  function WaitUntilReadyRun(vm: VM, options: TunnelOptions, tunnel: Tunnel): Run
  {
    var tunnelRun :=
      if options == EmptyTunnelOptions then Run([], [], None)
      else Run([], [TunnelCreated(options), TunnelStarted], tunnel.startErr);
    var waitErr := WrapErr("Waiting for the vm to be ready", vm.waitToBeReadyErr);
    Then(tunnelRun,
      Run([StepFor(WaitingStepName(vm.cid), waitErr)], [Waited(vm.cid, NewVMWaitTimeout, WaitDelay)], waitErr))
  }

  // ---------------------------------------------------------------------------------
  // The deployer

  /** Replaces the current VM, if any, by one created from `stemcell`, reporting each step
      to `stage`; returns the new VM, or the first fatal error. */
  method Deploy(c: Collaborators, stage: Stage, manager: VMManager, deployment: Deployment, stemcell: Stemcell)
    returns (vm: Option<VM>, err: Option<string>)
    modifies c, stage
    ensures stage.steps == old(stage.steps) + DeployRun(manager, deployment, stemcell).steps
    ensures c.calls == old(c.calls) + DeployRun(manager, deployment, stemcell).calls
    ensures err == DeployRun(manager, deployment, stemcell).err
    ensures vm.Some? <==> err.None?
    ensures vm.Some? ==> manager.create == Ok(vm.value)
  {
    ghost var steps0, calls0 := stage.steps, c.calls;
    if manager.current.Some? {
      err := DeleteExisting(c, stage, manager.current.value, deployment);
      if err.Some? {
        return None, err;
      }
    }
    vm, err := CreateFromStemcell(c, stage, manager, deployment, stemcell);
    if manager.current.Some? {
      Sequenced(steps0, calls0, TeardownRun(manager.current.value, deployment), CreateRun(manager, deployment, stemcell));
    }
  }

  /** Creates the new VM in its own step and promotes the stemcell once that succeeded. */
  method CreateFromStemcell(c: Collaborators, stage: Stage, manager: VMManager, deployment: Deployment, stemcell: Stemcell)
    returns (vm: Option<VM>, err: Option<string>)
    modifies c, stage
    ensures stage.steps == old(stage.steps) + CreateRun(manager, deployment, stemcell).steps
    ensures c.calls == old(c.calls) + CreateRun(manager, deployment, stemcell).calls
    ensures err == CreateRun(manager, deployment, stemcell).err
    ensures vm.Some? <==> err.None?
    ensures vm.Some? ==> manager.create == Ok(vm.value)
  {
    stage.Start(CreatingStepName(stemcell.cid));
    var created := c.Create(manager, stemcell, deployment);
    if created.Err? {
      err := Some(Wrap("Creating VM", created.error));
      stage.Fail(err.value);
      return None, err;
    }
    stage.Finish();
    c.PromoteAsCurrent(stemcell);
    return Some(created.value), None;
  }

  /** Waits for the existing VM's agent (a failure is only reported), then stops it,
      unmounts its disks and deletes it, each step fatal on failure. */
  method DeleteExisting(c: Collaborators, stage: Stage, vm: VM, deployment: Deployment) returns (err: Option<string>)
    modifies c, stage
    ensures stage.steps == old(stage.steps) + TeardownRun(vm, deployment).steps
    ensures c.calls == old(c.calls) + TeardownRun(vm, deployment).calls
    ensures err == TeardownRun(vm, deployment).err
  {
    ghost var steps0, calls0 := stage.steps, c.calls;
    stage.Start(WaitingStepName(vm.cid));
    var waitErr := c.WaitToBeReady(vm, ExistingVMWaitTimeout, WaitDelay);
    stage.End(WrapErr("Agent unreachable", waitErr));
    ghost var pre := PreDeleteWaitRun(vm);
    assert stage.steps == steps0 + pre.steps && c.calls == calls0 + pre.calls;
    err := StopAndDelete(c, stage, vm, deployment);
    Sequenced(steps0, calls0, pre, StopAndDeleteRun(vm, deployment));
  }

  /** What follows the pre-delete wait: stop, list disks, unmount, delete. */
  function StopAndDeleteRun(vm: VM, deployment: Deployment): Run
  {
    Then(StopRun(vm, deployment.jobs), Then(ListDisksRun(vm), Then(UnmountRun(vm, vm.disks), DeleteRun(vm))))
  }

  method StopAndDelete(c: Collaborators, stage: Stage, vm: VM, deployment: Deployment) returns (err: Option<string>)
    modifies c, stage
    ensures stage.steps == old(stage.steps) + StopAndDeleteRun(vm, deployment).steps
    ensures c.calls == old(c.calls) + StopAndDeleteRun(vm, deployment).calls
    ensures err == StopAndDeleteRun(vm, deployment).err
  {
    ghost var steps0, calls0 := stage.steps, c.calls;
    ghost var stop := StopRun(vm, deployment.jobs);
    ghost var rest := Then(ListDisksRun(vm), Then(UnmountRun(vm, vm.disks), DeleteRun(vm)));
    err := StopJobs(c, stage, vm, deployment.jobs);
    if err.Some? {
      return;
    }
    ghost var steps1, calls1 := stage.steps, c.calls;
    ghost var list := ListDisksRun(vm);
    ghost var unmountAndDelete := Then(UnmountRun(vm, vm.disks), DeleteRun(vm));
    var disks := c.ListDisks(vm);
    assert stage.steps == steps1 + list.steps && c.calls == calls1 + list.calls;
    err := UnmountAndDelete(c, stage, vm, disks);
    Sequenced(steps1, calls1, list, unmountAndDelete);
    Sequenced(steps0, calls0, stop, rest);
  }

  /** Running `a` and then `b` after `a` succeeded leaves the trace of `Then(a, b)`. */
  lemma Sequenced(steps0: seq<Step>, calls0: seq<Call>, a: Run, b: Run)
    requires a.err.None?
    ensures steps0 + a.steps + b.steps == steps0 + Then(a, b).steps
    ensures calls0 + a.calls + b.calls == calls0 + Then(a, b).calls
    ensures b.err == Then(a, b).err
  {
  }

  method UnmountAndDelete(c: Collaborators, stage: Stage, vm: VM, disks: seq<string>) returns (err: Option<string>)
    requires disks == vm.disks
    modifies c, stage
    ensures stage.steps == old(stage.steps) + Then(UnmountRun(vm, disks), DeleteRun(vm)).steps
    ensures c.calls == old(c.calls) + Then(UnmountRun(vm, disks), DeleteRun(vm)).calls
    ensures err == Then(UnmountRun(vm, disks), DeleteRun(vm)).err
  {
    err := UnmountDisks(c, stage, vm, disks);
    if err.Some? {
      return;
    }
    stage.Start(DeletingStepName(vm.cid));
    var deleteErr := c.Delete(vm);
    err := WrapErr("Deleting VM", deleteErr);
    stage.End(err);
  }

  method StopJobs(c: Collaborators, stage: Stage, vm: VM, jobs: seq<Job>) returns (err: Option<string>)
    modifies c, stage
    ensures stage.steps == old(stage.steps) + StopRun(vm, jobs).steps
    ensures c.calls == old(c.calls) + StopRun(vm, jobs).calls
    ensures err == StopRun(vm, jobs).err
  {
    var i := 0;
    while i < |jobs|
      invariant 0 <= i <= |jobs|
      invariant i > 0 ==> vm.stopErr.None?
      invariant stage.steps == old(stage.steps) + StoppedSteps(jobs[..i])
      invariant c.calls == old(c.calls) + StopCalls(vm.cid, i)
    {
      stage.Start(StoppingStepName(jobs[i].name));
      var stopErr := c.Stop(vm);
      if stopErr.Some? {
        err := Some(Wrap("Stopping VM", stopErr.value));
        stage.Fail(err.value);
        return;
      }
      stage.Finish();
      assert StoppedSteps(jobs[..i + 1]) == StoppedSteps(jobs[..i]) + [FinishedStep(StoppingStepName(jobs[i].name))];
      assert StopCalls(vm.cid, i + 1) == StopCalls(vm.cid, i) + [Stopped(vm.cid)];
      i := i + 1;
    }
    assert jobs[..i] == jobs;
    err := None;
  }

  method UnmountDisks(c: Collaborators, stage: Stage, vm: VM, disks: seq<string>) returns (err: Option<string>)
    modifies c, stage
    ensures stage.steps == old(stage.steps) + UnmountRun(vm, disks).steps
    ensures c.calls == old(c.calls) + UnmountRun(vm, disks).calls
    ensures err == UnmountRun(vm, disks).err
  {
    var i := 0;
    while i < |disks|
      invariant 0 <= i <= |disks|
      invariant forall j :: 0 <= j < i ==> disks[j] !in vm.unmountDiskErr
      invariant stage.steps == old(stage.steps) + UnmountedSteps(disks[..i])
      invariant c.calls == old(c.calls) + UnmountCalls(vm.cid, disks[..i])
    {
      stage.Start(UnmountingStepName(disks[i]));
      var unmountErr := c.UnmountDisk(vm, disks[i]);
      if unmountErr.Some? {
        FirstFailingDiskAt(vm, disks, i);
        err := Some(Wrap(UnmountContext(disks[i], vm.cid), unmountErr.value));
        stage.Fail(err.value);
        assert UnmountCalls(vm.cid, disks[..i + 1]) == UnmountCalls(vm.cid, disks[..i]) + [Unmounted(vm.cid, disks[i])];
        return;
      }
      stage.Finish();
      assert UnmountedSteps(disks[..i + 1]) == UnmountedSteps(disks[..i]) + [FinishedStep(UnmountingStepName(disks[i]))];
      assert UnmountCalls(vm.cid, disks[..i + 1]) == UnmountCalls(vm.cid, disks[..i]) + [Unmounted(vm.cid, disks[i])];
      i := i + 1;
    }
    FirstFailingDiskAt(vm, disks, |disks|);
    assert disks[..i] == disks;
    err := None;
  }

  /** Starts the SSH tunnel when options are given (its error is returned as is), then
      waits for the VM's agent, reporting the wait as a step. */
  method WaitUntilReady(c: Collaborators, stage: Stage, vm: VM, options: TunnelOptions, tunnel: Tunnel)
    returns (err: Option<string>)
    modifies c, stage
    ensures stage.steps == old(stage.steps) + WaitUntilReadyRun(vm, options, tunnel).steps
    ensures c.calls == old(c.calls) + WaitUntilReadyRun(vm, options, tunnel).calls
    ensures err == WaitUntilReadyRun(vm, options, tunnel).err
  {
    if options != EmptyTunnelOptions {
      err := c.StartTunnel(options, tunnel);
      if err.Some? {
        return;
      }
    }
    stage.Start(WaitingStepName(vm.cid));
    var waitErr := c.WaitToBeReady(vm, NewVMWaitTimeout, WaitDelay);
    err := WrapErr("Waiting for the vm to be ready", waitErr);
    stage.End(err);
  }
}
